/** The sign-up form of the front end: the ordered checks of the submit
    handler and the handling of the answer. The register request itself is
    left out: the handler yields the body it would send, and the answer is a
    parameter of the method that receives it. */
module SignUpPage {
  import opened Common

  const AllFieldsRequired := "All fields are required"
  const PasswordTooShort := "Password must be at least 6 characters"
  const PasswordsDoNotMatch := "Passwords do not match"
  const SignUpFailed := "Sign up failed"
  const AccountCreated := "Account created successfully! Redirecting to home..."
  const NetworkError := "Error creating account. Please try again."
  const MinPasswordLength := 6

  /** The checks in their order: four filled fields, the length, the match.
      confirmPassword is not among the required fields. */
  function SignUpError(firstName: string, lastName: string, email: string, password: string,
                       confirmPassword: string): (err: Option<string>)
    ensures firstName == "" || lastName == "" || email == "" || password == "" ==> err == Some(AllFieldsRequired)
    ensures firstName != "" && lastName != "" && email != "" && password != "" && |password| < MinPasswordLength ==>
              err == Some(PasswordTooShort)
    ensures firstName != "" && lastName != "" && email != "" && |password| >= MinPasswordLength &&
              password != confirmPassword ==>
              err == Some(PasswordsDoNotMatch)
    ensures err.None? <==>
              firstName != "" && lastName != "" && email != "" &&
              |password| >= MinPasswordLength && password == confirmPassword
    ensures err.Some? ==> err.value in {AllFieldsRequired, PasswordTooShort, PasswordsDoNotMatch}
  {
    if firstName == "" || lastName == "" || email == "" || password == "" then Some(AllFieldsRequired)
    else if |password| < MinPasswordLength then Some(PasswordTooShort)
    else if password != confirmPassword then Some(PasswordsDoNotMatch)
    else None
  }

  /** Leaving only the confirmation empty reports a mismatch, not a missing field. */
  lemma EmptyConfirmIsMismatch(firstName: string, lastName: string, email: string, password: string)
    requires firstName != "" && lastName != "" && email != "" && |password| >= MinPasswordLength
    ensures SignUpError(firstName, lastName, email, password, "") == Some(PasswordsDoNotMatch)
  {
  }

  /** The JSON body of the register request. */
  datatype SignUpPayload = SignUpPayload(
    firstName: string, lastName: string, email: string, password: string, confirmPassword: string)

  class SignUpForm {
    var firstName: string
    var lastName: string
    var email: string
    var password: string
    var confirmPassword: string
    var loading: bool
    var error: string
    var success: string

    constructor ()
      ensures firstName == "" && lastName == "" && email == "" && password == "" && confirmPassword == ""
      ensures !loading && error == "" && success == ""
    {
      firstName, lastName, email, password, confirmPassword := "", "", "", "", "";
      loading := false;
      error, success := "", "";
    }

    /** The submit handler up to the request: both messages are cleared, the
        first failing check sets the error, and only when all pass does
        `loading` turn on and the body go out. */
    method HandleSignUp() returns (sent: Option<SignUpPayload>)
      modifies this
      ensures var err := SignUpError(firstName, lastName, email, password, confirmPassword);
              && (sent.Some? <==> err.None?)
              && error == err.GetOr("")
              && loading == (err.None? || old(loading))
      ensures sent.Some? ==> sent.value == SignUpPayload(firstName, lastName, email, password, confirmPassword)
      ensures success == ""
      ensures firstName == old(firstName) && lastName == old(lastName) && email == old(email)
      ensures password == old(password) && confirmPassword == old(confirmPassword)
    {
      error := "";
      success := "";
      if firstName == "" || lastName == "" || email == "" || password == "" {
        error := AllFieldsRequired;
        return None;
      }
      if |password| < MinPasswordLength {
        error := PasswordTooShort;
        return None;
      }
      if password != confirmPassword {
        error := PasswordsDoNotMatch;
        return None;
      }
      loading := true;
      sent := Some(SignUpPayload(firstName, lastName, email, password, confirmPassword));
    }

    /** The answer to the register request: an error shows the server's
        message (or a fallback); a success shows the confirmation and hands
        back the token to keep in local storage. `loading` goes off either way. */
    method ReceiveResponse(ok: bool, message: Option<string>, token: string) returns (stored: Option<string>)
      modifies this
      ensures stored.Some? <==> ok
      ensures ok ==> stored.value == token && success == AccountCreated && error == old(error)
      ensures !ok ==> error == OrStr(message, SignUpFailed) && success == old(success)
      ensures !loading
      ensures firstName == old(firstName) && lastName == old(lastName) && email == old(email)
      ensures password == old(password) && confirmPassword == old(confirmPassword)
    {
      stored := None;
      if !ok {
        error := OrStr(message, SignUpFailed);
      } else {
        success := AccountCreated;
        stored := Some(token);
      }
      loading := false;
    }

    /** The request itself failed (no answer to read). */
    method ReceiveFailure()
      modifies this
      ensures error == NetworkError && success == old(success) && !loading
      ensures firstName == old(firstName) && lastName == old(lastName) && email == old(email)
      ensures password == old(password) && confirmPassword == old(confirmPassword)
    {
      error := NetworkError;
      loading := false;
    }
  }
}
