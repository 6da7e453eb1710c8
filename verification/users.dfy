/** The /users routes. All but the user list run after the auth middleware,
    which supplies `callerId`; a handler that loads the caller's row and
    finds none fails on the null row and answers 500. The salt drawn by the
    beforeUpdate hook is a parameter. */
module UserRoutes {
  import opened Common
  import opened Query
  import opened UserModel
  import opened Store

  const ErrorFetchingProfile := "Error fetching profile"
  const ErrorUpdatingProfile := "Error updating profile"
  const PasswordFieldsRequired := "All password fields are required"
  const PasswordsDoNotMatch := "New passwords do not match"
  const CurrentPasswordIncorrect := "Current password is incorrect"
  const ErrorChangingPassword := "Error changing password"

  /** GET /users/profile: the caller's row without its password. */
  method GetProfile(db: Database, callerId: Id) returns (r: Response<PublicUser>)
    ensures callerId in db.users ==> r == Ok(ToJSON(db.users[callerId]))
    ensures callerId !in db.users ==> r == ServerError(ErrorFetchingProfile)
  {
    if callerId !in db.users {
      return ServerError(ErrorFetchingProfile);
    }
    r := Ok(ToJSON(db.users[callerId]));
  }

  /** The fields of a PUT /users/profile body; email and password are not read. */
  datatype ProfileRequest = ProfileRequest(
    firstName: Option<string>,
    lastName: Option<string>,
    phone: Option<string>,
    bio: Option<string>,
    profileImage: Option<string>)

  /** The row PUT /users/profile saves: the five fields take the request's
      value when it is truthy. The password is not assigned, so beforeUpdate
      keeps the stored hash. */
  function MergeProfile(u: User, req: ProfileRequest): (r: User)
    ensures r.id == u.id && r.email == u.email && r.password == u.password
    ensures r.isActive == u.isActive && r.emailVerified == u.emailVerified
    ensures r.firstName == OrStr(req.firstName, u.firstName) && r.lastName == OrStr(req.lastName, u.lastName)
    ensures r.phone == OrText(req.phone, u.phone) && r.bio == OrText(req.bio, u.bio)
    ensures r.profileImage == OrText(req.profileImage, u.profileImage)
  {
    var next := u.(firstName := OrStr(req.firstName, u.firstName), lastName := OrStr(req.lastName, u.lastName),
                   phone := OrText(req.phone, u.phone), bio := OrText(req.bio, u.bio),
                   profileImage := OrText(req.profileImage, u.profileImage));
    BeforeUpdate(u, next, 0)
  }

  /** A profile update never changes which passwords the account accepts. */
  lemma ProfileKeepsPassword(u: User, req: ProfileRequest, candidate: string)
    ensures ComparePassword(MergeProfile(u, req), candidate) <==> ComparePassword(u, candidate)
  {
  }

  /** Applying the same update twice is the same as applying it once. */
  lemma MergeProfileIdempotent(u: User, req: ProfileRequest)
    ensures MergeProfile(MergeProfile(u, req), req) == MergeProfile(u, req)
  {
  }

  /** PUT /users/profile. */
  method UpdateProfile(db: Database, callerId: Id, req: ProfileRequest) returns (r: Response<PublicUser>)
    requires db.Valid()
    modifies db
    ensures db.Valid()
    ensures db.events == old(db.events) && db.services == old(db.services) && db.bookings == old(db.bookings)
    ensures callerId !in old(db.users) ==> r == ServerError(ErrorUpdatingProfile) && db.users == old(db.users)
    ensures callerId in old(db.users) ==>
              var u := MergeProfile(old(db.users)[callerId], req);
              r == Ok(ToJSON(u)) && db.users == old(db.users)[callerId := u]
  {
    if callerId !in db.users {
      return ServerError(ErrorUpdatingProfile);
    }
    var saved := db.users[callerId];
    var user := saved;
    user := user.(firstName := OrStr(req.firstName, user.firstName));
    user := user.(lastName := OrStr(req.lastName, user.lastName));
    user := user.(phone := OrText(req.phone, user.phone));
    user := user.(bio := OrText(req.bio, user.bio));
    user := user.(profileImage := OrText(req.profileImage, user.profileImage));
    user := BeforeUpdate(saved, user, 0);
    PutUserKeepsConsistent(db.users, db.events, db.services, db.bookings, callerId, user);
    db.users := db.users[callerId := user];
    r := Ok(ToJSON(user));
  }

  /** The fields of a PUT /users/change-password body. */
  datatype PasswordChange = PasswordChange(
    currentPassword: Option<string>,
    newPassword: Option<string>,
    confirmPassword: Option<string>)

  /** The two 400 checks, in their order. */
  function PasswordChangeError(req: PasswordChange): (err: Option<string>)
    ensures err.None? <==>
              TruthyStr(req.currentPassword) && TruthyStr(req.newPassword) && TruthyStr(req.confirmPassword) &&
              req.newPassword == req.confirmPassword
    ensures err.Some? ==> err.value == PasswordFieldsRequired || err.value == PasswordsDoNotMatch
    ensures !TruthyStr(req.currentPassword) || !TruthyStr(req.newPassword) || !TruthyStr(req.confirmPassword) ==>
              err == Some(PasswordFieldsRequired)
    ensures TruthyStr(req.currentPassword) && TruthyStr(req.newPassword) && TruthyStr(req.confirmPassword) &&
              req.newPassword != req.confirmPassword ==>
              err == Some(PasswordsDoNotMatch)
  {
    if !TruthyStr(req.currentPassword) || !TruthyStr(req.newPassword) || !TruthyStr(req.confirmPassword) then
      Some(PasswordFieldsRequired)
    else if req.newPassword.value != req.confirmPassword.value then
      Some(PasswordsDoNotMatch)
    else
      None
  }

  /** PUT /users/change-password: the stored hash changes only when the
      current password is right, and then it accepts the new password and
      nothing else. */
  method ChangePassword(db: Database, callerId: Id, req: PasswordChange, salt: Salt) returns (r: Response<()>)
    requires db.Valid()
    modifies db
    ensures db.Valid()
    ensures db.events == old(db.events) && db.services == old(db.services) && db.bookings == old(db.bookings)
    ensures PasswordChangeError(req).Some? ==> r == BadRequest(PasswordChangeError(req).value)
    ensures PasswordChangeError(req).None? && callerId !in old(db.users) ==> r == ServerError(ErrorChangingPassword)
    ensures PasswordChangeError(req).None? && callerId in old(db.users) ==>
              (r == Unauthorized(CurrentPasswordIncorrect) <==>
               !ComparePassword(old(db.users)[callerId], req.currentPassword.value))
    ensures r.Ok? <==> PasswordChangeError(req).None? && callerId in old(db.users) &&
                       ComparePassword(old(db.users)[callerId], req.currentPassword.value)
    ensures r.Ok? ==> db.users == old(db.users)[callerId := old(db.users)[callerId].(password := Hash(req.newPassword.value, salt))]
    ensures !r.Ok? ==> db.users == old(db.users)
  {
    if !TruthyStr(req.currentPassword) || !TruthyStr(req.newPassword) || !TruthyStr(req.confirmPassword) {
      return BadRequest(PasswordFieldsRequired);
    }
    if req.newPassword.value != req.confirmPassword.value {
      return BadRequest(PasswordsDoNotMatch);
    }
    if callerId !in db.users {
      return ServerError(ErrorChangingPassword);
    }
    var saved := db.users[callerId];
    if !ComparePassword(saved, req.currentPassword.value) {
      return Unauthorized(CurrentPasswordIncorrect);
    }
    var user := saved.(password := Plain(req.newPassword.value));
    user := BeforeUpdate(saved, user, salt);
    PutUserKeepsConsistent(db.users, db.events, db.services, db.bookings, callerId, user);
    db.users := db.users[callerId := user];
    r := Ok(());
  }

  /** After a successful change the account accepts the new password and
      no other, the old one included when it differs. */
  lemma ChangedPasswordAcceptsOnlyNew(u: User, newPassword: string, salt: Salt, candidate: string)
    ensures ComparePassword(u.(password := Hash(newPassword, salt)), candidate) <==> candidate == newPassword
  {
    MatchesHash(candidate, newPassword, salt);
  }

  /** DELETE /users/account: the caller's row with its events and bookings;
      the answer is 200 whether or not a row was there. */
  method DeleteAccount(db: Database, callerId: Id) returns (r: Response<()>)
    requires db.Valid()
    modifies db
    ensures db.Valid()
    ensures r == Ok(())
    ensures callerId !in db.users && db.services == old(db.services)
    ensures db.users == old(db.users) - {callerId}
    ensures db.events == DeleteWhere(old(db.events), (e: EventModel.Event) => e.userId == callerId)
    ensures db.bookings == DeleteWhere(old(db.bookings), b => OfUser(b, callerId, EventsOf(old(db.events), callerId)))
  {
    db.RemoveUser(callerId);
    r := Ok(());
  }

  /** GET /users/all (no authentication): every user once, without the
      password, in no particular order. */
  method AllUsers(db: Database) returns (rows: seq<PublicUser>)
    requires db.Valid()
    ensures forall i :: 0 <= i < |rows| ==> rows[i].id in db.users && rows[i] == ToJSON(db.users[rows[i].id])
    ensures forall k :: k in db.users ==> ToJSON(db.users[k]) in rows
    ensures forall i, j :: 0 <= i < j < |rows| ==> rows[i].id != rows[j].id
  {
    db.TablesInjective();
    var all := (u: User) => true;
    var users := Select(db.users, all, (a: User, b: User) => true);
    forall i | 0 <= i < |users|
      ensures users[i] in Rows(db.users, all, db.users.Keys)
    {
      assert users[i] in multiset(users);
    }
    rows := seq(|users|, i requires 0 <= i < |users| => ToJSON(users[i]));
    forall k | k in db.users
      ensures ToJSON(db.users[k]) in rows
    {
      assert db.users[k] in Rows(db.users, all, db.users.Keys);
      assert db.users[k] in multiset(users);
      var i :| 0 <= i < |users| && users[i] == db.users[k];
      assert rows[i] == ToJSON(db.users[k]);
    }
  }
}
