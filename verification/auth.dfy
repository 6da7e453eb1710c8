/** The authenticateToken middleware: take the token from the Authorization
    header, verify it, load its user, and either answer with an error or set
    `req.user` and pass the request on. Signature checking (jwt.verify) is an
    oracle `verify` that yields the user id carried by a valid, unexpired
    token and `None` for any other token. */
module Auth {
  import opened Common
  import opened Strings
  import opened UserModel

  const TokenRequired := "Access token required"
  const InvalidToken := "Invalid or expired token"
  const UserNotFound := "User not found"

  /** `authHeader && authHeader.split(' ')[1]`, kept only when truthy. */
  function ExtractToken(header: Option<string>): (token: Option<string>)
    ensures token.Some? ==> token.value != "" && ' ' !in token.value
    ensures header.None? ==> token.None?
  {
    if header.None? || header.value == "" then None
    else
      var parts := Split(header.value, ' ');
      if |parts| < 2 || parts[1] == "" then None else Some(parts[1])
  }

  /** Every header is its space-separated words joined by single spaces; the
      token is the second word when there is a non-empty one, whatever the
      first word is. */
  lemma ExtractTokenWords(words: seq<string>)
    requires |words| >= 1
    requires forall i :: 0 <= i < |words| ==> ' ' !in words[i]
    ensures ExtractToken(Some(Join(words, ' '))) ==
            if |words| >= 2 && words[1] != "" then Some(words[1]) else None
  {
    SplitJoin(words, ' ');
    if Join(words, ' ') == "" {
      assert Split("", ' ') == [""];
    }
  }

  /** "<scheme> <token>" yields the token; the scheme is not checked to be "Bearer". */
  lemma SchemeIsIgnored(scheme: string, token: string)
    requires ' ' !in scheme && ' ' !in token && token != ""
    ensures ExtractToken(Some(scheme + " " + token)) == Some(token)
  {
    ExtractTokenWords([scheme, token]);
    assert Join([scheme, token], ' ') == scheme + " " + token;
  }

  /** A header of one word (no space at all) carries no token. */
  lemma OneWordHasNoToken(header: string)
    requires ' ' !in header
    ensures ExtractToken(Some(header)) == None
  {
    ExtractTokenWords([header]);
  }

  /** The outcome of the middleware: 401 without a token, 403 when the token
      does not verify, 404 when its user is gone, otherwise the user. */
  function Gate(header: Option<string>, verify: string -> Option<Id>, users: map<Id, User>): (r: Response<User>)
    ensures ExtractToken(header).None? ==> r == Unauthorized(TokenRequired)
    ensures ExtractToken(header).Some? && verify(ExtractToken(header).value).None? ==>
              r == Forbidden(InvalidToken)
    ensures ExtractToken(header).Some? && verify(ExtractToken(header).value).Some? ==>
              var id := verify(ExtractToken(header).value).value;
              (id !in users ==> r == NotFound(UserNotFound)) && (id in users ==> r == Ok(users[id]))
    ensures r.Ok? || r.Unauthorized? || r.Forbidden? || r.NotFound?
  {
    match ExtractToken(header)
    case None => Unauthorized(TokenRequired)
    case Some(token) =>
      match verify(token)
      case None => Forbidden(InvalidToken)
      case Some(id) => if id in users then Ok(users[id]) else NotFound(UserNotFound)
  }

  /** The parts of the Express request the middleware touches; `nextCalls`
      counts the calls to `next()`. */
  class Request {
    const authorization: Option<string>
    var user: Option<User>
    var nextCalls: nat

    constructor (authorization: Option<string>)
      ensures this.authorization == authorization && user == None && nextCalls == 0
    {
      this.authorization := authorization;
      user := None;
      nextCalls := 0;
    }
  }

  method AuthenticateToken(req: Request, verify: string -> Option<Id>, users: map<Id, User>)
    returns (r: Response<User>)
    modifies req
    ensures r == Gate(req.authorization, verify, users)
    ensures r.Ok? ==> req.user == Some(r.value) && req.nextCalls == old(req.nextCalls) + 1
    ensures !r.Ok? ==> req.user == old(req.user) && req.nextCalls == old(req.nextCalls)
  {
    var token := ExtractToken(req.authorization);
    if token.None? {
      return Unauthorized(TokenRequired);
    }
    var payload := verify(token.value);
    if payload.None? {
      return Forbidden(InvalidToken);
    }
    if payload.value !in users {
      return NotFound(UserNotFound);
    }
    req.user := Some(users[payload.value]);
    req.nextCalls := req.nextCalls + 1;
    r := Ok(users[payload.value]);
  }
}
