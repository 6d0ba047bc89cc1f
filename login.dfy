/**
 * `UsersLogin` (actions/users.go:45-95): a chain of checks in a fixed order
 * (binding, password present, email format, user lookup and password
 * comparison, key read, signing), each of which ends the request on failure.
 */
module Login {
  import opened Wrappers
  import opened Directory
  import opened Jwt
  import opened Runtime
  import opened Claims

  /** `LoginRequest`: the bound JSON body. */
  datatype LoginRequest = LoginRequest(email: string, password: string)

  const InvalidPassword: string := "Invalid password"
  const InvalidEmail: string := "Invalid email"
  const LoginFailed: string := "Login failed"

  /** Why a login ended with a plain returned error rather than a rendered one. */
  datatype InternalCause = KeyFileUnreadable | SigningFailed

  /**
   * How a login ends: 200 with `{"token": ...}`, `c.Error(status, err)`, or
   * a plain error returned to buffalo, which answers it with a 500.
   */
  datatype LoginOutcome =
    | TokenIssued(token: string)
    | Rejected(status: int, message: string)
    | Failed(cause: InternalCause)

  /** The HTTP status the client sees. */
  function StatusOf(r: LoginOutcome): int {
    match r
    case TokenIssued(_) => 200
    case Rejected(status, _) => status
    case Failed(_) => InternalServerError
  }

  /** The supplied credentials name a user whose stored hash accepts the supplied password. */
  predicate Authenticates(svc: Services, users: seq<User>, email: string, password: string) {
    GetUser(users, email).Ok? && svc.hasher.compare(GetUser(users, email).value.password, password)
  }

  /** The request passes the two checks made before the directory is consulted. */
  predicate WellFormed(svc: Services, req: LoginRequest) {
    |req.password| > 0 && svc.checkFormat(req.email)
  }

  /**
   * `UsersLogin`. `bound` is the result of `c.Bind`: the request, or the
   * binder's error text; `now` is `time.Now().Unix()`.
   */
  function UsersLogin(svc: Services, users: seq<User>, now: int, bound: Result<LoginRequest, string>): (r: LoginOutcome)
    ensures r.Rejected? ==> r.status == BadRequest
    ensures !r.Rejected? ==>
      bound.Ok? && WellFormed(svc, bound.value) && Authenticates(svc, users, bound.value.email, bound.value.password)
    ensures r.TokenIssued? ==>
      && ReadSigningKey(svc).Some?
      && var u := GetUser(users, bound.value.email).value;
         svc.jwt.sign(Token(HS256, Payload(NewClaims(u, now, GoEnv(svc)))), ReadSigningKey(svc).value) == Some(r.token)
    ensures r.Failed? ==> (r.cause == KeyFileUnreadable <==> ReadSigningKey(svc).None?)
    ensures
      (&& bound.Ok? && WellFormed(svc, bound.value)
       && Authenticates(svc, users, bound.value.email, bound.value.password)
       && ReadSigningKey(svc).Some?) ==>
      var u := GetUser(users, bound.value.email).value;
      var signed := svc.jwt.sign(Token(HS256, Payload(NewClaims(u, now, GoEnv(svc)))), ReadSigningKey(svc).value);
      r == if signed.Some? then TokenIssued(signed.value) else Failed(SigningFailed)
  {
    match bound
    case Err(e) => Rejected(BadRequest, e)
    case Ok(req) =>
      if |req.password| == 0 then Rejected(BadRequest, InvalidPassword)
      else if !svc.checkFormat(req.email) then Rejected(BadRequest, InvalidEmail)
      else
        match GetUser(users, req.email)
        case Err(_) => Rejected(BadRequest, LoginFailed)
        case Ok(u) =>
          if !svc.hasher.compare(u.password, req.password) then Rejected(BadRequest, LoginFailed)
          else
            var claims := NewClaims(u, now, GoEnv(svc));
            match ReadSigningKey(svc)
            case None => Failed(KeyFileUnreadable)
            case Some(key) =>
              match svc.jwt.sign(Token(HS256, Payload(claims)), key)
              case None => Failed(SigningFailed)
              case Some(token) => TokenIssued(token)
  }

  /**
   * The checks come in a fixed order: a binding error first, then an empty
   * password (even when the email is malformed as well), then a malformed
   * email. None of them consults the directory, the hasher, the clock, the
   * key or the signer: the outcome is the same whatever those are.
   */
  lemma ChecksPrecedeLookup(svc: Services, users: seq<User>, now: int, bound: Result<LoginRequest, string>,
                            svc': Services, users': seq<User>, now': int)
    requires svc'.checkFormat == svc.checkFormat
    requires bound.Err? || !WellFormed(svc, bound.value)
    ensures UsersLogin(svc, users, now, bound) == UsersLogin(svc', users', now', bound)
    ensures UsersLogin(svc, users, now, bound) == Rejected(BadRequest,
      if bound.Err? then bound.error
      else if |bound.value.password| == 0 then InvalidPassword
      else InvalidEmail)
  {
  }

  /**
   * Enumeration resistance: an unknown email and a known email with a wrong
   * password end identically, with 400 "Login failed".
   */
  lemma UnknownEmailLooksLikeWrongPassword(svc: Services, users: seq<User>, now: int,
                                           unknown: LoginRequest, known: LoginRequest)
    requires WellFormed(svc, unknown) && WellFormed(svc, known)
    requires forall i | 0 <= i < |users| :: users[i].email != unknown.email
    requires exists i | 0 <= i < |users| :: users[i].email == known.email
    requires !svc.hasher.compare(GetUser(users, known.email).value.password, known.password)
    ensures UsersLogin(svc, users, now, Ok(unknown)) == UsersLogin(svc, users, now, Ok(known))
    ensures UsersLogin(svc, users, now, Ok(known)) == Rejected(BadRequest, LoginFailed)
  {
  }

  /**
   * Valid credentials always lead past the 400s: the login then ends with a
   * token when the key can be read and signing succeeds, and otherwise with
   * a 500 that carries no token.
   */
  lemma CredentialsDecideRejection(svc: Services, users: seq<User>, now: int, req: LoginRequest)
    requires WellFormed(svc, req)
    ensures Authenticates(svc, users, req.email, req.password) <==> !UsersLogin(svc, users, now, Ok(req)).Rejected?
    ensures Authenticates(svc, users, req.email, req.password) && ReadSigningKey(svc).None? ==>
      UsersLogin(svc, users, now, Ok(req)) == Failed(KeyFileUnreadable)
    ensures UsersLogin(svc, users, now, Ok(req)).Failed? ==>
      StatusOf(UsersLogin(svc, users, now, Ok(req))) == InternalServerError
    ensures Authenticates(svc, users, req.email, req.password) && ReadSigningKey(svc).Some? ==>
      var u := GetUser(users, req.email).value;
      var signed := svc.jwt.sign(Token(HS256, Payload(NewClaims(u, now, GoEnv(svc)))), ReadSigningKey(svc).value);
      signed.Some? ==> UsersLogin(svc, users, now, Ok(req)) == TokenIssued(signed.value)
  {
  }
}
