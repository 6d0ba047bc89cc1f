/**
 * The token lifecycle end to end: a token issued by `UsersLogin` is
 * accepted by `RestrictedHandlerMiddleware` for one week and resolves to
 * the user who logged in; and the expectations of actions/users_test.go on
 * the seeded directory.
 */
module Lifecycle {
  import opened Wrappers
  import opened Passwords
  import opened Directory
  import opened Jwt
  import opened Runtime
  import opened Claims
  import opened Login
  import opened Middleware

  /** Every user has a non-empty ID, so the `jti` claim of their tokens is never omitted. */
  ghost predicate IdsPresent(users: seq<User>) {
    forall i | 0 <= i < |users| :: users[i].id != ""
  }

  /**
   * A token issued at `now` decodes, under a lawful codec, to the HS256
   * token of the found user's claims, and verifies under the key read at
   * login.
   */
  lemma IssuedTokenDecodes(svc: Services, users: seq<User>, now: int, req: LoginRequest, token: string)
    requires Lawful(svc.jwt)
    requires UsersLogin(svc, users, now, Ok(req)) == TokenIssued(token)
    ensures GetUser(users, req.email).Ok? && ReadSigningKey(svc).Some? && token != []
    ensures svc.jwt.decode(token) == Some(Token(HS256, Payload(NewClaims(GetUser(users, req.email).value, now, GoEnv(svc)))))
    ensures svc.jwt.verify(token, HS256, ReadSigningKey(svc).value)
  {
    var u := GetUser(users, req.email).value;
    var t := Token(HS256, Payload(NewClaims(u, now, GoEnv(svc))));
    assert svc.jwt.sign(t, ReadSigningKey(svc).value) == Some(token);
  }

  /**
   * Round trip: a token issued at `now` is accepted at any time up to one
   * week later and hands on the user who logged in, the same user that
   * `getUser` found by email.
   */
  lemma {:induction false} IssuedTokenIsAccepted(svc: Services, users: seq<User>, now: int, req: LoginRequest,
                                                token: string, later: int)
    requires Lawful(svc.jwt) && UniqueIds(users) && IdsPresent(users)
    requires UsersLogin(svc, users, now, Ok(req)) == TokenIssued(token)
    requires now <= later <= now + LifetimeSeconds()
    ensures GetUser(users, req.email).Ok?
    ensures Authorize(svc, users, later, token) == Proceed(GetUser(users, req.email).value)
    ensures Authorize(svc, users, later, token).user.email == req.email
  {
    IssuedTokenDecodes(svc, users, now, req, token);
    var u := GetUser(users, req.email).value;
    var t := Token(HS256, Payload(NewClaims(u, now, GoEnv(svc))));
    IssuedPayloadShape(u, now, GoEnv(svc));
    var k :| 0 <= k < |users| && users[k] == u && users[k].email == req.email;
    GetUserByIDOfMember(users, k);
    assert Accepted(svc, later, token);
    assert Subject(t) == Some(u.id);
    AcceptedTokenProceeds(svc, users, later, token, u);
  }

  /** After its week is over, an issued token is refused as expired. */
  lemma {:induction false} IssuedTokenExpires(svc: Services, users: seq<User>, now: int, req: LoginRequest,
                                             token: string, later: int)
    requires Lawful(svc.jwt)
    requires UsersLogin(svc, users, now, Ok(req)) == TokenIssued(token)
    requires now + LifetimeSeconds() < later && now + LifetimeSeconds() != 0
    ensures var d := Authorize(svc, users, later, token);
      d.Reject? && d.reason.CouldNotParse? && d.reason.error.Invalid? && d.reason.error.expired
  {
    IssuedTokenDecodes(svc, users, now, req, token);
    IssuedPayloadShape(GetUser(users, req.email).value, now, GoEnv(svc));
    ExpiredRejected(svc, users, later, token);
  }

  /**
   * The quirk of `encryptPassword`: a password provisioned with surrounding
   * white space is refused when typed exactly as provisioned, and accepted
   * only without that white space.
   */
  lemma PaddedPasswordCannotLogIn(svc: Services, now: int, id: string, email: string, p: string)
    requires Sound(svc.hasher) && svc.checkFormat(email)
    requires p != [] && TrimSpace(p) != p
    ensures var users := [User(id, email, EncryptPassword(svc.hasher, p))];
      && UsersLogin(svc, users, now, Ok(LoginRequest(email, p))) == Rejected(BadRequest, LoginFailed)
      && (TrimSpace(p) != [] ==> !UsersLogin(svc, users, now, Ok(LoginRequest(email, TrimSpace(p)))).Rejected?)
  {
    StoredHashAcceptsTrimmedPassword(svc.hasher, p, p);
    StoredHashAcceptsTrimmedPassword(svc.hasher, p, TrimSpace(p));
  }

  /** The checkmail verdicts the login table of actions/users_test.go relies on. */
  ghost predicate TestEmailFormats(svc: Services) {
    && svc.checkFormat("fake-email@email.you")
    && svc.checkFormat("one-more-fake-email@email.you")
    && svc.checkFormat("unknown_user@email.unknown")
    && !svc.checkFormat("")
    && !svc.checkFormat("asdfas.net")
    && !svc.checkFormat("fakemail@.")
  }

  /**
   * A user provisioned with `encryptPassword` of a password without
   * surrounding white space, and not shadowed by an earlier user with the
   * same email, gets past the 400s with that password.
   */
  lemma {:induction false} ProvisionedUserLogsIn(svc: Services, users: seq<User>, now: int, k: nat, plain: string)
    requires Sound(svc.hasher)
    requires k < |users| && svc.checkFormat(users[k].email)
    requires forall j | 0 <= j < k :: users[j].email != users[k].email
    requires plain != [] && TrimSpace(plain) == plain
    requires users[k].password == EncryptPassword(svc.hasher, plain)
    ensures Authenticates(svc, users, users[k].email, plain)
    ensures !UsersLogin(svc, users, now, Ok(LoginRequest(users[k].email, plain))).Rejected?
  {
    assert GetUser(users, users[k].email) == Ok(users[k]);
    StoredHashAcceptsTrimmedPassword(svc.hasher, plain, plain);
    CredentialsDecideRejection(svc, users, now, LoginRequest(users[k].email, plain));
  }

  /** Rows 1 and 5 of `Test_Users_Login`: each seeded user gets past the 400s with their own password. */
  lemma SeededUsersLogIn(svc: Services, now: int)
    requires Sound(svc.hasher) && TestEmailFormats(svc)
    ensures var users := SeedUsers(svc.hasher);
      && Authenticates(svc, users, "fake-email@email.you", "fake-pwd")
      && Authenticates(svc, users, "one-more-fake-email@email.you", "one-more-fake-pwd")
      && !UsersLogin(svc, users, now, Ok(LoginRequest("fake-email@email.you", "fake-pwd"))).Rejected?
      && !UsersLogin(svc, users, now, Ok(LoginRequest("one-more-fake-email@email.you", "one-more-fake-pwd"))).Rejected?
  {
    var users := SeedUsers(svc.hasher);
    assert TrimSpace("fake-pwd") == "fake-pwd";
    assert TrimSpace("one-more-fake-pwd") == "one-more-fake-pwd";
    ProvisionedUserLogsIn(svc, users, now, 0, "fake-pwd");
    ProvisionedUserLogsIn(svc, users, now, 1, "one-more-fake-pwd");
  }

  /** Rows 2 and 3 of `Test_Users_Login`: a wrong password and an unknown email both give 400 "Login failed". */
  lemma SeededBadCredentialsFail(svc: Services, now: int)
    requires Sound(svc.hasher) && TestEmailFormats(svc)
    ensures var users := SeedUsers(svc.hasher);
      && UsersLogin(svc, users, now, Ok(LoginRequest("fake-email@email.you", "bad-pwd")))
           == Rejected(BadRequest, LoginFailed)
      && UsersLogin(svc, users, now, Ok(LoginRequest("unknown_user@email.unknown", "dev")))
           == Rejected(BadRequest, LoginFailed)
  {
    var h := svc.hasher;
    var users := SeedUsers(h);
    assert GetUser(users, "fake-email@email.you") == Ok(users[0]);
    StoredHashAcceptsTrimmedPassword(h, "fake-pwd", "bad-pwd");
    assert users[0].email != "unknown_user@email.unknown" && users[1].email != "unknown_user@email.unknown";
    UnknownEmailLooksLikeWrongPassword(svc, users, now,
      LoginRequest("unknown_user@email.unknown", "dev"), LoginRequest("fake-email@email.you", "bad-pwd"));
  }

  /** Rows 4, 6 and 7 of `Test_Users_Login`: malformed emails give 400 "Invalid email" before any lookup. */
  lemma SeededMalformedEmailsFail(svc: Services, users: seq<User>, now: int)
    requires TestEmailFormats(svc)
    ensures UsersLogin(svc, users, now, Ok(LoginRequest("", "dev"))) == Rejected(BadRequest, InvalidEmail)
    ensures UsersLogin(svc, users, now, Ok(LoginRequest("asdfas.net", "dev"))) == Rejected(BadRequest, InvalidEmail)
    ensures UsersLogin(svc, users, now, Ok(LoginRequest("fakemail@.", "dev"))) == Rejected(BadRequest, InvalidEmail)
  {
  }

  /**
   * `Test_Users_Me`: with a readable key and a signer that does not fail,
   * the seeded user logs in, and the token then hands that user (whose JSON
   * holds the email and never a password) to the next handler.
   */
  lemma SeededLoginThenMe(svc: Services, now: int, later: int)
    requires Sound(svc.hasher) && TestEmailFormats(svc) && Lawful(svc.jwt)
    requires ReadSigningKey(svc).Some?
    requires forall t, k :: svc.jwt.sign(t, k).Some?
    requires now <= later <= now + LifetimeSeconds()
    ensures var users := SeedUsers(svc.hasher);
      var r := UsersLogin(svc, users, now, Ok(LoginRequest("fake-email@email.you", "fake-pwd")));
      && r.TokenIssued?
      && Authorize(svc, users, later, r.token).Proceed?
      && UserJson(Authorize(svc, users, later, r.token).user)
           == JObj(map["id" := JStr("fceb-adse-dffa-ewop"), "email" := JStr("fake-email@email.you")])
  {
    var users := SeedUsers(svc.hasher);
    var req := LoginRequest("fake-email@email.you", "fake-pwd");
    SeededUsersLogIn(svc, now);
    var u := GetUser(users, req.email).value;
    assert svc.jwt.sign(Token(HS256, Payload(NewClaims(u, now, GoEnv(svc)))), ReadSigningKey(svc).value).Some?;
    var r := UsersLogin(svc, users, now, Ok(req));
    IssuedTokenIsAccepted(svc, users, now, req, r.token, later);
  }
}
