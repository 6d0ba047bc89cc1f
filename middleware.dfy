/**
 * `RestrictedHandlerMiddleware` (actions/users.go:136-186): reject the
 * request, or bind the user named by the token's `jti` claim into the
 * request context and call the next handler.
 */
module Middleware {
  import opened Wrappers
  import opened Directory
  import opened Jwt
  import opened Runtime

  /** The errors the key callback of `jwt.Parse` returns. */
  datatype KeyError = UnexpectedSigningMethod(alg: Alg) | KeyUnreadable

  /**
   * The key callback: only HMAC tokens get a key, and the key is read from
   * the file named by JWT_KEY_PATH on every call.
   */
  function KeyFunc(svc: Services, t: Token): (r: Result<Key, KeyError>)
    ensures r.Ok? <==> IsHmac(t.alg) && ReadSigningKey(svc).Some?
    ensures r.Ok? ==> r.value == ReadSigningKey(svc).value
    ensures r.Err? && !IsHmac(t.alg) ==> r.error == UnexpectedSigningMethod(t.alg)
  {
    if !IsHmac(t.alg) then Err(UnexpectedSigningMethod(t.alg))
    else
      match ReadSigningKey(svc)
      case None => Err(KeyUnreadable)
      case Some(key) => Ok(key)
  }

  /** Why a protected request was refused; every refusal is a 401. */
  datatype Rejection =
    | NoToken
    | CouldNotParse(error: ParseError<KeyError>)
    | UnknownUser

  /** The fixed part of each refusal's message. */
  function Message(reason: Rejection): string {
    match reason
    case NoToken => "No token set in headers"
    case CouldNotParse(_) => "Could not parse the token"
    case UnknownUser => "Could not identify the user"
  }

  /**
   * How the middleware ends: refused, handed on with the resolved user, or
   * a panic of the type assertion `claims["jti"].(string)` when a valid
   * token carries no string `jti`.
   */
  datatype Decision = Reject(status: int, reason: Rejection) | Proceed(user: User) | Panicked

  /**
   * A token the middleware accepts before any lookup: it decodes, uses an
   * HMAC method, a key can be read, its signature verifies under that key,
   * and its time claims hold at `now`.
   */
  predicate Accepted(svc: Services, now: int, header: string) {
    && svc.jwt.decode(header).Some?
    && IsHmac(svc.jwt.decode(header).value.alg)
    && ReadSigningKey(svc).Some?
    && svc.jwt.verify(header, svc.jwt.decode(header).value.alg, ReadSigningKey(svc).value)
    && ExpiryOk(svc.jwt.decode(header).value.claims, now)
    && IssuedAtOk(svc.jwt.decode(header).value.claims, now)
    && NotBeforeOk(svc.jwt.decode(header).value.claims, now)
  }

  /** The subject a token names: its `jti` claim when that is a string. */
  function Subject(t: Token): Option<string> {
    if "jti" in t.claims && t.claims["jti"].JStr? then Some(t.claims["jti"].s) else None
  }

  /**
   * The decision of the middleware for the `Authorization` header `header`
   * at Unix time `now`. It proceeds only with an accepted token whose
   * subject is the ID of a user, and then with the first such user.
   */
  function Authorize(svc: Services, users: seq<User>, now: int, header: string): (d: Decision)
    ensures d.Reject? ==> d.status == Unauthorized
    ensures |header| == 0 <==> d == Reject(Unauthorized, NoToken)
    ensures d.Proceed? <==>
      && |header| > 0 && Accepted(svc, now, header)
      && Subject(svc.jwt.decode(header).value).Some?
      && GetUserByID(users, Subject(svc.jwt.decode(header).value).value).Ok?
    ensures |header| > 0 && !Accepted(svc, now, header) ==> d.Reject? && d.reason.CouldNotParse?
    ensures d == Panicked <==>
      |header| > 0 && Accepted(svc, now, header) && Subject(svc.jwt.decode(header).value).None?
    ensures d.Proceed? ==>
      && GetUserByID(users, d.user.id) == Ok(d.user)
      && Subject(svc.jwt.decode(header).value) == Some(d.user.id)
  {
    if |header| == 0 then Reject(Unauthorized, NoToken)
    else
      match Parse(svc.jwt, header, t => KeyFunc(svc, t), now)
      case Err(e) => Reject(Unauthorized, CouldNotParse(e))
      case Ok(t) =>
        match Subject(t)
        case None => Panicked
        case Some(id) =>
          match GetUserByID(users, id)
          case Err(_) => Reject(Unauthorized, UnknownUser)
          case Ok(u) => Proceed(u)
  }

  /** A token signed with anything but HMAC, "none" included, is refused before a key is read. */
  lemma NonHmacRejected(svc: Services, users: seq<User>, now: int, header: string)
    requires svc.jwt.decode(header).Some? && !IsHmac(svc.jwt.decode(header).value.alg)
    ensures header != [] ==>
      Authorize(svc, users, now, header) ==
        Reject(Unauthorized, CouldNotParse(Unverifiable(UnexpectedSigningMethod(svc.jwt.decode(header).value.alg))))
    ensures !Authorize(svc, users, now, header).Proceed?
  {
  }

  /** Without a readable key every non-empty token is refused with a 401. */
  lemma UnreadableKeyRejected(svc: Services, users: seq<User>, now: int, header: string)
    requires ReadSigningKey(svc).None? && header != []
    ensures Authorize(svc, users, now, header).Reject?
    ensures Authorize(svc, users, now, header).reason.CouldNotParse?
  {
  }

  /** An HMAC token whose signature does not verify under the key is refused, whatever its claims say. */
  lemma BadSignatureRejected(svc: Services, users: seq<User>, now: int, header: string)
    requires header != [] && svc.jwt.decode(header).Some? && IsHmac(svc.jwt.decode(header).value.alg)
    requires ReadSigningKey(svc).Some?
    requires !svc.jwt.verify(header, svc.jwt.decode(header).value.alg, ReadSigningKey(svc).value)
    ensures var d := Authorize(svc, users, now, header);
      d.Reject? && d.reason.CouldNotParse? && d.reason.error.Invalid? && d.reason.error.signatureInvalid
  {
  }

  /** A token whose `exp` has passed is refused, even with a valid signature. */
  lemma ExpiredRejected(svc: Services, users: seq<User>, now: int, header: string)
    requires header != [] && svc.jwt.decode(header).Some? && IsHmac(svc.jwt.decode(header).value.alg)
    requires ReadSigningKey(svc).Some?
    requires HasTime(svc.jwt.decode(header).value.claims, "exp")
    requires svc.jwt.decode(header).value.claims["exp"].n < now
    ensures var d := Authorize(svc, users, now, header);
      d.Reject? && d.reason.CouldNotParse? && d.reason.error.Invalid? && d.reason.error.expired
  {
  }

  /** An accepted token whose `jti` names no user is refused with "Could not identify the user". */
  lemma UnknownSubjectRejected(svc: Services, users: seq<User>, now: int, header: string)
    requires header != [] && Accepted(svc, now, header)
    requires Subject(svc.jwt.decode(header).value).Some?
    requires forall i | 0 <= i < |users| :: users[i].id != Subject(svc.jwt.decode(header).value).value
    ensures Authorize(svc, users, now, header) == Reject(Unauthorized, UnknownUser)
    ensures Message(Authorize(svc, users, now, header).reason) == "Could not identify the user"
  {
  }

  /** An accepted token whose `jti` is the ID of user `u`, the first with that ID, hands `u` on. */
  lemma AcceptedTokenProceeds(svc: Services, users: seq<User>, now: int, header: string, u: User)
    requires header != [] && Accepted(svc, now, header)
    requires Subject(svc.jwt.decode(header).value) == Some(u.id)
    requires GetUserByID(users, u.id) == Ok(u)
    ensures Authorize(svc, users, now, header) == Proceed(u)
  {
  }

  /** The buffalo request context, as far as the middleware touches it. */
  class Context {
    /** The values set with `c.Set`; this core only ever sets "user". */
    var values: map<string, User>
    /** How many times the wrapped handler `next` has run on this context. */
    var nextCalls: nat

    constructor ()
      ensures values == map[] && nextCalls == 0
    {
      values := map[];
      nextCalls := 0;
    }

    /** `c.Set(key, u)`. */
    method Set(key: string, u: User)
      modifies this
      ensures values == old(values)[key := u] && nextCalls == old(nextCalls)
    {
      values := values[key := u];
    }

    /** `next(c)`: the wrapped handler runs once. */
    method CallNext()
      modifies this
      ensures nextCalls == old(nextCalls) + 1 && values == old(values)
    {
      nextCalls := nextCalls + 1;
    }
  }

  /**
   * The handler returned by `RestrictedHandlerMiddleware`, run on context
   * `c`: on `Proceed(u)` it sets "user" to `u` and calls `next` once; on any
   * other decision it leaves the context alone and `next` never runs.
   */
  method RestrictedHandler(c: Context, svc: Services, users: seq<User>, now: int, header: string)
    returns (d: Decision)
    modifies c
    ensures d == Authorize(svc, users, now, header)
    ensures d.Proceed? ==> c.values == old(c.values)["user" := d.user] && c.nextCalls == old(c.nextCalls) + 1
    ensures !d.Proceed? ==> c.values == old(c.values) && c.nextCalls == old(c.nextCalls)
  {
    d := Authorize(svc, users, now, header);
    if d.Proceed? {
      c.Set("user", d.user);
      c.CallNext();
    }
  }
}
