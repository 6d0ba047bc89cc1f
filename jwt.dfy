/**
 * The part of jwt-go (github.com/dgrijalva/jwt-go, v3) that actions/users.go
 * relies on, reduced to what decides acceptance. Serialisation, base64url and
 * the MAC computation are foreign code and appear only as the three functions
 * of a `Codec`; the order in which `jwt.Parse` consults them, the key
 * callback and the time checks of `MapClaims.Valid` are modelled.
 */
module Jwt {
  import opened Wrappers

  /** The JSON values that occur in the claims of this system. */
  datatype Json = JNum(n: int) | JStr(s: string) | JObj(fields: map<string, Json>)

  /** Key material, as read from the key file. */
  type Key = seq<bv8>

  /** The `alg` header values jwt-go knows; `Unsigned` is "none". */
  datatype Alg =
    | HS256 | HS384 | HS512
    | RS256 | RS384 | RS512
    | ES256 | ES384 | ES512
    | PS256 | PS384 | PS512
    | Unsigned

  /** The methods implemented by `*jwt.SigningMethodHMAC`. */
  predicate IsHmac(a: Alg) {
    a.HS256? || a.HS384? || a.HS512?
  }

  /** A token: its header's algorithm and its claims as a JSON object. */
  datatype Token = Token(alg: Alg, claims: map<string, Json>)

  /**
   * The foreign half of jwt-go: `Token.SignedString` (`sign`), the structural
   * parse of a compact token (`decode`), and `Method.Verify` on a token
   * string (`verify`).
   */
  datatype Codec = Codec(
    sign: (Token, Key) -> Option<string>,
    decode: string -> Option<Token>,
    verify: (string, Alg, Key) -> bool)

  /**
   * What the model assumes of the codec: a string it signed is not empty,
   * decodes back to the token it signed and verifies under the same key.
   */
  ghost predicate Lawful(c: Codec) {
    forall t, k | c.sign(t, k).Some? ::
      && c.sign(t, k).value != []
      && c.decode(c.sign(t, k).value) == Some(t)
      && c.verify(c.sign(t, k).value, t.alg, k)
  }

  /** A numeric claim that `MapClaims` treats as present (absent, non-numeric and 0 all count as unset). */
  predicate HasTime(claims: map<string, Json>, name: string) {
    name in claims && claims[name].JNum? && claims[name].n != 0
  }

  /** `VerifyExpiresAt(now, false)`: an `exp` that is set must not be before `now`. */
  predicate ExpiryOk(claims: map<string, Json>, now: int) {
    HasTime(claims, "exp") ==> now <= claims["exp"].n
  }

  /** `VerifyIssuedAt(now, false)`: an `iat` that is set must not be after `now`. */
  predicate IssuedAtOk(claims: map<string, Json>, now: int) {
    HasTime(claims, "iat") ==> claims["iat"].n <= now
  }

  /** `VerifyNotBefore(now, false)`: an `nbf` that is set must not be after `now`. */
  predicate NotBeforeOk(claims: map<string, Json>, now: int) {
    HasTime(claims, "nbf") ==> claims["nbf"].n <= now
  }

  /** Why `jwt.Parse` returned an error; `E` is the error type of the key callback. */
  datatype ParseError<+E> =
    | Malformed
    | Unverifiable(cause: E)
    | Invalid(expired: bool, issuedInFuture: bool, notYetValid: bool, signatureInvalid: bool)

  /**
   * `jwt.Parse(s, keyFunc)` with `MapClaims`: decode, ask the key callback
   * for a key (its error aborts the parse), then check the time claims and
   * the signature; a token is returned only when all of them pass.
   */
  function Parse<E>(c: Codec, s: string, keyFunc: Token -> Result<Key, E>, now: int): (r: Result<Token, ParseError<E>>)
    ensures r.Ok? <==>
      && c.decode(s).Some?
      && keyFunc(c.decode(s).value).Ok?
      && c.verify(s, c.decode(s).value.alg, keyFunc(c.decode(s).value).value)
      && ExpiryOk(c.decode(s).value.claims, now)
      && IssuedAtOk(c.decode(s).value.claims, now)
      && NotBeforeOk(c.decode(s).value.claims, now)
    ensures r.Ok? ==> Some(r.value) == c.decode(s)
    ensures r.Err? && r.error.Invalid? ==>
      && c.decode(s).Some?
      && keyFunc(c.decode(s).value).Ok?
      && (r.error.expired <==> !ExpiryOk(c.decode(s).value.claims, now))
      && (r.error.signatureInvalid <==> !c.verify(s, c.decode(s).value.alg, keyFunc(c.decode(s).value).value))
  {
    match c.decode(s)
    case None => Err(Malformed)
    case Some(t) =>
      match keyFunc(t)
      case Err(e) => Err(Unverifiable(e))
      case Ok(key) =>
        var expired := !ExpiryOk(t.claims, now);
        var early := !IssuedAtOk(t.claims, now);
        var notYet := !NotBeforeOk(t.claims, now);
        var badSig := !c.verify(s, t.alg, key);
        if expired || early || notYet || badSig then Err(Invalid(expired, early, notYet, badSig))
        else Ok(t)
  }
}
