/**
 * The claims of the tokens issued by `UsersLogin` (actions/users.go:39-43,
 * 71-78) and their JSON form, which is what jwt-go signs.
 */
module Claims {
  import opened Directory
  import opened Jwt

  /** Go's `time.Duration` units, in nanoseconds. */
  const Second: int := 1_000_000_000
  const Hour: int := 3600 * Second

  /** `oneWeek()`: the token lifetime. */
  function OneWeek(): (d: int)
    ensures d == 604_800 * Second
  {
    7 * 24 * Hour
  }

  /** The token lifetime in whole seconds, as it is added to a Unix time. */
  function LifetimeSeconds(): (s: int)
    ensures s * Second == OneWeek()
  {
    OneWeek() / Second
  }

  /** `jwt.StandardClaims`; unset fields hold "" or 0. */
  datatype StandardClaims = StandardClaims(
    audience: string, expiresAt: int, id: string, issuedAt: int,
    issuer: string, notBefore: int, subject: string)

  /** `CustomClaims`: the user embedded next to the standard claims. */
  datatype CustomClaims = CustomClaims(user: User, standard: StandardClaims)

  /** The issuer of every token: `fmt.Sprintf("%s.api.go-with-jwt.it", goEnv)`. */
  function Issuer(goEnv: string): string {
    goEnv + ".api.go-with-jwt.it"
  }

  /**
   * The claims built for user `u` at Unix time `now`: the user, `exp` one
   * week after `now`, the issuer, and the user's ID as the token ID (`jti`);
   * no subject, audience, issued-at or not-before is set.
   */
  function NewClaims(u: User, now: int, goEnv: string): (c: CustomClaims)
    ensures c.user == u && c.standard.id == c.user.id
    ensures (c.standard.expiresAt - now) * Second == OneWeek()
    ensures c.standard.subject == "" && c.standard.audience == ""
    ensures c.standard.issuedAt == 0 && c.standard.notBefore == 0
  {
    CustomClaims(u, StandardClaims("", now + LifetimeSeconds(), u.id, 0, Issuer(goEnv), 0, ""))
  }

  /** The JSON of a `User`: `Password` carries the tag `json:"-"`, so it is never written. */
  function UserJson(u: User): (j: Json)
    ensures j.JObj? && j.fields.Keys == {"id", "email"}
    ensures j.fields["id"] == JStr(u.id) && j.fields["email"] == JStr(u.email)
  {
    JObj(map["id" := JStr(u.id), "email" := JStr(u.email)])
  }

  /** A string field tagged `omitempty`. */
  function StrField(name: string, v: string): map<string, Json> {
    if v == "" then map[] else map[name := JStr(v)]
  }

  /** A number field tagged `omitempty`. */
  function NumField(name: string, v: int): map<string, Json> {
    if v == 0 then map[] else map[name := JNum(v)]
  }

  /**
   * The JSON object of `CustomClaims`: the fields of the embedded
   * `StandardClaims` are promoted next to "user", each omitted when empty.
   */
  function Payload(c: CustomClaims): map<string, Json> {
    map["user" := UserJson(c.user)]
      + StrField("aud", c.standard.audience)
      + NumField("exp", c.standard.expiresAt)
      + StrField("jti", c.standard.id)
      + NumField("iat", c.standard.issuedAt)
      + StrField("iss", c.standard.issuer)
      + NumField("nbf", c.standard.notBefore)
      + StrField("sub", c.standard.subject)
  }

  /** The password hash never reaches the token: the payload is the same whatever it is. */
  lemma PayloadHidesPassword(c: CustomClaims, hash: string)
    ensures Payload(c.(user := c.user.(password := hash))) == Payload(c)
  {
  }

  /**
   * The wire shape of an issued token's claims: the user's ID and email
   * under "user", the ID again as `jti` (not `sub`), `exp` one week after
   * `now`, the issuer, and nothing else. An empty ID drops `jti`, and an
   * `exp` of 0 drops `exp`, because both fields are `omitempty`.
   */
  lemma IssuedPayloadShape(u: User, now: int, goEnv: string)
    ensures var m := Payload(NewClaims(u, now, goEnv));
      && m["user"] == UserJson(u)
      && ("jti" in m <==> u.id != "") && (u.id != "" ==> m["jti"] == JStr(u.id))
      && ("exp" in m <==> now + 604_800 != 0) && ("exp" in m ==> m["exp"] == JNum(now + 604_800))
      && m["iss"] == JStr(Issuer(goEnv))
      && "sub" !in m && "aud" !in m && "iat" !in m && "nbf" !in m
      && m.Keys <= {"user", "jti", "exp", "iss"}
  {
  }
}
