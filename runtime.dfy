/**
 * Everything the handlers of actions/users.go take from outside the
 * process: bcrypt, the email-format check of checkmail, jwt-go, the
 * environment read through envy, and the key file read through ioutil.
 */
module Runtime {
  import opened Wrappers
  import opened Passwords
  import opened Jwt

  /**
   * `checkFormat(e)` stands for `checkmail.ValidateFormat(e) == nil`;
   * `vars` is the environment as envy sees it; `readFile(path)` is
   * `ioutil.ReadFile(path)`, `None` when it fails.
   */
  datatype Services = Services(
    hasher: Hasher,
    checkFormat: string -> bool,
    jwt: Codec,
    vars: map<string, string>,
    readFile: string -> Option<Key>)

  const BadRequest: int := 400
  const Unauthorized: int := 401
  const InternalServerError: int := 500

  /** `envy.Get(name, fallback)`: the variable when it is set (even to ""), else the fallback. */
  function EnvGet(vars: map<string, string>, name: string, fallback: string): string {
    if name in vars then vars[name] else fallback
  }

  /** `envy.Get("GO_ENV", "development")`. */
  function GoEnv(svc: Services): string {
    EnvGet(svc.vars, "GO_ENV", "development")
  }

  /** `ioutil.ReadFile(envy.Get("JWT_KEY_PATH", ""))`, done afresh by login and by every protected request. */
  function ReadSigningKey(svc: Services): Option<Key> {
    svc.readFile(EnvGet(svc.vars, "JWT_KEY_PATH", ""))
  }
}
