/** internal/handlers/types.go: the auth request payloads with their binding
    rules, and `AuthHandler` with the dependencies `NewAuthHandler` injects. */
module AuthTypes {
  import opened Wrappers
  import opened Helpers
  import opened Db
  import Http

  /** `signupReq`. */
  datatype SignupReq = SignupReq(firstName: string, lastName: string, email: string,
                                 password: string, phoneNumber: string)

  /** `loginReq`. */
  datatype LoginReq = LoginReq(email: string, password: string)

  const MinPasswordLength: nat := 8
  const MaxPasswordLength: nat := 128

  /** The `binding` tags of `signupReq`: both names and the email required,
      the email well formed (`isEmail` is the validator's `email` rule), and a
      password of 8 to 128 characters; the phone number is optional. */
  predicate SignupBinds(body: Option<SignupReq>, isEmail: string -> bool)
  {
    body.Some? &&
    body.value.firstName != "" && body.value.lastName != "" &&
    body.value.email != "" && isEmail(body.value.email) &&
    MinPasswordLength <= |body.value.password| <= MaxPasswordLength
  }

  /** The `binding` tags of `loginReq`: a well-formed email and a password. */
  predicate LoginBinds(body: Option<LoginReq>, isEmail: string -> bool)
  {
    body.Some? && body.value.email != "" && isEmail(body.value.email) && body.value.password != ""
  }

  /** The environment the package-level helpers read. */
  datatype Env = Env(jwtSecret: string, accessTTLMinutes: string, refreshTTLDays: string)

  /** `AuthHandler` without its database: the token signer, the values the
      two TTL getters return, and the token parser. */
  datatype AuthHandler = AuthHandler(
    generateJWT: (string, int) -> Result<string, string>,
    accessTTL: int,
    refreshTTL: int,
    parseJWT: string -> Result<Claims, string>)

  /** The package-level `generateJWT`, reading `JWT_SECRET` from `env`;
      `sign` is the HS256 signer. */
  function EnvGenerateJWT(env: Env, sign: (string, int, string) -> Result<string, string>)
    : (string, int) -> Result<string, string>
  {
    (userID: string, ttl: int) => GenerateJWT(env.jwtSecret, userID, ttl, sign)
  }

  /** The package-level `parseJWT`, reading `JWT_SECRET` from `env`; `parse`
      is `jwt.ParseWithClaims`. */
  function EnvParseJWT(env: Env, parse: (string, string) -> TokenParse): string -> Result<Claims, string>
  {
    (token: string) => ParseJWT(env.jwtSecret, token, parse)
  }

  /** `NewAuthHandler`: the default dependencies are the package-level helpers. */
  function NewAuthHandler(env: Env, sign: (string, int, string) -> Result<string, string>,
                          parse: (string, string) -> TokenParse): (h: AuthHandler)
    ensures h.accessTTL == AccessTTL(env.accessTTLMinutes) && h.accessTTL > 0
    ensures h.refreshTTL == RefreshTTL(env.refreshTTLDays) && h.refreshTTL > 0
    ensures forall userID, ttl :: h.generateJWT(userID, ttl) == GenerateJWT(env.jwtSecret, userID, ttl, sign)
    ensures forall token :: h.parseJWT(token) == ParseJWT(env.jwtSecret, token, parse)
  {
    AuthHandler(EnvGenerateJWT(env, sign), AccessTTL(env.accessTTLMinutes),
                RefreshTTL(env.refreshTTLDays), EnvParseJWT(env, parse))
  }

  /** With `JWT_SECRET` unset the default handler can neither sign nor parse. */
  lemma DefaultHandlerNeedsSecret(env: Env, sign: (string, int, string) -> Result<string, string>,
                                  parse: (string, string) -> TokenParse, userID: string, ttl: int, token: string)
    requires env.jwtSecret == ""
    ensures NewAuthHandler(env, sign, parse).generateJWT(userID, ttl) == Failure(SecretNotSet)
    ensures NewAuthHandler(env, sign, parse).parseJWT(token) == Failure(SecretNotSet)
  {
  }

  /** One step an auth handler takes, in order. */
  datatype AuthStep =
    | Query(statement: Statement)
    | HashPassword(password: string)
    | ComparePassword(passwordHash: string, password: string)
    | IssueToken(userID: string, ttl: int)
    | ParseToken(token: string)

  /** The steps taken and the reply written. */
  datatype AuthRun<T> = AuthRun(steps: seq<AuthStep>, reply: Http.Reply<T>)
}
