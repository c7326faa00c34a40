/** `AuthHandler.Signup`: validate, hash the password, insert the user
    (mapping a unique violation to 409), then issue an access and a refresh
    token with the package-level helpers and answer 201 with the new account. */
module Signup {
  import opened Wrappers
  import opened Http
  import opened Models
  import opened Db
  import opened Helpers
  import opened AuthTypes

  /** Postgres' `unique_violation` SQLSTATE. */
  const UniqueViolation: string := "23505"

  /** How the INSERT failed: a `*pgconn.PgError` with its SQLSTATE, or another
      error; `text` is `err.Error()`. */
  datatype InsertError = PgError(code: string, text: string) | OtherError(text: string)

  /** The columns the INSERT returns. */
  datatype Inserted = Inserted(id: string, createdAt: string)

  function ErrorText(e: InsertError): string
  {
    match e
    case PgError(_, text) => text
    case OtherError(text) => text
  }

  /** The account in the response: the request's fields with the id and
      timestamp the database assigned. */
  function NewUser(req: SignupReq, row: Inserted): (u: User)
    ensures u.id == row.id && u.createdAt == row.createdAt
    ensures u.firstName == req.firstName && u.lastName == req.lastName
    ensures u.email == req.email && u.phoneNumber == req.phoneNumber
  {
    User(row.id, req.firstName, req.lastName, req.email, req.phoneNumber, row.createdAt)
  }

  /** `body`/`bindError`/`isEmail` as in Login; `hash` is the outcome of
      `bcrypt.GenerateFromPassword`; `insert` the INSERT's outcome; `sign` the
      HS256 signer behind `generateJWT`. */
  function Signup(env: Env, sign: (string, int, string) -> Result<string, string>,
                  body: Option<SignupReq>, bindError: string, isEmail: string -> bool,
                  hash: Result<string, string>, insert: Result<Inserted, InsertError>)
    : (r: AuthRun<AuthWithTokens>)
    // validation comes before hashing
    ensures !SignupBinds(body, isEmail) ==>
              r == AuthRun([], FailWith(StatusBadRequest, "invalid payload", bindError))
    ensures SignupBinds(body, isEmail) ==> |r.steps| >= 1 && r.steps[0] == HashPassword(body.value.password)
    // a failed hash inserts nothing
    ensures SignupBinds(body, isEmail) && hash.Failure? ==>
              r == AuthRun([HashPassword(body.value.password)],
                           Fail(StatusInternalServerError, "failed to hash password"))
    ensures SignupBinds(body, isEmail) && hash.Success? ==>
              |r.steps| >= 2 &&
              r.steps[1] == Query(InsertUser(body.value.firstName, body.value.lastName, body.value.email,
                                             hash.value, body.value.phoneNumber))
    // insert errors: only a unique violation is a conflict
    ensures r.reply.status == StatusConflict <==>
              SignupBinds(body, isEmail) && hash.Success? && insert.Failure? &&
              insert.error.PgError? && insert.error.code == UniqueViolation
    ensures r.reply.status == StatusConflict ==> r.reply == Fail(StatusConflict, "email already exists")
    ensures SignupBinds(body, isEmail) && hash.Success? && insert.Failure? &&
            !(insert.error.PgError? && insert.error.code == UniqueViolation) ==>
              r.reply == FailWith(StatusInternalServerError, "db error", ErrorText(insert.error))
    // tokens, after the account is inserted: access first, refresh only after it
    ensures SignupBinds(body, isEmail) && hash.Success? && insert.Success? &&
            GenerateJWT(env.jwtSecret, insert.value.id, AccessTTL(env.accessTTLMinutes), sign).Failure? ==>
              r.reply == Fail(StatusInternalServerError, "failed to create access token") && |r.steps| == 3
    ensures SignupBinds(body, isEmail) && hash.Success? && insert.Success? &&
            GenerateJWT(env.jwtSecret, insert.value.id, AccessTTL(env.accessTTLMinutes), sign).Success? &&
            GenerateJWT(env.jwtSecret, insert.value.id, RefreshTTL(env.refreshTTLDays), sign).Failure? ==>
              r.reply == Fail(StatusInternalServerError, "failed to create refresh token") && |r.steps| == 4
    ensures r.reply == Fail(StatusInternalServerError, "failed to create refresh token") ==>
              GenerateJWT(env.jwtSecret, insert.value.id, AccessTTL(env.accessTTLMinutes), sign).Success?
    ensures r.reply.status == StatusCreated <==>
              SignupBinds(body, isEmail) && hash.Success? && insert.Success? &&
              GenerateJWT(env.jwtSecret, insert.value.id, AccessTTL(env.accessTTLMinutes), sign).Success? &&
              GenerateJWT(env.jwtSecret, insert.value.id, RefreshTTL(env.refreshTTLDays), sign).Success?
    ensures r.reply.status == StatusCreated ==>
              r.steps[2..] == [IssueToken(insert.value.id, AccessTTL(env.accessTTLMinutes)),
                               IssueToken(insert.value.id, RefreshTTL(env.refreshTTLDays))] &&
              r.reply.body.Json? && r.reply.body.value.user == NewUser(body.value, insert.value) &&
              r.reply.body.value.accessToken ==
                GenerateJWT(env.jwtSecret, insert.value.id, AccessTTL(env.accessTTLMinutes), sign).value &&
              r.reply.body.value.refreshToken ==
                GenerateJWT(env.jwtSecret, insert.value.id, RefreshTTL(env.refreshTTLDays), sign).value
  {
    if !SignupBinds(body, isEmail) then AuthRun([], FailWith(StatusBadRequest, "invalid payload", bindError))
    else
      var req := body.value;
      var steps := [HashPassword(req.password)];
      match hash
      case Failure(_) => AuthRun(steps, Fail(StatusInternalServerError, "failed to hash password"))
      case Success(passwordHash) =>
        var steps := steps + [Query(InsertUser(req.firstName, req.lastName, req.email,
                                               passwordHash, req.phoneNumber))];
        match insert
        case Failure(e) =>
          if e.PgError? && e.code == UniqueViolation then
            AuthRun(steps, Fail(StatusConflict, "email already exists"))
          else
            AuthRun(steps, FailWith(StatusInternalServerError, "db error", ErrorText(e)))
        case Success(row) =>
          var accessTTL := AccessTTL(env.accessTTLMinutes);
          var steps := steps + [IssueToken(row.id, accessTTL)];
          match GenerateJWT(env.jwtSecret, row.id, accessTTL, sign)
          case Failure(_) => AuthRun(steps, Fail(StatusInternalServerError, "failed to create access token"))
          case Success(accessToken) =>
            var refreshTTL := RefreshTTL(env.refreshTTLDays);
            var steps := steps + [IssueToken(row.id, refreshTTL)];
            match GenerateJWT(env.jwtSecret, row.id, refreshTTL, sign)
            case Failure(_) => AuthRun(steps, Fail(StatusInternalServerError, "failed to create refresh token"))
            case Success(refreshToken) =>
              AuthRun(steps, Reply(StatusCreated, Json(AuthWithTokens(NewUser(req, row), accessToken, refreshToken))))
  }

  /** With `JWT_SECRET` unset a new account is still inserted, but the reply
      is 500 and no token is handed out. */
  lemma MissingSecretAfterInsert(env: Env, sign: (string, int, string) -> Result<string, string>,
                                 req: SignupReq, bindError: string, isEmail: string -> bool,
                                 passwordHash: string, row: Inserted)
    requires env.jwtSecret == "" && SignupBinds(Some(req), isEmail)
    ensures Query(InsertUser(req.firstName, req.lastName, req.email, passwordHash, req.phoneNumber)) in
            Signup(env, sign, Some(req), bindError, isEmail, Success(passwordHash), Success(row)).steps
    ensures Signup(env, sign, Some(req), bindError, isEmail, Success(passwordHash), Success(row)).reply ==
            Fail(StatusInternalServerError, "failed to create access token")
  {
    var r := Signup(env, sign, Some(req), bindError, isEmail, Success(passwordHash), Success(row));
    assert r.steps[1] == Query(InsertUser(req.firstName, req.lastName, req.email, passwordHash, req.phoneNumber));
  }

  /** A password of 7 or 129 characters is refused before it is hashed. */
  lemma PasswordLengthBounds(env: Env, sign: (string, int, string) -> Result<string, string>,
                             req: SignupReq, bindError: string, isEmail: string -> bool,
                             hash: Result<string, string>, insert: Result<Inserted, InsertError>)
    requires |req.password| < MinPasswordLength || |req.password| > MaxPasswordLength
    ensures Signup(env, sign, Some(req), bindError, isEmail, hash, insert).steps == []
    ensures Signup(env, sign, Some(req), bindError, isEmail, hash, insert).reply.status == StatusBadRequest
  {
  }
}
