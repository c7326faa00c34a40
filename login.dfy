/** `AuthHandler.Login`: look the user up by email, check the password, then
    issue an access token and a refresh token through the handler's injected
    dependencies. */
module Login {
  import opened Wrappers
  import opened Http
  import opened Models
  import opened Db
  import opened AuthTypes

  /** Why the user lookup failed: no row (`sql.ErrNoRows`) or anything else. */
  datatype LookupError = NoRows | LookupFailed(detail: string)

  /** The row the lookup returns: the user and its stored bcrypt hash. */
  datatype UserRecord = UserRecord(user: User, passwordHash: string)

  /** `body` is the decoded request (`None` when malformed) and `bindError` the
      binder's error text; `isEmail` is the email validator; `lookup` is the
      SELECT's outcome; `compare(hash, password)` is whether
      `bcrypt.CompareHashAndPassword` accepts. */
  function Login(h: AuthHandler, body: Option<LoginReq>, bindError: string, isEmail: string -> bool,
                 lookup: Result<UserRecord, LookupError>, compare: (string, string) -> bool)
    : (r: AuthRun<AuthWithTokens>)
    // an unbindable body is rejected before anything else happens
    ensures !LoginBinds(body, isEmail) ==>
              r == AuthRun([], FailWith(StatusBadRequest, "invalid payload", bindError))
    ensures LoginBinds(body, isEmail) ==>
              |r.steps| >= 1 && r.steps[0] == Query(UserByEmail(body.value.email))
    // lookup errors
    ensures LoginBinds(body, isEmail) && lookup == Failure(NoRows) ==>
              r.reply == Fail(StatusUnauthorized, "invalid credentials") && |r.steps| == 1
    ensures LoginBinds(body, isEmail) && lookup.Failure? && lookup.error.LookupFailed? ==>
              r.reply == Fail(StatusInternalServerError, "db error") && |r.steps| == 1
    // a wrong password
    ensures LoginBinds(body, isEmail) && lookup.Success? &&
            !compare(lookup.value.passwordHash, body.value.password) ==>
              r.reply == Fail(StatusUnauthorized, "invalid credentials")
    // tokens: access first, refresh only after it
    ensures LoginBinds(body, isEmail) && lookup.Success? && compare(lookup.value.passwordHash, body.value.password) &&
            h.generateJWT(lookup.value.user.id, h.accessTTL).Failure? ==>
              r.reply == Fail(StatusInternalServerError, "failed to create access token") && |r.steps| == 3
    ensures LoginBinds(body, isEmail) && lookup.Success? && compare(lookup.value.passwordHash, body.value.password) &&
            h.generateJWT(lookup.value.user.id, h.accessTTL).Success? &&
            h.generateJWT(lookup.value.user.id, h.refreshTTL).Failure? ==>
              r.reply == Fail(StatusInternalServerError, "failed to create refresh token") && |r.steps| == 4
    ensures r.reply == Fail(StatusInternalServerError, "failed to create refresh token") ==>
              |r.steps| == 4 && r.steps[2] == IssueToken(lookup.value.user.id, h.accessTTL) &&
              h.generateJWT(lookup.value.user.id, h.accessTTL).Success?
    ensures r.reply.status == StatusOK <==>
              LoginBinds(body, isEmail) && lookup.Success? &&
              compare(lookup.value.passwordHash, body.value.password) &&
              h.generateJWT(lookup.value.user.id, h.accessTTL).Success? &&
              h.generateJWT(lookup.value.user.id, h.refreshTTL).Success?
    ensures r.reply.status == StatusOK ==>
              r.steps == [Query(UserByEmail(body.value.email)),
                          ComparePassword(lookup.value.passwordHash, body.value.password),
                          IssueToken(lookup.value.user.id, h.accessTTL),
                          IssueToken(lookup.value.user.id, h.refreshTTL)] &&
              r.reply.body == Json(AuthWithTokens(lookup.value.user,
                                                  h.generateJWT(lookup.value.user.id, h.accessTTL).value,
                                                  h.generateJWT(lookup.value.user.id, h.refreshTTL).value))
  {
    if !LoginBinds(body, isEmail) then AuthRun([], FailWith(StatusBadRequest, "invalid payload", bindError))
    else
      var req := body.value;
      var steps := [Query(UserByEmail(req.email))];
      match lookup
      case Failure(NoRows) => AuthRun(steps, Fail(StatusUnauthorized, "invalid credentials"))
      case Failure(LookupFailed(_)) => AuthRun(steps, Fail(StatusInternalServerError, "db error"))
      case Success(record) =>
        var steps := steps + [ComparePassword(record.passwordHash, req.password)];
        if !compare(record.passwordHash, req.password) then
          AuthRun(steps, Fail(StatusUnauthorized, "invalid credentials"))
        else
          var user := record.user;
          var steps := steps + [IssueToken(user.id, h.accessTTL)];
          match h.generateJWT(user.id, h.accessTTL)
          case Failure(_) => AuthRun(steps, Fail(StatusInternalServerError, "failed to create access token"))
          case Success(accessToken) =>
            var steps := steps + [IssueToken(user.id, h.refreshTTL)];
            match h.generateJWT(user.id, h.refreshTTL)
            case Failure(_) => AuthRun(steps, Fail(StatusInternalServerError, "failed to create refresh token"))
            case Success(refreshToken) =>
              AuthRun(steps, Reply(StatusOK, Json(AuthWithTokens(user, accessToken, refreshToken))))
  }

  /** An unknown email and a wrong password for a known one are answered
      alike, and neither issues a token. */
  lemma UnknownEmailLooksLikeWrongPassword(h: AuthHandler, body: Option<LoginReq>, bindError: string,
                                           isEmail: string -> bool, record: UserRecord,
                                           compare: (string, string) -> bool)
    requires LoginBinds(body, isEmail) && !compare(record.passwordHash, body.value.password)
    ensures Login(h, body, bindError, isEmail, Failure(NoRows), compare).reply ==
            Login(h, body, bindError, isEmail, Success(record), compare).reply
    ensures forall s :: s in Login(h, body, bindError, isEmail, Success(record), compare).steps ==> !s.IssueToken?
  {
  }

  /** When the access token cannot be made, no refresh token is attempted. */
  lemma AccessFailureStopsBeforeRefresh(h: AuthHandler, body: Option<LoginReq>, bindError: string,
                                        isEmail: string -> bool, record: UserRecord,
                                        compare: (string, string) -> bool)
    requires LoginBinds(body, isEmail) && compare(record.passwordHash, body.value.password)
    requires h.generateJWT(record.user.id, h.accessTTL).Failure?
    ensures Login(h, body, bindError, isEmail, Success(record), compare).reply ==
            Fail(StatusInternalServerError, "failed to create access token")
    ensures Login(h, body, bindError, isEmail, Success(record), compare).steps ==
            [Query(UserByEmail(body.value.email)), ComparePassword(record.passwordHash, body.value.password),
             IssueToken(record.user.id, h.accessTTL)]
  {
  }
}
