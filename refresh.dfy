/** `AuthHandler.Refresh`: parse the submitted refresh token with the
    package-level `parseJWT`, issue a new access token for its user, and echo
    the refresh token back unchanged. */
module Refresh {
  import opened Wrappers
  import opened Http
  import opened Helpers
  import opened AuthTypes

  /** The `{"access_token", "refresh_token"}` reply. */
  datatype TokenPair = TokenPair(accessToken: string, refreshToken: string)

  /** `binding:"required"`: the body decoded and carries a non-empty token. */
  predicate RefreshBinds(refreshToken: Option<string>)
  {
    refreshToken.Some? && refreshToken.value != ""
  }

  /** `refreshToken` is the decoded `refresh_token` field (`None` when the body
      is malformed); `parse` is `jwt.ParseWithClaims`, `sign` the HS256 signer. */
  function Refresh(env: Env, sign: (string, int, string) -> Result<string, string>,
                   parse: (string, string) -> TokenParse, refreshToken: Option<string>)
    : (r: AuthRun<TokenPair>)
    ensures !RefreshBinds(refreshToken) ==> r == AuthRun([], Fail(StatusBadRequest, "invalid payload"))
    ensures RefreshBinds(refreshToken) ==> |r.steps| >= 1 && r.steps[0] == ParseToken(refreshToken.value)
    // any parse failure, a missing secret included, is the client's fault
    ensures RefreshBinds(refreshToken) && ParseJWT(env.jwtSecret, refreshToken.value, parse).Failure? ==>
              r == AuthRun([ParseToken(refreshToken.value)], Fail(StatusUnauthorized, "invalid refresh token"))
    ensures r.reply == Fail(StatusInternalServerError, "failed to create access token") ==>
              ParseJWT(env.jwtSecret, refreshToken.value, parse).Success?
    ensures RefreshBinds(refreshToken) && ParseJWT(env.jwtSecret, refreshToken.value, parse).Success? &&
            GenerateJWT(env.jwtSecret, ParseJWT(env.jwtSecret, refreshToken.value, parse).value.userID,
                        AccessTTL(env.accessTTLMinutes), sign).Failure? ==>
              r.reply == Fail(StatusInternalServerError, "failed to create access token") &&
              r.steps == [ParseToken(refreshToken.value),
                          IssueToken(ParseJWT(env.jwtSecret, refreshToken.value, parse).value.userID,
                                     AccessTTL(env.accessTTLMinutes))]
    ensures r.reply.status == StatusOK <==>
              RefreshBinds(refreshToken) && ParseJWT(env.jwtSecret, refreshToken.value, parse).Success? &&
              GenerateJWT(env.jwtSecret, ParseJWT(env.jwtSecret, refreshToken.value, parse).value.userID,
                          AccessTTL(env.accessTTLMinutes), sign).Success?
    // the new access token is for the token's subject; the refresh token comes back as sent
    ensures r.reply.status == StatusOK ==>
              var userID := ParseJWT(env.jwtSecret, refreshToken.value, parse).value.userID;
              r.steps == [ParseToken(refreshToken.value), IssueToken(userID, AccessTTL(env.accessTTLMinutes))] &&
              r.reply.body == Json(TokenPair(GenerateJWT(env.jwtSecret, userID, AccessTTL(env.accessTTLMinutes), sign).value,
                                             refreshToken.value))
  {
    if !RefreshBinds(refreshToken) then AuthRun([], Fail(StatusBadRequest, "invalid payload"))
    else
      var token := refreshToken.value;
      var steps := [ParseToken(token)];
      match ParseJWT(env.jwtSecret, token, parse)
      case Failure(_) => AuthRun(steps, Fail(StatusUnauthorized, "invalid refresh token"))
      case Success(claims) =>
        var ttl := AccessTTL(env.accessTTLMinutes);
        var steps := steps + [IssueToken(claims.userID, ttl)];
        match GenerateJWT(env.jwtSecret, claims.userID, ttl, sign)
        case Failure(_) => AuthRun(steps, Fail(StatusInternalServerError, "failed to create access token"))
        case Success(accessToken) => AuthRun(steps, Reply(StatusOK, Json(TokenPair(accessToken, token))))
  }

  /** With `JWT_SECRET` unset the reply is 401, not 500: the parse fails first. */
  lemma MissingSecretIsUnauthorized(env: Env, sign: (string, int, string) -> Result<string, string>,
                                    parse: (string, string) -> TokenParse, token: string)
    requires env.jwtSecret == "" && token != ""
    ensures Refresh(env, sign, parse, Some(token)).reply == Fail(StatusUnauthorized, "invalid refresh token")
  {
  }

  /** Whenever a refresh succeeds the pair it returns still holds the
      submitted token, so a second refresh with it parses the same claims. */
  lemma RefreshIsRepeatable(env: Env, sign: (string, int, string) -> Result<string, string>,
                            parse: (string, string) -> TokenParse, token: string)
    requires Refresh(env, sign, parse, Some(token)).reply.status == StatusOK
    ensures Refresh(env, sign, parse,
                    Some(Refresh(env, sign, parse, Some(token)).reply.body.value.refreshToken)) ==
            Refresh(env, sign, parse, Some(token))
  {
  }
}
