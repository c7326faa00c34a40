/** `JWTAuthMiddleware`: require an `Authorization: Bearer <token>` header,
    refuse to run without `JWT_SECRET`, and let the request through, storing
    the token's user id, only when the token parses and is valid. */
module JwtAuth {
  import opened Wrappers
  import opened Http
  import opened GoStrings
  import opened Helpers

  const BearerScheme: string := "bearer"

  /** The token the header carries, if it has the `Bearer <token>` form: the
      part before the first space is "Bearer" in any letter case, and the
      token is everything after that space. */
  function BearerToken(header: string): (token: Option<string>)
    ensures token.Some? <==> ' ' in header && EqualFoldAscii(SplitFirstSpace(header)[0], BearerScheme)
    ensures token.Some? ==> exists scheme :: EqualFoldAscii(scheme, BearerScheme) && header == scheme + " " + token.value
  {
    var parts := SplitFirstSpace(header);
    if |parts| != 2 || !EqualFoldAscii(parts[0], BearerScheme) then None else Some(parts[1])
  }

  /** `header` is the Authorization header, `secret` is `JWT_SECRET` and
      `parse` is `jwt.ParseWithClaims` of (token, secret). `Proceed(id)` is
      `c.Set("user_id", id)` followed by `c.Next()`; every `Abort` has written
      its error reply. */
  function JWTAuth(header: string, secret: string, parse: (string, string) -> TokenParse): (v: Verdict<string>)
    ensures header == "" ==> v == Abort(StatusUnauthorized, "authorization header required")
    ensures header != "" && BearerToken(header).None? ==> v == Abort(StatusUnauthorized, "invalid authorization header")
    // the secret is looked at only once the header has the right form
    ensures BearerToken(header).Some? && secret == "" ==> v == Abort(StatusInternalServerError, "server misconfigured")
    ensures BearerToken(header).Some? && secret != "" && !parse(BearerToken(header).value, secret).Parsed? ==>
              v == Abort(StatusUnauthorized, "invalid or expired token")
    ensures BearerToken(header).Some? && secret != "" && parse(BearerToken(header).value, secret).Parsed? &&
            !parse(BearerToken(header).value, secret).valid ==>
              v == Abort(StatusUnauthorized, "invalid or expired token")
    ensures BearerToken(header).Some? && secret != "" && parse(BearerToken(header).value, secret) == Parsed(None, true) ==>
              v == Abort(StatusUnauthorized, "invalid token claims")
    ensures v.Proceed? <==>
              BearerToken(header).Some? && secret != "" &&
              parse(BearerToken(header).value, secret).Parsed? && parse(BearerToken(header).value, secret).valid &&
              parse(BearerToken(header).value, secret).claims.Some?
    ensures v.Proceed? ==> parse(BearerToken(header).value, secret).claims == Some(Claims(v.value))
  {
    if header == "" then Abort(StatusUnauthorized, "authorization header required")
    else
      match BearerToken(header)
      case None => Abort(StatusUnauthorized, "invalid authorization header")
      case Some(token) =>
        if secret == "" then Abort(StatusInternalServerError, "server misconfigured")
        else
          match parse(token, secret)
          case ParseFailed(_) => Abort(StatusUnauthorized, "invalid or expired token")
          case Parsed(claims, valid) =>
            if !valid then Abort(StatusUnauthorized, "invalid or expired token")
            else if claims.None? then Abort(StatusUnauthorized, "invalid token claims")
            else Proceed(claims.value.userID)
  }

  /** Whatever follows the first space is the token, spaces and all, and the
      scheme may be written in any letter case. */
  lemma TokenIsRestOfHeader(scheme: string, token: string)
    requires EqualFoldAscii(scheme, BearerScheme)
    ensures BearerToken(scheme + " " + token) == Some(token)
  {
    assert ' ' !in scheme by {
      forall i | 0 <= i < |scheme| ensures scheme[i] != ' ' {
        assert ToLowerAscii(scheme[i]) == BearerScheme[i];
      }
    }
    SplitJoin(scheme, token);
  }

  /** The middleware lets a request through exactly when the handlers'
      `parseJWT` would accept its bearer token, and stores that token's user. */
  lemma AgreesWithParseJWT(header: string, secret: string, parse: (string, string) -> TokenParse)
    requires BearerToken(header).Some?
    ensures JWTAuth(header, secret, parse).Proceed? <==> ParseJWT(secret, BearerToken(header).value, parse).Success?
    ensures JWTAuth(header, secret, parse).Proceed? ==>
              JWTAuth(header, secret, parse).value == ParseJWT(secret, BearerToken(header).value, parse).value.userID
  {
  }

  /** A header with no space, such as a bare token, is refused before the
      token is parsed, even when `JWT_SECRET` is unset. */
  lemma BareTokenRefused(header: string, secret: string, parse: (string, string) -> TokenParse)
    requires header != "" && ' ' !in header
    ensures JWTAuth(header, secret, parse) == Abort(StatusUnauthorized, "invalid authorization header")
  {
  }

  lemma MixedCaseSchemeAccepted(token: string)
    ensures BearerToken("bEaReR " + token) == Some(token)
  {
    var scheme := "bEaReR";
    assert ToLowerAscii('E') == 'e' && ToLowerAscii('R') == 'r';
    assert forall i :: 0 <= i < |scheme| ==> ToLowerAscii(scheme[i]) == BearerScheme[i];
    TokenIsRestOfHeader(scheme, token);
    assert "bEaReR " + token == scheme + " " + token;
  }
}
