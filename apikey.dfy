/** `APIKeyAuthMiddleware`: the `X-API-Key` header must be present and equal
    the configured key. */
module ApiKey {
  import opened Http

  /** `clientKey` is the `X-API-Key` header ("" when missing) and `apiKey` the
      key the middleware was built with. */
  function APIKeyAuth(clientKey: string, apiKey: string): (v: Verdict<()>)
    ensures v.Proceed? <==> clientKey != "" && clientKey == apiKey
    ensures v.Abort? ==> v == Abort(StatusUnauthorized, "invalid API key")
  {
    if clientKey == "" || clientKey != apiKey then Abort(StatusUnauthorized, "invalid API key")
    else Proceed(())
  }

  /** Built with an empty key, the middleware refuses every request. */
  lemma EmptyKeyRejectsAll(clientKey: string)
    ensures APIKeyAuth(clientKey, "") == Abort(StatusUnauthorized, "invalid API key")
  {
  }

  /** With a configured key, the configured key is the only one admitted. */
  lemma OnlyConfiguredKeyAdmitted(apiKey: string, clientKey: string)
    requires apiKey != ""
    ensures APIKeyAuth(apiKey, apiKey).Proceed?
    ensures APIKeyAuth(clientKey, apiKey).Proceed? ==> clientKey == apiKey
  {
  }
}
