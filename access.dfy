/**
 * The `authenticate` middleware of middleware/auth.js: the `x-api-key`
 * header against the configured `API_KEY`, both possibly unset. It runs
 * before any route, so a refusal never reaches the store.
 */
module Access {
  import opened Values

  datatype Decision = Admit | Forbidden(status: int, text: string)

  /** `apiKey !== process.env.API_KEY`, with an unset value as `None` (`undefined`). */
  function Authenticate(header: Option<string>, secret: Option<string>): (d: Decision)
    ensures d.Forbidden? ==> d == Forbidden(403, "Forbidden: Invalid API Key")
  {
    if header != secret then Forbidden(403, "Forbidden: Invalid API Key") else Admit
  }

  /** With a configured key, exactly the requests carrying that key are admitted. */
  lemma AdmitsExactlyTheKey(header: Option<string>, key: string)
    ensures Authenticate(header, Some(key)).Admit? <==> header == Some(key)
  {
  }

  /** With no key configured, a request without the header is admitted. */
  lemma UnsetKeyAdmitsMissingHeader()
    ensures Authenticate(None, None) == Admit
    ensures forall k :: Authenticate(Some(k), None).Forbidden?
  {
  }
}
