/** The API-key middleware of the REST server: each request either goes on
    to its handler or is aborted with a 401 and an error message. */
module Auth {
  import opened Common

  const ApiKeyHeader := "X-API-Key"
  const SwaggerPrefix := "/swagger/"
  const Unauthorized := 401
  const MissingApiKey := "Missing API Key"
  const WrongApiKey := "Wrong API Key"

  datatype Decision = Next | Abort(status: int, error: string)

  /** `APIKeyMiddleware(apiKey)` on a request for `path` whose `X-API-Key`
      header is `header` ("" when it is missing or empty). A request passes
      exactly when it asks for the documentation or carries the key; every
      refusal is a 401. */
  function Check(apiKey: string, path: string, header: string): (d: Decision)
    ensures d == Next <==> StartsWith(path, SwaggerPrefix) || (header != "" && header == apiKey)
    ensures d.Abort? ==> d.status == Unauthorized
  {
    if StartsWith(path, SwaggerPrefix) then Next
    else if header == "" then Abort(Unauthorized, MissingApiKey)
    else if header != apiKey then Abort(Unauthorized, WrongApiKey)
    else Next
  }

  /** The documentation is public whatever the headers. */
  lemma SwaggerIsPublic(apiKey: string, path: string, header: string, other: string)
    requires StartsWith(path, SwaggerPrefix)
    ensures Check(apiKey, path, header) == Check(apiKey, path, other) == Next
  {
  }

  /** A missing header is reported as missing before it is compared, so even
      an empty key does not let a request without the header through. */
  lemma MissingBeforeWrong(apiKey: string, path: string, header: string)
    requires !StartsWith(path, SwaggerPrefix)
    ensures header == "" ==> Check(apiKey, path, header) == Abort(Unauthorized, MissingApiKey)
    ensures header != "" && header != apiKey ==> Check(apiKey, path, header) == Abort(Unauthorized, WrongApiKey)
    ensures Check("", path, header).Abort?
  {
  }
}
