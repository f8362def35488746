/** The HTTP exchanges with the remote AASX registry, reduced to what the
    backend looks at: the request it sends and the response it gets back.
    The registry itself is a parameter `respond: Request -> Response` of
    every operation that talks to it; each such operation also returns the
    requests it sent, in order. */
module Http {
  import opened Json

  datatype Request =
    | GetRequest(url: string)
    | PatchRequest(url: string, body: Value)

  /** `json` is the body parsed as JSON, when it parses. */
  datatype Response =
    | Response(status: int, text: string, json: Option<Value>)
    | SendFailure(reason: string)

  /** reqwest's `StatusCode::is_success`: a 2xx status. */
  predicate IsSuccess(status: int)
  {
    200 <= status < 300
  }

  /** 204 No Content (section 15.3.5 of RFC 9110). */
  const NoContent: int := 204

  /** A response that reached the backend with a 2xx status. */
  predicate Succeeded(r: Response)
  {
    r.Response? && IsSuccess(r.status)
  }

  /** The registry answered 204 No Content, the only answer to a PATCH the
      backend takes for success. */
  predicate Accepted(r: Response)
  {
    r.Response? && r.status == NoContent
  }
}
