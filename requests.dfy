/** The parts of an HTTP exchange that the mirror middleware looks at. */
module Requests {

  /** The parts of a request URL that the mirror reads or rewrites. */
  datatype Url = Url(scheme: string, host: string, path: string, rawQuery: string)

  /**
   * An inbound request; only the fields the middleware and its key extractor
   * can read. `host` is the Host header, `url` the request target.
   */
  datatype Request = Request(
    verb: string,
    url: Url,
    remoteAddr: string,
    host: string,
    headers: map<string, string>)

  /** What the next handler writes to the original caller. */
  datatype Response = Response(status: int, headers: map<string, string>, body: string)

  /**
   * Outcome of a key extractor (`utils.SourceExtractor.Extract`): the token a
   * request is counted under and the amount it adds, or the extractor's error.
   * The extractor itself is foreign code and appears in the model only as a
   * function value `Request -> Extraction`.
   */
  datatype Extraction =
    | Extracted(token: string, amount: int)
    | ExtractionFailed(reason: string)
}
