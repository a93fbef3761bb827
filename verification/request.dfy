/** A parsed HTTP request: a plain record. */
module HttpRequest {
  import opened Wrappers
  import opened HttpMethod

  /** `headers` maps each header name to its value; `query` is the raw text
      after `?`, and is `None` when the URI has no `?`. */
  datatype Request = Request(
    path: string,
    query: Option<string>,
    httpMethod: Method,
    headers: map<string, string>)

  /** `Request::new`: stores every argument unchanged. */
  function New(httpMethod: Method, path: string, query: Option<string>, headers: map<string, string>): (r: Request)
    ensures r.path == path
    ensures r.query == query
    ensures r.httpMethod == httpMethod
    ensures r.headers.Keys == headers.Keys
    ensures forall k :: k in headers ==> r.headers[k] == headers[k]
  {
    Request(path, query, httpMethod, headers)
  }

  /** Every request is the result of `New` on its own fields. */
  lemma NewCoversEveryRequest(r: Request)
    ensures New(r.httpMethod, r.path, r.query, r.headers) == r
  {
  }

  /** An absent query stays absent: `New` never turns it into an empty string. */
  lemma AbsentQueryStaysAbsent(httpMethod: Method, path: string, headers: map<string, string>)
    ensures New(httpMethod, path, None, headers).query != Some("")
  {
  }
}
