/** The response a handler produces: a status and an optional body. */
module HttpResponse {
  import opened Wrappers

  /** The statuses the static-file handler answers with. */
  datatype StatusCode = Ok | NotFound

  datatype Response = Response(status: StatusCode, body: Option<string>)
}
