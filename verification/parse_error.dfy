/** The errors a request parse can report, and the messages they print. */
module HttpParseError {
  import HttpMethod

  datatype ParseError = InvalidRequest | InvalidEncoding | InvalidProtocol | InvalidMethod

  const InvalidPrefix: string := "Invalid "

  /** The `Display` text of a parse error. Every message names what was invalid. */
  function Message(e: ParseError): (r: string)
    ensures |InvalidPrefix| < |r| && r[..|InvalidPrefix|] == InvalidPrefix
  {
    match e
    case InvalidRequest => "Invalid HTTP request"
    case InvalidEncoding => "Invalid UTF-8 encoding"
    case InvalidProtocol => "Invalid HTTP protocol"
    case InvalidMethod => "Invalid HTTP method"
  }

  /** The four messages are pairwise distinct, so a message identifies its error. */
  lemma MessageInjective(a: ParseError, b: ParseError)
    ensures Message(a) == Message(b) ==> a == b
  {
  }

  /** A rejected method token prints the same text whether it is reported as a
      `MethodError` or as a `ParseError`. */
  lemma MethodErrorMessageAgrees()
    ensures Message(InvalidMethod) == HttpMethod.MethodErrorMessage(HttpMethod.InvalidMethod)
  {
  }
}
