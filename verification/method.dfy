/** The closed set of HTTP request methods, with its exact, case-sensitive
    parser (`FromStr`) and its printed form (`Display`). */
module HttpMethod {
  import opened Wrappers

  datatype Method = GET | POST | PUT | DELETE | HEAD | OPTIONS | PATCH | TRACE | CONNECT

  /** The only way parsing a method can fail. */
  datatype MethodError = InvalidMethod

  predicate IsUpperAscii(c: char) {
    'A' <= c <= 'Z'
  }

  /** The token of a method, as it appears on the request line. */
  function Display(m: Method): (r: string)
    ensures |r| >= 3
    ensures forall i :: 0 <= i < |r| ==> IsUpperAscii(r[i])
  {
    match m
    case GET => "GET"
    case POST => "POST"
    case PUT => "PUT"
    case DELETE => "DELETE"
    case HEAD => "HEAD"
    case OPTIONS => "OPTIONS"
    case PATCH => "PATCH"
    case TRACE => "TRACE"
    case CONNECT => "CONNECT"
  }

  /** Parses a method token. Only the nine exact tokens are accepted; there is
      no default method and no case folding. */
  function FromStr(s: string): (r: Result<Method, MethodError>)
    ensures r.Ok? ==> Display(r.value) == s
    ensures r.Err? ==> r.error == InvalidMethod && forall m: Method :: Display(m) != s
  {
    if s == "GET" then Ok(GET)
    else if s == "POST" then Ok(POST)
    else if s == "PUT" then Ok(PUT)
    else if s == "DELETE" then Ok(DELETE)
    else if s == "HEAD" then Ok(HEAD)
    else if s == "OPTIONS" then Ok(OPTIONS)
    else if s == "PATCH" then Ok(PATCH)
    else if s == "TRACE" then Ok(TRACE)
    else if s == "CONNECT" then Ok(CONNECT)
    else Err(InvalidMethod)
  }

  /** The message a `MethodError` prints. */
  function MethodErrorMessage(e: MethodError): (r: string)
    ensures r == "Invalid HTTP method"
  {
    match e
    case InvalidMethod => "Invalid HTTP method"
  }

  /** Two methods print the same token only if they are the same method. */
  lemma DisplayInjective(a: Method, b: Method)
    ensures Display(a) == Display(b) ==> a == b
  {
  }

  /** Printing a method and parsing the token gives the method back. */
  lemma ParseDisplayRoundTrip(m: Method)
    ensures FromStr(Display(m)) == Ok(m)
  {
    var r := FromStr(Display(m));
    if r.Ok? {
      DisplayInjective(r.value, m);
    }
  }

  /** A token that parses is exactly the printed form of the method it parses to. */
  lemma DisplayParseRoundTrip(s: string, m: Method)
    requires FromStr(s) == Ok(m)
    ensures Display(m) == s
  {
  }

  /** A string is accepted if and only if it is the token of some method. */
  lemma AcceptsExactlyTheTokens(s: string)
    ensures FromStr(s).Ok? <==> exists m: Method :: Display(m) == s
  {
    if FromStr(s).Ok? {
      assert Display(FromStr(s).value) == s;
    }
  }

  /** Parsing is case-sensitive and exact: any string holding a character that
      is not an upper-case ASCII letter (a lower-case letter, a space) is
      rejected, and so is every string shorter than three characters. */
  lemma RejectsNonTokenCharacters(s: string, i: int)
    requires 0 <= i < |s| && !IsUpperAscii(s[i])
    ensures FromStr(s) == Err(InvalidMethod)
  {
  }

  lemma RejectsShortStrings(s: string)
    requires |s| < 3
    ensures FromStr(s) == Err(InvalidMethod)
  {
  }

  /** Samples of the rule above: lower case, surrounding space, empty input. */
  lemma CaseSensitiveSamples()
    ensures FromStr("get") == Err(InvalidMethod)
    ensures FromStr(" GET") == Err(InvalidMethod)
    ensures FromStr("GET ") == Err(InvalidMethod)
    ensures FromStr("") == Err(InvalidMethod)
  {
    RejectsNonTokenCharacters("get", 0);
    RejectsNonTokenCharacters(" GET", 0);
    RejectsNonTokenCharacters("GET ", 3);
    RejectsShortStrings("");
  }
}
