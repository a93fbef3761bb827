# Titan static web server — Dafny model

This project models the pure core of Titan, a small HTTP/1.x server written in
Rust that serves files from one public directory:

- the static-file handler (`WebsiteHandler`): `map_path`, which turns an
  untrusted request path into a file-system path and refuses anything that
  canonicalises outside the public directory, and `handle_request`, which
  answers every request with a `Response`;
- the HTTP method codec: the closed nine-variant `Method` enum, its exact,
  case-sensitive `from_str`, its `Display`, and `MethodError`;
- `ParseError` and its fixed messages;
- the `Request` record and `Request::new`;
- `Server::new`'s bind address, `"{ip}:{port}"` with a `u16` port.

The file system is abstracted away. `Path::canonicalize` and
`fs::read_to_string` are function-typed parameters (`Canonicalize` and
`ReadToString` in module `Website`), so every safety property is proved for
every file system that stays unchanged while one request is handled. A `PathBuf` is modelled by its text on a Unix host;
a canonical path by its list of components, which is what `Path::starts_with`
compares.

Modules: `Wrappers` (Option, Result), `HttpMethod`, `HttpParseError`,
`HttpRequest`, `HttpResponse`, `DecimalText` (decimal printing of naturals),
`Server`, `Paths` (slash trimming, `PathBuf::push`, component prefixes) and
`Website` (the handler).

The comment at `src/website_handler.rs:18` speaks of removing "leading
slash", singular, but the code at line 19 uses `trim_start_matches('/')`,
which strips every leading slash. The model follows the code, so
`//etc/passwd` becomes `etc/passwd` and not `/etc/passwd`.

`src/website_handler.rs:1` imports `Handler`, `Response` and `StatusCode`
from the `http` module, but `src/http/mod.rs:1-7` declares only `method`,
`parse_error` and `request`, so no source file of the original defines them.
`HttpResponse` declares the minimum the handler uses: `Response(status, body)`
and a `StatusCode` with `Ok` and `NotFound`. The `Handler` trait becomes the
single function `Website.HandleRequest`.

## Model

| member | source | states |
|---|---|---|
| HttpMethod.Display | src/http/method.rs:36-50 | every method prints as a token of at least three upper-case ASCII letters |
| HttpMethod.FromStr | src/http/method.rs:17-33 | a parsed token is exactly the printed form of the method it yields; a rejected string is the printed form of no method and fails with `InvalidMethod` |
| HttpMethod.MethodErrorMessage | src/http/method.rs:58-64 | `InvalidMethod` prints `Invalid HTTP method` |
| HttpMethod.DisplayInjective | src/http/method.rs:38-48 | two methods with the same printed token are the same method |
| HttpMethod.ParseDisplayRoundTrip | src/http/method.rs:20-50 | parsing the printed form of any method gives that method back |
| HttpMethod.DisplayParseRoundTrip | src/http/method.rs:20-50 | whenever a string parses to a method, that method prints as exactly that string |
| HttpMethod.AcceptsExactlyTheTokens | src/http/method.rs:20-33 | a string is accepted if and only if it is the token of some method; there is no default method |
| HttpMethod.RejectsNonTokenCharacters | src/http/method.rs:21-31 | any string holding a character that is not an upper-case ASCII letter is rejected with `InvalidMethod`, so parsing is case-sensitive and does not trim |
| HttpMethod.RejectsShortStrings | src/http/method.rs:21-31 | any string shorter than three characters, the empty string included, is rejected |
| HttpMethod.CaseSensitiveSamples | src/http/method.rs:21-31 | `get`, ` GET`, `GET ` and the empty string are all rejected |
| HttpParseError.Message | src/http/parse_error.rs:12-21 | every parse-error message begins with `Invalid ` |
| HttpParseError.MessageInjective | src/http/parse_error.rs:5-19 | the four messages are pairwise distinct, so a message identifies its error |
| HttpParseError.MethodErrorMessageAgrees | src/http/parse_error.rs:18 | `ParseError::InvalidMethod` prints the same text as `MethodError::InvalidMethod` |
| HttpRequest.New | src/http/request.rs:13-25 | `Request::new` stores path, query, method and headers unchanged, with the same header keys and values |
| HttpRequest.NewCoversEveryRequest | src/http/request.rs:4-25 | every request is what `new` builds from its own fields |
| HttpRequest.AbsentQueryStaysAbsent | src/http/request.rs:21 | an absent query is never turned into an empty string |
| DecimalText.Decimal | src/server.rs:9 | a port prints as a non-empty run of ASCII digits with no leading zero unless the port is 0 |
| DecimalText.ValueOfDecimal | src/server.rs:9 | reading the printed digits back gives the number |
| DecimalText.DecimalOfValue | src/server.rs:9 | printing the value of a digit string with no leading zero gives the string back, so printing is a bijection |
| DecimalText.DecimalLength | src/server.rs:9 | the printed number has at most k digits exactly when it is below 10^k |
| Server.New | src/server.rs:8-11 | the address is the IP, then `:`, then canonical digits whose value is the port; it is at most six characters longer than the IP |
| Server.AddressRoundTrip | src/server.rs:9 | splitting the address at its last `:` recovers exactly the IP and the port, even when the IP contains colons |
| Server.AddressLength | src/server.rs:9 | the address length is the IP length plus one plus the port's digit count, which is at most five for a `u16` |
| Paths.TrimLeadingSlashes | src/website_handler.rs:19 | the result is a suffix of the input that does not start with `/`, and everything removed was `/`: all leading slashes go, nothing else does |
| Paths.TrimSamples | src/website_handler.rs:19 | `//etc/passwd` becomes `etc/passwd`, `///` becomes empty, `a/b` is unchanged |
| Paths.Push | src/website_handler.rs:22-26 | `PathBuf::push`: an absolute argument replaces the path; a relative one keeps the base as a prefix, ends the result with the argument, and puts exactly one `/` between them unless the base is empty or already ends in `/` |
| Paths.PushSamples | src/website_handler.rs:22-26 | a relative push lands under the base; pushing `/etc/passwd` would replace it |
| Paths.ComponentPrefixIsNotTextPrefix | src/website_handler.rs:34 | `/srv/public` is a text prefix of `/srv/public-secret/x` but not a component prefix |
| Website.Candidate | src/website_handler.rs:14-26 | the joined path always strictly extends the public directory's text, so no request path can restart it at the file-system root |
| Website.CandidateShape | src/website_handler.rs:18-26 | a request path made only of slashes, the empty path included, yields `index.html` under the public directory; any other yields its slash-stripped, relative remainder under it |
| Website.DoubledSlashSample | src/website_handler.rs:19-26 | `//etc/passwd` joins to `/srv/public/etc/passwd`, not `/etc/passwd` |
| Website.RootPathSample | src/website_handler.rs:21-26 | `` and `///` both join to `/srv/public/index.html` |
| Website.MapPath | src/website_handler.rs:14-42 | a path is returned if and only if the candidate and the public directory both canonicalise and the first lies component-wise under the second; the path returned is the candidate's canonical form; a failure to canonicalise either gives `None` |
| Website.MapPathStaysUnderRoot | src/website_handler.rs:28-36 | any path `map_path` returns lies component-wise under the canonical public directory |
| Website.SiblingDirectoryIsRejected | src/website_handler.rs:34 | a candidate canonicalising to `/srv/public-secret/x` is refused for a public directory canonicalising to `/srv/public` |
| Website.HandleRequest | src/website_handler.rs:49-75 | the answer always has a body; it is `Ok` exactly for a `GET` whose path maps and whose file reads, and then the body is exactly the file's contents; `Method not supported` exactly for non-`GET`; `Invalid path` exactly for a `GET` whose path does not map; `File not found` exactly for a `GET` whose path maps but whose read fails |
| Website.EscapeIsRejected | src/website_handler.rs:53-66 | a `GET` whose candidate canonicalises outside the public directory gets `NotFound` with `Invalid path` |
| Website.ServedFilesLieUnderRoot | src/website_handler.rs:53-59 | an `Ok` answer carries the contents of a file whose canonical path lies under the canonical public directory |
| Website.NonGetIgnoresPathAndFiles | src/website_handler.rs:70-73 | every non-`GET` request gets `NotFound` with `Method not supported`, whatever its path and whatever the file system holds |

## Left out

- The file system: `Path::canonicalize` (symlink and `..` resolution) and `fs::read_to_string` are oracle parameters. Their real behaviour is not modelled.
- `PathBuf` on Windows: `Paths.Push` models `PathBuf::push` on a Unix host only. Drive prefixes and `\` separators are not modelled.
- The worker pool (`src/thread_pool.rs`): it only spawns a thread with an empty body. There is no queue or dispatch to model, and threads are out of scope.
- `Config::from_env` (`src/config.rs`): it reads environment variables and a `.env` file, which is I/O. `Server.Config` takes the IP and port as given.
- `src/logger.rs` (clock and standard output), `src/lib.rs` (the entry point) and `src/http/mod.rs` (re-exports only).
- The wire parser from bytes to `Request` and the `Response` serializer: `src/http/mod.rs:1-7` declares no module holding them, so no source file of the original defines them.
- `Handler`, `Response::new` and `StatusCode`: imported at `src/website_handler.rs:1` but defined in no source file of the original. Only the fields and variants the handler uses are declared, and `Response::new` is the `Response` constructor.
- The check-then-read race: one `canonicalize` oracle answers both calls and `readToString` reads the same fixed state, so `Website.ServedFilesLieUnderRoot` holds only when the file system does not change during the request. `fs::read_to_string` follows symlinks again when it opens the file, so a component replaced by an escaping symlink after `canonicalize` is not covered.
- `WebsiteHandler::new` and `read_file`: the first is the `WebsiteHandler` constructor, and the second is the `readToString` oracle itself.
- Sockets, accepting connections and writing responses.
