/** The static-file handler: maps an untrusted request path to a file under
    the public directory, and answers each request from that file.

    The file system is not modelled. `canonicalize` (symlink and `..`
    resolution, failing when the path does not exist) and `readToString`
    (a whole-file text read, failing on any I/O error) are passed in as
    oracles, so every property below holds for every file system that stays
    unchanged while one request is handled. */
module Website {
  import opened Wrappers
  import opened HttpMethod
  import opened HttpRequest
  import opened HttpResponse
  import opened Paths

  /** `Path::canonicalize`: the canonical components of a path, or `None`. */
  type Canonicalize = string -> Option<seq<string>>

  /** `fs::read_to_string`: the contents of the file at a path, or `None`. */
  type ReadToString = seq<string> -> Option<string>

  datatype WebsiteHandler = WebsiteHandler(publicPath: string)

  const IndexFile: string := "index.html"
  const MethodNotSupported: string := "Method not supported"
  const InvalidPath: string := "Invalid path"
  const FileNotFound: string := "File not found"

  /** The path joined onto the public directory before canonicalisation:
      the request path without its leading slashes, or `index.html` when
      nothing is left. It always extends the public directory's text: a
      request path can never make it restart at the file-system root. */
  function Candidate(publicPath: string, requestPath: string): (p: string)
    ensures |publicPath| < |p| && p[..|publicPath|] == publicPath
  {
    var sanitized := TrimLeadingSlashes(requestPath);
    if sanitized == "" then Push(publicPath, IndexFile) else Push(publicPath, sanitized)
  }

  /** `WebsiteHandler::map_path`. A path is returned only when the candidate
      canonicalises, the public directory canonicalises, and the first lies
      component-wise under the second; the path returned is the candidate's
      canonical form. */
  function MapPath(h: WebsiteHandler, requestPath: string, canonicalize: Canonicalize): (r: Option<seq<string>>)
    ensures r.Some? ==> canonicalize(Candidate(h.publicPath, requestPath)) == r
    ensures r.Some? ==> canonicalize(h.publicPath).Some? && StartsWith(r.value, canonicalize(h.publicPath).value)
    ensures canonicalize(Candidate(h.publicPath, requestPath)).None? ==> r.None?
    ensures canonicalize(h.publicPath).None? ==> r.None?
    ensures (canonicalize(Candidate(h.publicPath, requestPath)).Some? && canonicalize(h.publicPath).Some?
             && StartsWith(canonicalize(Candidate(h.publicPath, requestPath)).value, canonicalize(h.publicPath).value))
            ==> r.Some?
  {
    match canonicalize(Candidate(h.publicPath, requestPath))
    case None => None
    case Some(canonicalPath) =>
      match canonicalize(h.publicPath)
      case None => None
      case Some(canonicalPublic) =>
        if StartsWith(canonicalPath, canonicalPublic) then Some(canonicalPath) else None
  }

  /** `Handler::handle_request` for the static-file handler. It is total: every
      failure is a `NotFound` whose body says why, and success is `Ok` carrying
      exactly the file's contents. */
  function HandleRequest(h: WebsiteHandler, request: Request, canonicalize: Canonicalize, readToString: ReadToString): (resp: Response)
    ensures resp.body.Some?
    ensures resp.status == StatusCode.Ok <==>
              request.httpMethod == GET
              && MapPath(h, request.path, canonicalize).Some?
              && readToString(MapPath(h, request.path, canonicalize).value).Some?
    ensures resp.status == StatusCode.Ok ==> resp.body == readToString(MapPath(h, request.path, canonicalize).value)
    ensures resp.status == NotFound && resp.body == Some(MethodNotSupported) <==> request.httpMethod != GET
    ensures resp.status == NotFound && resp.body == Some(InvalidPath) <==>
              request.httpMethod == GET && MapPath(h, request.path, canonicalize).None?
    ensures resp.status == NotFound && resp.body == Some(FileNotFound) <==>
              request.httpMethod == GET
              && MapPath(h, request.path, canonicalize).Some?
              && readToString(MapPath(h, request.path, canonicalize).value).None?
  {
    match request.httpMethod
    case GET =>
      (match MapPath(h, request.path, canonicalize)
       case Some(filePath) =>
         (match readToString(filePath)
          case Some(contents) => Response(StatusCode.Ok, Some(contents))
          case None => Response(NotFound, Some(FileNotFound)))
       case None => Response(NotFound, Some(InvalidPath)))
    case _ => Response(NotFound, Some(MethodNotSupported))
  }

  /** Every request path, `//etc/passwd` included, loses all its leading
      slashes; when nothing is left the candidate is `index.html` under the
      public directory, otherwise it is the stripped path under it. */
  lemma CandidateShape(publicPath: string, requestPath: string)
    ensures (forall i :: 0 <= i < |requestPath| ==> requestPath[i] == '/') ==>
              Candidate(publicPath, requestPath) == Push(publicPath, IndexFile)
    ensures (exists i :: 0 <= i < |requestPath| && requestPath[i] != '/') ==>
              var rel := TrimLeadingSlashes(requestPath);
              && rel != "" && !IsAbsolute(rel)
              && Candidate(publicPath, requestPath) == Push(publicPath, rel)
  {
    if exists i :: 0 <= i < |requestPath| && requestPath[i] != '/' {
      var i :| 0 <= i < |requestPath| && requestPath[i] != '/';
      var rel := TrimLeadingSlashes(requestPath);
      assert rel != "";
    }
  }

  /** Sample: a doubled slash does not reach `/etc/passwd`; pushing the raw
      absolute path instead would replace the public directory altogether. */
  lemma DoubledSlashSample()
    ensures Candidate("/srv/public", "//etc/passwd") == "/srv/public/etc/passwd"
    ensures Push("/srv/public", "/etc/passwd") == "/etc/passwd"
  {
    TrimSamples();
    PushSamples();
  }

  /** Sample: the bare root path and a run of slashes both serve the index file. */
  lemma RootPathSample()
    ensures Candidate("/srv/public", "///") == "/srv/public/index.html"
    ensures Candidate("/srv/public", "") == "/srv/public/index.html"
  {
    TrimSamples();
    PushSamples();
  }

  /** Safety of `map_path`: whatever the file system does, a path it returns
      lies component-wise under the canonical public directory. */
  lemma MapPathStaysUnderRoot(h: WebsiteHandler, requestPath: string, canonicalize: Canonicalize)
    ensures MapPath(h, requestPath, canonicalize).Some? ==>
              exists root :: canonicalize(h.publicPath) == Some(root)
                             && StartsWith(MapPath(h, requestPath, canonicalize).value, root)
  {
    if MapPath(h, requestPath, canonicalize).Some? {
      var root := canonicalize(h.publicPath).value;
      assert StartsWith(MapPath(h, requestPath, canonicalize).value, root);
    }
  }

  /** A candidate that canonicalises outside the public directory is rejected:
      for a `GET` the answer is `NotFound` with body `Invalid path`, however
      the request path spells it and whatever the file would contain. */
  lemma EscapeIsRejected(h: WebsiteHandler, request: Request, canonicalize: Canonicalize, readToString: ReadToString,
                         candidate: seq<string>, root: seq<string>)
    requires request.httpMethod == GET
    requires canonicalize(Candidate(h.publicPath, request.path)) == Some(candidate)
    requires canonicalize(h.publicPath) == Some(root)
    requires !StartsWith(candidate, root)
    ensures HandleRequest(h, request, canonicalize, readToString) == Response(NotFound, Some(InvalidPath))
  {
  }

  /** A sibling directory that shares the public directory's text prefix is
      still rejected, because the prefix test is on components. */
  lemma SiblingDirectoryIsRejected(h: WebsiteHandler, requestPath: string, canonicalize: Canonicalize)
    requires canonicalize(Candidate(h.publicPath, requestPath)) == Some(["/", "srv", "public-secret", "x"])
    requires canonicalize(h.publicPath) == Some(["/", "srv", "public"])
    ensures MapPath(h, requestPath, canonicalize) == None
  {
    ComponentPrefixIsNotTextPrefix();
  }

  /** End to end: an `Ok` response only ever carries the contents of a file
      whose canonical path lies under the canonical public directory. */
  lemma ServedFilesLieUnderRoot(h: WebsiteHandler, request: Request, canonicalize: Canonicalize, readToString: ReadToString)
    requires HandleRequest(h, request, canonicalize, readToString).status == StatusCode.Ok
    ensures canonicalize(h.publicPath).Some?
    ensures exists file :: StartsWith(file, canonicalize(h.publicPath).value)
                           && readToString(file) == HandleRequest(h, request, canonicalize, readToString).body
  {
    var file := MapPath(h, request.path, canonicalize).value;
    assert StartsWith(file, canonicalize(h.publicPath).value);
  }

  /** The answer to a method other than `GET` depends on nothing else: not on
      the path, not on the file system. */
  lemma NonGetIgnoresPathAndFiles(h: WebsiteHandler, r1: Request, r2: Request,
                                  c1: Canonicalize, c2: Canonicalize, read1: ReadToString, read2: ReadToString)
    requires r1.httpMethod != GET && r2.httpMethod != GET
    ensures HandleRequest(h, r1, c1, read1) == HandleRequest(h, r2, c2, read2)
    ensures HandleRequest(h, r1, c1, read1) == Response(NotFound, Some(MethodNotSupported))
  {
  }
}
