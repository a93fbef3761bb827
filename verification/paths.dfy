/** Path text and path components, as the static-file handler uses them.
    A `PathBuf` is modelled by its text on a Unix host; a canonical path is
    modelled by its sequence of components, because that is what
    `Path::starts_with` compares. */
module Paths {

  /** `str::trim_start_matches('/')`: removes every leading slash, not just one. */
  function TrimLeadingSlashes(s: string): (r: string)
    ensures |r| <= |s| && r == s[|s| - |r|..]
    ensures r == "" || r[0] != '/'
    ensures forall i :: 0 <= i < |s| - |r| ==> s[i] == '/'
  {
    if |s| > 0 && s[0] == '/' then TrimLeadingSlashes(s[1..]) else s
  }

  /** Samples: all leading slashes go, and only leading ones. */
  lemma TrimSamples()
    ensures TrimLeadingSlashes("//etc/passwd") == "etc/passwd"
    ensures TrimLeadingSlashes("///") == ""
    ensures TrimLeadingSlashes("a/b") == "a/b"
  {
    var p := "//etc/passwd";
    assert "etc/passwd"[0] == 'e';
    assert p[1..][1..] == "etc/passwd";
    var q := "///";
    assert q[1..][1..][1..] == "";
  }

  /** A path whose text starts at the file-system root. */
  predicate IsAbsolute(p: string) {
    |p| > 0 && p[0] == '/'
  }

  /** `PathBuf::push` on a Unix host: an absolute argument replaces the whole
      path; a relative one is appended, with a `/` in between unless the base
      is empty or already ends in `/`. */
  function Push(base: string, rel: string): (r: string)
    ensures IsAbsolute(rel) ==> r == rel
    ensures !IsAbsolute(rel) ==> |base| + |rel| <= |r| <= |base| + 1 + |rel|
    ensures !IsAbsolute(rel) ==> r[..|base|] == base && r[|r| - |rel|..] == rel
    ensures !IsAbsolute(rel) ==> (|r| == |base| + |rel| <==> |base| == 0 || base[|base| - 1] == '/')
    ensures !IsAbsolute(rel) && |r| > |base| + |rel| ==> r[|base|] == '/'
  {
    if IsAbsolute(rel) then rel
    else if |base| == 0 || base[|base| - 1] == '/' then base + rel
    else base + "/" + rel
  }

  /** Samples: a relative argument is appended under the base; an absolute
      one replaces it. */
  lemma PushSamples()
    ensures Push("/srv/public", "etc/passwd") == "/srv/public/etc/passwd"
    ensures Push("/srv/public", "index.html") == "/srv/public/index.html"
    ensures Push("/srv/public/", "index.html") == "/srv/public/index.html"
    ensures Push("/srv/public", "/etc/passwd") == "/etc/passwd"
  {
  }

  /** `Path::starts_with`: `base` is a whole-component prefix of `p`. */
  predicate StartsWith(p: seq<string>, base: seq<string>) {
    |base| <= |p| && p[..|base|] == base
  }

  /** The same comparison made on raw text instead of components. */
  predicate TextStartsWith(p: string, base: string) {
    |base| <= |p| && p[..|base|] == base
  }

  /** A component prefix is a different test from a text prefix: the text
      `/srv/public` begins `/srv/public-secret/x`, but the components
      `/`, `srv`, `public` do not begin `/`, `srv`, `public-secret`, `x`. */
  lemma ComponentPrefixIsNotTextPrefix()
    ensures TextStartsWith("/srv/public-secret/x", "/srv/public")
    ensures !StartsWith(["/", "srv", "public-secret", "x"], ["/", "srv", "public"])
  {
    assert ["/", "srv", "public-secret", "x"][..3][2] == "public-secret";
  }
}
