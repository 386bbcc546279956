/**
 * The HTTP side of the relay process: which file under `public/` a request
 * names, which content type it is served with, and which status the
 * response carries once the file system has answered.
 */
module StaticFiles {
  import opened Envelopes

  // ---------------------------------------------------------------------
  // File name

  /** `req.url || "/"`: a missing or empty URL stands for the root. */
  function RequestPath(url: Option<string>): string {
    if url.None? || url.value == "" then "/" else url.value
  }

  /**
   * The name joined under the public directory: the root serves
   * `index.html`, anything else is used as it came.
   */
  function ServedName(url: Option<string>): (name: string)
    ensures name == "index.html" <==>
              url.None? || url.value == "" || url.value == "/" || url.value == "index.html"
    ensures name != "index.html" ==> url.Some? && name == url.value
  {
    var path := RequestPath(url);
    if path == "/" then "index.html" else path
  }

  // ---------------------------------------------------------------------
  // Extension (the POSIX rules of Node's `path.extname`)

  /** The path without the slashes it ends with. */
  function StripTrailingSlashes(p: string): (r: string)
    ensures |r| <= |p| && r == p[..|r|]
    ensures r == [] || r[|r| - 1] != '/'
    ensures forall i :: |r| <= i < |p| ==> p[i] == '/'
  {
    if p != [] && p[|p| - 1] == '/' then StripTrailingSlashes(p[..|p| - 1]) else p
  }

  /** The index of the last slash, or -1 when there is none. */
  function LastSlash(p: string): (k: int)
    ensures -1 <= k < |p|
    ensures k >= 0 ==> p[k] == '/'
    ensures forall i :: k < i < |p| ==> p[i] != '/'
  {
    if p == [] then -1
    else if p[|p| - 1] == '/' then |p| - 1
    else LastSlash(p[..|p| - 1])
  }

  /** The text after the last slash. */
  function LastSegment(p: string): (b: string)
    ensures '/' !in b
  {
    p[LastSlash(p) + 1..]
  }

  /** The last segment is the tail of the path that follows its last slash, or the whole path. */
  lemma LastSegmentIsTail(p: string)
    ensures var b := LastSegment(p);
            |b| <= |p| && b == p[|p| - |b|..] && (|b| < |p| ==> p[|p| - |b| - 1] == '/')
  {
  }

  /** The index of the last dot, or -1 when there is none. */
  function LastDot(b: string): (k: int)
    ensures -1 <= k < |b|
    ensures k >= 0 ==> b[k] == '.' && forall i :: k < i < |b| ==> b[i] != '.'
    ensures k == -1 <==> '.' !in b
  {
    if b == [] then -1
    else if b[|b| - 1] == '.' then |b| - 1
    else LastDot(b[..|b| - 1])
  }

  /**
   * `path.extname`: from the last dot of the last segment (trailing slashes
   * ignored) to its end; empty when the segment has no dot, starts with its
   * only dot, or is `..`.
   */
  function Extname(p: string): (e: string)
    ensures e == [] || (e[0] == '.' && forall i :: 0 < i < |e| ==> e[i] != '.' && e[i] != '/')
  {
    var b := LastSegment(StripTrailingSlashes(p));
    var e := SegmentExt(b);
    assert forall i :: 0 <= i < |e| ==> e[i] == b[|b| - |e| + i];
    e
  }

  /** The extension of one segment: from its last dot to its end, unless that dot comes first or the segment is `..`. */
  function SegmentExt(b: string): (e: string)
    ensures |e| <= |b| && e == b[|b| - |e|..]
    ensures e != [] ==> |b| - |e| == LastDot(b) > 0 && b != ".."
    ensures LastDot(b) > 0 && b != ".." ==> e == b[LastDot(b)..]
    ensures e == [] || (e[0] == '.' && forall i :: 0 < i < |e| ==> e[i] != '.')
  {
    var k := LastDot(b);
    if k <= 0 || b == ".." then "" else b[k..]
  }

  // ---------------------------------------------------------------------
  // Content type

  /** `toLowerCase` on the ASCII letters (no key of the table has any other letter). */
  function LowerChar(c: char): char {
    if 'A' <= c <= 'Z' then (c as int - 'A' as int + 'a' as int) as char else c
  }

  function Lower(s: string): (r: string)
    ensures |r| == |s| && forall i :: 0 <= i < |s| ==> r[i] == LowerChar(s[i])
  {
    if s == [] then [] else [LowerChar(s[0])] + Lower(s[1..])
  }

  const DefaultType := "application/octet-stream"

  const MimeTypes: map<string, string> := map[
    ".html" := "text/html",
    ".js" := "application/javascript",
    ".css" := "text/css",
    ".json" := "application/json",
    ".png" := "image/png",
    ".jpg" := "image/jpg",
    ".gif" := "image/gif",
    ".wav" := "audio/wav",
    ".mp4" := "video/mp4",
    ".woff" := "application/font-woff",
    ".ttf" := "application/font-ttf",
    ".eot" := "application/vnd.ms-fontobject",
    ".otf" := "application/font-otf",
    ".svg" := "application/image/svg+xml"
  ]

  /** `mimeTypes[ext] || "application/octet-stream"`. */
  function MimeLookup(ext: string): string {
    if ext in MimeTypes then MimeTypes[ext] else DefaultType
  }

  /** The content type of a served file: the table entry for its lower-cased extension. */
  function ContentType(name: string): string {
    MimeLookup(Lower(Extname(name)))
  }

  /** A dot followed by no other dot. */
  predicate DotThenPlain(e: string) {
    |e| >= 1 && e[0] == '.' && forall i :: 0 < i < |e| ==> e[i] != '.'
  }

  /** An extension as written after a file stem: a dot, then at least one character that is neither a dot nor a slash. */
  predicate IsExtension(e: string) {
    |e| >= 2 && DotThenPlain(e) && '/' !in e
  }

  lemma {:induction false} LastSlashOfAppend(stem: string, e: string)
    requires '/' !in e
    ensures LastSlash(stem + e) == LastSlash(stem)
    decreases |e|
  {
    if e != [] {
      var p := stem + e;
      var e' := e[..|e| - 1];
      assert p[..|p| - 1] == stem + e';
      assert p[|p| - 1] == e[|e| - 1] != '/';
      assert '/' !in e' by {
        forall i | 0 <= i < |e'| ensures e'[i] != '/' { assert e'[i] == e[i]; }
      }
      LastSlashOfAppend(stem, e');
      assert LastSlash(p) == LastSlash(p[..|p| - 1]);
    } else {
      assert stem + e == stem;
    }
  }

  lemma LastSegmentOfAppend(stem: string, e: string)
    requires '/' !in e
    ensures LastSegment(stem + e) == LastSegment(stem) + e
  {
    LastSlashOfAppend(stem, e);
    var k := LastSlash(stem);
    assert (stem + e)[k + 1..] == stem[k + 1..] + e;
  }

  lemma {:induction false} LastDotOfAppend(b: string, e: string)
    requires DotThenPlain(e)
    ensures LastDot(b + e) == |b|
    decreases |e|
  {
    var p := b + e;
    if |e| > 1 {
      assert p[..|p| - 1] == b + e[..|e| - 1];
      LastDotOfAppend(b, e[..|e| - 1]);
    } else {
      assert p[|p| - 1] == '.';
    }
  }

  /**
   * A name made of a stem that does not end in a slash and an extension is
   * served with the table entry for that extension, whatever its letter case,
   * or with the default type when the table has no entry for it.
   */
  lemma ContentTypeByExtension(stem: string, e: string)
    requires stem != [] && stem[|stem| - 1] != '/'
    requires IsExtension(e)
    ensures Extname(stem + e) == e
    ensures ContentType(stem + e) == MimeLookup(Lower(e))
  {
    var p := stem + e;
    assert e[|e| - 1] != '/';
    NoTrailingSlash(p, e);
    LastSegmentOfAppend(stem, e);
    var s := LastSegment(stem);
    NonEmptyLastSegment(stem);
    ExtOfLastSegment(p, s + e);
    StemThenExtension(s, e);
  }

  /** A path that does not end in a slash has a non-empty last segment. */
  lemma NonEmptyLastSegment(p: string)
    requires p != [] && p[|p| - 1] != '/'
    ensures LastSegment(p) != []
  {
    assert LastSlash(p) < |p| - 1;
  }

  /** A non-empty stem followed by an extension: the segment's extension is that extension. */
  lemma StemThenExtension(s: string, e: string)
    requires s != [] && |e| >= 2 && DotThenPlain(e)
    ensures SegmentExt(s + e) == e
  {
    LastDotOfAppend(s, e);
    var b := s + e;
    assert b != ".." by { assert |b| >= 3; }
    assert b[|s|..] == e;
  }

  /** A path that ends in something other than a slash loses nothing to trailing-slash stripping. */
  lemma NoTrailingSlash(p: string, tail: string)
    requires tail != [] && tail[|tail| - 1] != '/'
    requires |tail| <= |p| && p[|p| - 1] == tail[|tail| - 1]
    ensures StripTrailingSlashes(p) == p
  {
  }

  lemma ExtOfLastSegment(name: string, seg: string)
    requires LastSegment(StripTrailingSlashes(name)) == seg
    ensures Extname(name) == SegmentExt(seg)
  {
  }

  /** A segment that ends in its only dot, after something else, has the extension `.` (`index.`). */
  lemma TrailingDotSegment(s: string)
    requires s != [] && '.' !in s
    ensures SegmentExt(s + ".") == "."
  {
    LastDotOfAppend(s, ".");
    var b := s + ".";
    assert b[0] == s[0] && s[0] in s;
    assert b[|s|..] == ".";
  }

  /** A name whose last segment holds no dot is served as `application/octet-stream`. */
  lemma NoDotNoType(name: string)
    requires '.' !in LastSegment(StripTrailingSlashes(name))
    ensures Extname(name) == ""
    ensures ContentType(name) == DefaultType
  {
    assert LastDot(LastSegment(StripTrailingSlashes(name))) == -1;
    assert Extname(name) == "";
    NoExtensionNoType(name);
  }

  /**
   * A name whose last segment starts with its only dot (a hidden file such
   * as `.bashrc`, or `.` itself), or is `..`, has no extension and is served
   * as `application/octet-stream`.
   */
  lemma LeadingDotNoType(name: string)
    requires var b := LastSegment(StripTrailingSlashes(name));
             (b != [] && b[0] == '.' && '.' !in b[1..]) || b == ".."
    ensures Extname(name) == ""
    ensures ContentType(name) == DefaultType
  {
    var b := LastSegment(StripTrailingSlashes(name));
    if b != ".." {
      HiddenSegment(b);
    }
    assert Extname(name) == SegmentExt(b);
    NoExtensionNoType(name);
  }

  /** A segment that starts with its only dot has no extension. */
  lemma HiddenSegment(b: string)
    requires b != [] && b[0] == '.' && '.' !in b[1..]
    ensures SegmentExt(b) == ""
  {
    assert LastDot(b) == 0 by {
      forall i | 0 < i < |b| ensures b[i] != '.' { assert b[i] == b[1..][i - 1]; }
    }
  }

  /** An empty extension is served as `application/octet-stream`. */
  lemma NoExtensionNoType(name: string)
    requires Extname(name) == ""
    ensures ContentType(name) == DefaultType
  {
    assert Lower("") == "";
    EmptyIsNoKey();
  }

  /** The table has no entry for the empty extension. */
  lemma EmptyIsNoKey()
    ensures "" !in MimeTypes
  {
  }

  // ---------------------------------------------------------------------
  // Response

  /** The file system's answer to `fs.readFile`. */
  datatype ReadResult = Read(content: seq<bv8>) | ReadError(code: string)

  datatype Body = Text(text: string) | Bytes(bytes: seq<bv8>)

  datatype Response = Response(status: int, contentType: Option<string>, body: Body)

  /** The response the server writes for a request, given what reading the file produced. */
  function Respond(url: Option<string>, read: ReadResult): (r: Response)
    ensures r.status == 200 <==> read.Read?
    ensures r.status == 404 <==> read.ReadError? && read.code == "ENOENT"
    ensures r.status == 500 <==> read.ReadError? && read.code != "ENOENT"
    ensures read.Read? ==> r.contentType == Some(ContentType(ServedName(url))) && r.body == Bytes(read.content)
    ensures r.status == 404 ==> r.contentType == Some("text/plain") && r.body == Text("404 Not Found")
    ensures r.status == 500 ==> r.contentType.None?
  {
    match read
    case ReadError(code) =>
      if code == "ENOENT" then Response(404, Some("text/plain"), Text("404 Not Found"))
      else Response(500, None, Text("Sorry, check with the site admin for error: " + code + " ..\n"))
    case Read(content) =>
      Response(200, Some(ContentType(ServedName(url))), Bytes(content))
  }
}
