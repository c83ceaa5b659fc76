// Google Drive: id extraction from share links, and `download`'s dispatch
// between gdown (public files, folders) and PyDrive2 (authenticated files).

module GDrive {
  import opened Wrappers
  import opened Text
  import opened Values
  import opened Search
  import opened Retry

  datatype Kind = File | Folder

  /** `(?:/d/|id=)([\w-]+)`: a file. */
  const FILE_RULE: seq<Pattern> := [Literal("/d/"), Literal("id=")]
  /** `(?:folders/|folderview\?id=)([\w-]+)`: a folder. */
  const FOLDER_RULE: seq<Pattern> := [Literal("folders/"), Literal("folderview?id=")]
  /** `uc\?id=([\w-]+)`: a file. */
  const UC_RULE: seq<Pattern> := [Literal("uc?id=")]

  /** `parse_drive_id`: the three searches in order; `None` stands for `(None, None)`. */
  function ParseDriveId(url: string): Option<(string, Kind)>
  {
    match Capture(url, FILE_RULE)
    case Some(id) => Some((id, File))
    case None =>
      match Capture(url, FOLDER_RULE)
      case Some(id) => Some((id, Folder))
      case None =>
        match Capture(url, UC_RULE)
        case Some(id) => Some((id, File))
        case None => None
  }

  /** Some alternative of `rule` hits somewhere in `s`. */
  ghost predicate Hits(s: string, rule: seq<Pattern>)
  {
    exists i, k :: 0 <= i < |s| && 0 <= k < |rule| && HitsAt(s, rule[k], i)
  }

  /** A hit of a pattern is a hit of each of its suffixes, further right. */
  lemma SuffixHits(s: string, pat: Pattern, off: nat, i: nat)
    requires off <= |pat|
    requires HitsAt(s, pat, i)
    ensures HitsAt(s, pat[off..], i + off)
  {
    forall k | 0 <= k < |pat| - off
      ensures PatMatches(pat[off..][k], s[i + off + k])
    {
      assert PatMatches(pat[off + k], s[i + (off + k)]);
    }
  }

  lemma LiteralSuffix(s: string, off: nat)
    requires off <= |s|
    ensures Literal(s)[off..] == Literal(s[off..])
  {
  }

  /** A search for `rule` captures exactly when some alternative hits. */
  lemma CaptureIffHits(s: string, rule: seq<Pattern>)
    ensures Capture(s, rule).Some? <==> Hits(s, rule)
  {
    CaptureSpec(s, rule);
  }

  /** A hit of `uc?id=` is a hit of `id=` three characters on. */
  lemma UcHitsFileRule(url: string)
    requires Hits(url, UC_RULE)
    ensures Hits(url, FILE_RULE)
  {
    var i, k :| 0 <= i < |url| && 0 <= k < |UC_RULE| && HitsAt(url, UC_RULE[k], i);
    SuffixHits(url, UC_RULE[0], 3, i);
    LiteralSuffix("uc?id=", 3);
    assert "uc?id="[3..] == "id=";
    assert HitsAt(url, FILE_RULE[1], i + 3);
  }

  /** A hit of `folderview?id=` is a hit of `id=` eleven characters on. */
  lemma FolderviewHitsFileRule(url: string, i: nat)
    requires HitsAt(url, FOLDER_RULE[1], i)
    ensures Hits(url, FILE_RULE)
  {
    SuffixHits(url, FOLDER_RULE[1], 11, i);
    LiteralSuffix("folderview?id=", 11);
    assert "folderview?id="[11..] == "id=";
    assert HitsAt(url, FILE_RULE[1], i + 11);
  }

  /**
   * The third search never decides: every file id comes from the first
   * rule, every folder id from the second, and the third rule matches only
   * where the first does.
   */
  lemma UcRuleUnreachable(url: string)
    ensures ParseDriveId(url).Some? && ParseDriveId(url).value.1 == File ==>
      Capture(url, FILE_RULE) == Some(ParseDriveId(url).value.0)
    ensures ParseDriveId(url).Some? && ParseDriveId(url).value.1 == Folder ==>
      Capture(url, FILE_RULE).None? && Capture(url, FOLDER_RULE) == Some(ParseDriveId(url).value.0)
  {
    if Capture(url, FILE_RULE).None? {
      UcMissesWithFileRule(url);
    }
  }

  /** Where the first rule finds nothing, neither does the third. */
  lemma UcMissesWithFileRule(url: string)
    requires Capture(url, FILE_RULE).None?
    ensures Capture(url, UC_RULE).None?
  {
    CaptureIffHits(url, FILE_RULE);
    CaptureIffHits(url, UC_RULE);
    if Hits(url, UC_RULE) {
      UcHitsFileRule(url);
    }
  }

  /** A `folderview?id=X` link is classified as a file, not a folder. */
  lemma FolderviewIsFile(url: string, i: nat)
    requires HitsAt(url, FOLDER_RULE[1], i)
    ensures ParseDriveId(url).Some? && ParseDriveId(url).value.1 == File
  {
    FolderviewHitsFileRule(url, i);
    CaptureIffHits(url, FILE_RULE);
  }

  /** No id exactly when none of the five alternatives hits; a found id is a non-empty run of id characters. */
  lemma ParseDriveIdSpec(url: string)
    ensures ParseDriveId(url).None? <==> !Hits(url, FILE_RULE) && !Hits(url, FOLDER_RULE) && !Hits(url, UC_RULE)
    ensures ParseDriveId(url).Some? ==>
      var id := ParseDriveId(url).value.0;
      id != [] && forall c :: c in id ==> IdChar(c)
  {
    CaptureSpec(url, FILE_RULE);
    CaptureSpec(url, FOLDER_RULE);
    CaptureSpec(url, UC_RULE);
  }

  /** The metadata `FetchMetadata` gives: `title` and `originalFilename`, `""` when absent. */
  datatype Metadata = Metadata(title: string, originalFilename: string)

  /**
   * `f.get('title') or f.get('originalFilename') or fid`: one of the three
   * candidates, a metadata name only when it is non-empty, the title
   * whenever there is one, and empty only when all three are.
   */
  function FileName(meta: Metadata, fid: string): (name: string)
    ensures name in [meta.title, meta.originalFilename, fid]
    ensures name != fid ==> name != ""
    ensures name == "" <==> meta.title == "" && meta.originalFilename == "" && fid == ""
    ensures meta.title != "" ==> name == meta.title
    ensures name != meta.title ==> meta.title == ""
  {
    if meta.title != "" then meta.title else if meta.originalFilename != "" then meta.originalFilename else fid
  }

  /** `options.get('method', 'public').startswith('public')`, which raises for a non-string method. */
  function IsPublic(options: Options): (r: Result<bool, Exc>)
    ensures "method" !in options ==> r == Success(true)
    ensures Get(options, "method").VStr? ==> r == Success(StartsWith(Get(options, "method").s, "public"))
    ensures "method" in options && !options["method"].VStr? ==> r.Failure? && r.error.kind == AttributeError
  {
    var m := Get(options, "method", VStr("public"));
    if m.VStr? then Success(StartsWith(m.s, "public"))
    else Failure(Exc(AttributeError, "'" + TypeName(m) + "' object has no attribute 'startswith'"))
  }

  /** The one download request the handler makes to a fetch library, if any. */
  datatype Request =
    | NoRequest
    | PublicFile(url: string, output: string)
    | AuthenticatedFile(id: string, path: string)
    | FolderRequest(url: string, output: string)

  /** What the fetch libraries do, as seen by the handler. */
  datatype Libraries = Libraries(
    gdownAvailable: bool,
    pydriveAvailable: bool,
    /** What `gdown.download` raises, if anything. */
    publicFetch: Option<string>,
    /** `FetchMetadata`'s result, or what authenticating or fetching metadata raises. */
    metadata: Result<Metadata, Exc>,
    /** What attempt `j` of `GetContentFile` raises, if anything. */
    content: nat -> Option<string>,
    /** What `gdown.download_folder` raises, if anything. */
    folderFetch: Option<string>)

  const AUTH_ATTEMPTS: nat := 2

  /** `parse_drive_id(url)` for a string URL. */
  function Parsed(url: Value): Option<(string, Kind)>
  {
    if url.VStr? then ParseDriveId(url.s) else None
  }

  /**
   * `download`'s result, the request it makes and the number of
   * `GetContentFile` attempts, where `parsed` is `Parsed(url)`.
   */
  function Outcome(url: Value, parsed: Option<(string, Kind)>, outDir: string, options: Options, lib: Libraries): (Result<Value, Exc>, Request, nat)
  {
    if !(url.VStr? && url.s != "") then (Failure(Exc(ValueError, "A valid Google Drive URL must be provided")), NoRequest, 0)
    else match parsed
    case None => (Failure(Exc(ValueError, "Invalid Google Drive URL")), NoRequest, 0)
    case Some((fid, kind)) =>
      if kind == Folder then FolderOutcome(fid, outDir, lib) else FileOutcome(url.s, fid, outDir, options, lib)
  }

  /** A folder: one `download_folder` call on the folder's URL. */
  function FolderOutcome(fid: string, outDir: string, lib: Libraries): (Result<Value, Exc>, Request, nat)
  {
    if !lib.gdownAvailable then (Failure(Exc(RuntimeError, "gdown not available for folders")), NoRequest, 0)
    else
      var request := FolderRequest("https://drive.google.com/drive/folders/" + fid, outDir);
      if lib.folderFetch.None? then (Success(VBool(true)), request, 0)
      else (Failure(Exc(RuntimeError, "Failed to download folder: " + lib.folderFetch.value)), request, 0)
  }

  /** A file: gdown for a public method, otherwise PyDrive2 with up to two attempts. */
  function FileOutcome(url: string, fid: string, outDir: string, options: Options, lib: Libraries): (Result<Value, Exc>, Request, nat)
  {
    match IsPublic(options)
    case Failure(e) => (Failure(e), NoRequest, 0)
    case Success(true) =>
      if !lib.gdownAvailable then (Failure(Exc(RuntimeError, "gdown not available")), NoRequest, 0)
      else
        var request := PublicFile(url, PathJoin(outDir, ""));
        if lib.publicFetch.None? then (Success(VBool(true)), request, 0)
        else (Failure(Exc(RuntimeError, "gdown failed: " + lib.publicFetch.value)), request, 0)
    case Success(false) =>
      if !lib.pydriveAvailable then (Failure(Exc(RuntimeError, "PyDrive2 not available")), NoRequest, 0)
      else match lib.metadata
      case Failure(e) => (Failure(e), NoRequest, 0)
      case Success(meta) =>
        var name := FileName(meta, fid);
        var request := AuthenticatedFile(fid, PathJoin(outDir, name));
        var calls := StopAt(lib.content, Never, AUTH_ATTEMPTS);
        if lib.content(calls).None? then (Success(VStr(name)), request, calls)
        else (Failure(Exc(RuntimeError, "Authenticated download failed: " + lib.content(calls).value)), request, calls)
  }

  /** `GoogleDriveHandler.download(url, out_dir, options)`. */
  method Download(url: Value, outDir: string, options: Options, lib: Libraries) returns (r: Result<Value, Exc>, request: Request, calls: nat)
    ensures (r, request, calls) == Outcome(url, Parsed(url), outDir, options, lib)
  {
    if !url.VStr? || url.s == "" {
      return Failure(Exc(ValueError, "A valid Google Drive URL must be provided")), NoRequest, 0;
    }
    var parsed := ParseDriveId(url.s);
    r, request, calls := DownloadParsed(url, parsed, outDir, options, lib);
  }

  /** `download` once `parse_drive_id` has given its answer. */
  method DownloadParsed(url: Value, parsed: Option<(string, Kind)>, outDir: string, options: Options, lib: Libraries) returns (r: Result<Value, Exc>, request: Request, calls: nat)
    requires url.VStr? && url.s != ""
    ensures (r, request, calls) == Outcome(url, parsed, outDir, options, lib)
  {
    if parsed.None? {
      return Failure(Exc(ValueError, "Invalid Google Drive URL")), NoRequest, 0;
    }
    var fid := parsed.value.0;
    if parsed.value.1 == File {
      r, request, calls := DownloadFile(url.s, fid, outDir, options, lib);
    } else {
      r, request, calls := DownloadFolder(fid, outDir, lib);
    }
  }

  /** The file branch of `download`. */
  method DownloadFile(url: string, fid: string, outDir: string, options: Options, lib: Libraries) returns (r: Result<Value, Exc>, request: Request, calls: nat)
    ensures (r, request, calls) == FileOutcome(url, fid, outDir, options, lib)
  {
    request, calls := NoRequest, 0;
    var how := Get(options, "method", VStr("public"));
    if !how.VStr? {
      return Failure(Exc(AttributeError, "'" + TypeName(how) + "' object has no attribute 'startswith'")), request, calls;
    }
    if StartsWith(how.s, "public") {
      if !lib.gdownAvailable {
        return Failure(Exc(RuntimeError, "gdown not available")), request, calls;
      }
      request := PublicFile(url, PathJoin(outDir, ""));
      if lib.publicFetch.Some? {
        return Failure(Exc(RuntimeError, "gdown failed: " + lib.publicFetch.value)), request, calls;
      }
      return Success(VBool(true)), request, calls;
    }
    if !lib.pydriveAvailable {
      return Failure(Exc(RuntimeError, "PyDrive2 not available")), request, calls;
    }
    if lib.metadata.Failure? {
      return Failure(lib.metadata.error), request, calls;
    }
    var meta := lib.metadata.value;
    var name := if meta.title != "" then meta.title else if meta.originalFilename != "" then meta.originalFilename else fid;
    request := AuthenticatedFile(fid, PathJoin(outDir, name));
    var attempt := 1;
    var last := lib.content(attempt);
    while last.Some? && attempt < AUTH_ATTEMPTS
      invariant 1 <= attempt <= AUTH_ATTEMPTS
      invariant last == lib.content(attempt)
      invariant StopAt(lib.content, Never, AUTH_ATTEMPTS) == StopAt(lib.content, Never, AUTH_ATTEMPTS, attempt)
      decreases AUTH_ATTEMPTS - attempt
    {
      attempt := attempt + 1;
      last := lib.content(attempt);
    }
    calls := attempt;
    if last.Some? {
      return Failure(Exc(RuntimeError, "Authenticated download failed: " + last.value)), request, calls;
    }
    return Success(VStr(name)), request, calls;
  }

  /** The folder branch of `download`. */
  method DownloadFolder(fid: string, outDir: string, lib: Libraries) returns (r: Result<Value, Exc>, request: Request, calls: nat)
    ensures (r, request, calls) == FolderOutcome(fid, outDir, lib)
  {
    if !lib.gdownAvailable {
      return Failure(Exc(RuntimeError, "gdown not available for folders")), NoRequest, 0;
    }
    request := FolderRequest("https://drive.google.com/drive/folders/" + fid, outDir);
    if lib.folderFetch.Some? {
      return Failure(Exc(RuntimeError, "Failed to download folder: " + lib.folderFetch.value)), request, 0;
    }
    return Success(VBool(true)), request, 0;
  }

  /** A URL that is not a non-empty string, or has no id, is refused with `ValueError` before any request. */
  lemma RefusedUrls(url: Value, outDir: string, options: Options, lib: Libraries)
    requires !(url.VStr? && url.s != "") || ParseDriveId(url.s).None?
    ensures var (r, request, calls) := Outcome(url, Parsed(url), outDir, options, lib);
      r.Failure? && r.error.kind == ValueError && request == NoRequest && calls == 0
  {
  }

  /** A file goes through gdown exactly when the method is missing or a string starting with `public`. */
  lemma PublicDispatch(url: string, fid: string, outDir: string, options: Options, lib: Libraries)
    requires url != "" && lib.gdownAvailable && lib.pydriveAvailable && lib.metadata.Success?
    ensures var request := Outcome(VStr(url), Some((fid, File)), outDir, options, lib).1;
      && (request.PublicFile? <==> "method" !in options || (options["method"].VStr? && StartsWith(options["method"].s, "public")))
      && (request.AuthenticatedFile? <==> "method" in options && options["method"].VStr? && !StartsWith(options["method"].s, "public"))
  {
  }

  /**
   * The authenticated path makes one or two `GetContentFile` attempts,
   * returns the chosen file name on the first success and fails after the
   * second failure.
   */
  lemma AuthenticatedAttempts(url: string, fid: string, outDir: string, options: Options, lib: Libraries)
    requires url != "" && IsPublic(options) == Success(false) && lib.pydriveAvailable && lib.metadata.Success?
    ensures var (r, request, calls) := Outcome(VStr(url), Some((fid, File)), outDir, options, lib);
      var name := FileName(lib.metadata.value, fid);
      && calls == (if lib.content(1).None? then 1 else 2)
      && request == AuthenticatedFile(fid, PathJoin(outDir, name))
      && (r.Success? <==> lib.content(1).None? || lib.content(2).None?)
      && (r.Success? ==> r.value == VStr(name))
      && (r.Failure? ==> r.error == Exc(RuntimeError, "Authenticated download failed: " + lib.content(2).value))
  {
    TwoAttempts(lib.content);
  }

  /** A folder is fetched from its `drive/folders/` URL into the output directory. */
  lemma FolderRequestUrl(url: string, fid: string, outDir: string, options: Options, lib: Libraries)
    requires url != "" && lib.gdownAvailable
    ensures Outcome(VStr(url), Some((fid, Folder)), outDir, options, lib).1 ==
      FolderRequest("https://drive.google.com/drive/folders/" + fid, outDir)
  {
  }
}
