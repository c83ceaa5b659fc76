/**
 * `multidownloader/session_store.py`: per-source session namespaces under
 * the `.sessions` root, and the files kept in them.
 *
 * The disk is an in-memory map from (namespace, file name) to an entry.
 * Text goes through a codec (UTF-8 and `json.dump`/`json.load`), given as
 * function values; `Sound` is what the model assumes of that codec.  Files
 * are opened in text mode, so reading translates `\r\n` and a lone `\r`
 * to `\n` (`Universal`); writing on a POSIX system stores `\n` as it is.  The
 * pure functions below are the meaning of each operation; the `Store` class
 * holds the mutable state and its methods are proved against them.
 */
module SessionStore {
  import opened Wrappers
  import opened Text
  import opened Values

  /** `ch.lower() if ch.isalnum() else '_'`. */
  function SanitizeChar(c: char): char
  {
    if IsAlnum(c) then LowerChar(c) else '_'
  }

  predicate IsUnderscore(c: char) { c == '_' }

  /** The character map of `_sanitize`, before the strip. */
  function MapSanitize(name: string): string
  {
    seq(|name|, i requires 0 <= i < |name| => SanitizeChar(name[i]))
  }

  /** A character `_sanitize` may put in a namespace: a lower-case ASCII letter or digit, or `_`. */
  predicate NamespaceChar(c: char)
  {
    (IsAlnum(c) && !('A' <= c <= 'Z')) || c == '_'
  }

  /** `_sanitize`: map every character, strip `_` at both ends, fall back to `default`. */
  function Sanitize(name: string): string
  {
    var cleaned := Trim(MapSanitize(name), IsUnderscore);
    if cleaned == "" then "default" else cleaned
  }

  /**
   * A namespace is never empty, holds only lower-case alphanumerics and
   * `_`, and neither starts nor ends with `_`.
   */
  lemma SanitizeShape(name: string)
    ensures var r := Sanitize(name);
      && r != ""
      && (forall i :: 0 <= i < |r| ==> NamespaceChar(r[i]))
      && r[0] != '_' && r[|r| - 1] != '_'
  {
    var m := MapSanitize(name);
    var cleaned := Trim(m, IsUnderscore);
    TrimShape(m, IsUnderscore);
    if cleaned != "" {
      CleanedChars(m, cleaned);
    } else {
      DefaultNamespace();
    }
  }

  /** A piece of mapped text holds only namespace characters. */
  lemma CleanedChars(m: string, cleaned: string)
    requires forall i :: 0 <= i < |m| ==> NamespaceChar(m[i])
    requires exists k :: OccursAt(m, cleaned, k)
    ensures forall i :: 0 <= i < |cleaned| ==> NamespaceChar(cleaned[i])
  {
    var k :| OccursAt(m, cleaned, k);
    forall i | 0 <= i < |cleaned| ensures NamespaceChar(cleaned[i]) {
      assert cleaned[i] == m[k + i];
    }
  }

  /** The fallback namespace `default` has the same shape. */
  lemma DefaultNamespace()
    ensures forall i :: 0 <= i < |"default"| ==> NamespaceChar("default"[i])
  {
  }

  /** Text with no ASCII letter or digit sanitizes to `default`. */
  lemma SanitizeNoAlnum(name: string)
    requires forall i :: 0 <= i < |name| ==> !IsAlnum(name[i])
    ensures Sanitize(name) == "default"
  {
    var m := MapSanitize(name);
    assert forall i :: 0 <= i < |m| ==> m[i] == '_';
    TrimAllDropped(m, IsUnderscore);
  }

  /**
   * With at least one ASCII letter or digit, the namespace is the mapped
   * text with only its outer `_` removed: the lower-cased letters and digits
   * all survive, in order, and inner runs of `_` are not collapsed.
   */
  lemma SanitizeKeepsAlnum(name: string, j: int)
    requires 0 <= j < |name| && IsAlnum(name[j])
    ensures exists k :: OccursAt(MapSanitize(name), Sanitize(name), k)
    ensures Sanitize(name) == Trim(MapSanitize(name), IsUnderscore)
  {
    var m := MapSanitize(name);
    assert m[j] == LowerChar(name[j]) && IsAlnum(m[j]);
    TrimDropsOnlyDropped(m, IsUnderscore, j);
    var cleaned := Trim(m, IsUnderscore);
    assert Sanitize(name) == cleaned;
    TrimShape(m, IsUnderscore);
    var k :| OccursAt(m, cleaned, k);
  }

  /** A character that is not dropped keeps `strip` from emptying the text. */
  lemma TrimDropsOnlyDropped(s: string, drop: char -> bool, j: int)
    requires 0 <= j < |s| && !drop(s[j])
    ensures Trim(s, drop) != ""
  {
    var t := TrimStart(s, drop);
    assert |s| - |t| <= j;
    assert t[j - (|s| - |t|)] == s[j];
    var r := TrimEnd(t, drop);
    assert |r| > j - (|s| - |t|);
  }

  /** Namespace text maps to itself character by character. */
  lemma MapSanitizeFixes(r: string)
    requires forall i :: 0 <= i < |r| ==> NamespaceChar(r[i])
    ensures MapSanitize(r) == r
  {
  }

  /** `_sanitize` is idempotent. */
  lemma SanitizeIdempotent(name: string)
    ensures Sanitize(Sanitize(name)) == Sanitize(name)
  {
    var r := Sanitize(name);
    SanitizeShape(name);
    MapSanitizeFixes(r);
    TrimStartKeeps(r, IsUnderscore);
    TrimEndKeeps(r, IsUnderscore);
  }

  lemma MapGoogleDrive() ensures MapSanitize("Google Drive") == "google_drive"
  {
  }

  lemma TrimGoogleDrive() ensures Trim("google_drive", IsUnderscore) == "google_drive"
  {
    TrimStartKeeps("google_drive", IsUnderscore);
    TrimEndKeeps("google_drive", IsUnderscore);
  }

  /** The space becomes `_` and the capitals are lowered: `Google Drive` is `google_drive`. */
  lemma SanitizeGoogleDrive() ensures Sanitize("Google Drive") == "google_drive"
  {
    MapGoogleDrive();
    TrimGoogleDrive();
  }

  lemma MapDashes() ensures MapSanitize("a--b") == "a__b"
  {
  }

  lemma TrimDashes() ensures Trim("a__b", IsUnderscore) == "a__b"
  {
    TrimStartKeeps("a__b", IsUnderscore);
    TrimEndKeeps("a__b", IsUnderscore);
  }

  /** Inner runs are kept one for one: `a--b` is `a__b`. */
  lemma SanitizeDashes() ensures Sanitize("a--b") == "a__b"
  {
    MapDashes();
    TrimDashes();
  }

  /** A stored file: its namespace directory under the session root, and its name in it. */
  datatype SessionPath = SessionPath(namespace: string, filename: string)

  /**
   * What a path names on disk: a regular file with its bytes, a regular
   * file whose permissions refuse both reading and writing, or a directory.
   */
  datatype Entry = File(data: seq<byte>) | Locked | Directory

  type Files = map<SessionPath, Entry>

  const COOKIES_FILE := "cookies.txt"
  const METADATA_FILE := "meta.json"
  const SESSION_FILE := "session.bin"

  /** `path_for(source, filename)`: the file `filename` in the namespace `_sanitize(source)`. */
  function PathOf(source: string, filename: string): SessionPath
  {
    SessionPath(Sanitize(source), filename)
  }

  /**
   * Two sources name the same file exactly when they sanitize alike and
   * the file names agree; so sources that sanitize alike share one namespace.
   */
  lemma SharedNamespace(a: string, b: string, f: string, g: string)
    ensures PathOf(a, f) == PathOf(b, g) <==> Sanitize(a) == Sanitize(b) && f == g
  {
  }

  /** UTF-8 and JSON, as the store uses them; they are outside the model. */
  datatype Codec = Codec(
    encodeText: string -> seq<byte>,
    decodeText: seq<byte> -> Option<string>,
    dumpJson: Json -> string,
    loadJson: string -> Option<Json>)

  /**
   * UTF-8 decodes what it encoded (a Dafny `char` is a Unicode scalar value,
   * so every string encodes), and `json.dump` of a well-formed value writes
   * text without a carriage return (one inside a string is escaped) that
   * `json.load` parses back to the value.
   */
  ghost predicate Sound(codec: Codec)
  {
    && (forall t :: codec.decodeText(codec.encodeText(t)) == Some(t))
    && (forall j :: WellFormed(j) ==> '\r' !in codec.dumpJson(j) && codec.loadJson(codec.dumpJson(j)) == Some(j))
  }

  /** Universal newlines, as text-mode reading applies them: `\r\n` and a lone `\r` each become `\n`. */
  function Universal(s: string): string
    decreases |s|
  {
    if s == [] then []
    else if s[0] == '\r' then ['\n'] + Universal(if |s| > 1 && s[1] == '\n' then s[2..] else s[1..])
    else [s[0]] + Universal(s[1..])
  }

  /** Text without a carriage return reads as it was written. */
  lemma {:induction false} UniversalPlain(s: string)
    requires '\r' !in s
    ensures Universal(s) == s
    decreases |s|
  {
    if s != [] {
      assert s == [s[0]] + s[1..];
      UniversalPlain(s[1..]);
    }
  }

  /** No carriage return survives the translation, so translating twice changes nothing more. */
  lemma {:induction false} UniversalNoReturn(s: string)
    ensures '\r' !in Universal(s)
    ensures Universal(Universal(s)) == Universal(s)
    decreases |s|
  {
    if s != [] {
      if s[0] == '\r' {
        UniversalNoReturn(if |s| > 1 && s[1] == '\n' then s[2..] else s[1..]);
      } else {
        UniversalNoReturn(s[1..]);
      }
    }
    UniversalPlain(Universal(s));
  }

  /** A Windows line end and an old Mac line end both read as `\n`; `\n\r` is two line ends. */
  lemma UniversalExamples()
    ensures Universal("a\r\nb") == "a\nb"
    ensures Universal("a\rb") == "a\nb"
    ensures Universal("\n\r") == "\n\n"
  {
  }

  /** `read_text`: `None` when the path is missing, is not a readable file, or does not decode. */
  function TextAt(files: Files, codec: Codec, p: SessionPath): Option<string>
  {
    if p !in files || !files[p].File? then None
    else
      var text := codec.decodeText(files[p].data);
      if text.None? then None else Some(Universal(text.value))
  }

  /** `read_json`: the text of the file, parsed; `None` on every failure. */
  function JsonAt(files: Files, codec: Codec, p: SessionPath): Option<Json>
  {
    match TextAt(files, codec, p)
    case None => None
    case Some(text) => codec.loadJson(text)
  }

  /** `load_default_session`: `None` for a missing path, the bytes of a file, and the error of an unreadable one. */
  function LoadBytes(files: Files, p: SessionPath): Result<Option<seq<byte>>, Exc>
  {
    if p !in files then Success(None)
    else match files[p]
      case File(data) => Success(Some(data))
      case Locked => Failure(Exc(OSError, "Permission denied"))
      case Directory => Failure(Exc(OSError, "Is a directory"))
  }

  /** Opening `p` for writing: it fails on a directory or a locked file, and otherwise replaces the contents. */
  function Write(files: Files, p: SessionPath, data: seq<byte>): (r: Result<Files, Exc>)
    ensures r.Failure? <==> p in files && !files[p].File?
    ensures r.Failure? ==> r.error.kind == OSError
    ensures r.Success? ==> r.value.Keys == files.Keys + {p} && r.value[p] == File(data)
    ensures r.Success? ==> forall q :: q in files && q != p ==> r.value[q] == files[q]
  {
    if p in files && files[p].Directory? then Failure(Exc(OSError, "Is a directory"))
    else if p in files && files[p].Locked? then Failure(Exc(OSError, "Permission denied"))
    else Success(files[p := File(data)])
  }

  /** The bytes `write_text` stores: the UTF-8 encoding of the text. */
  function TextBytes(codec: Codec, text: string): seq<byte>
  {
    codec.encodeText(text)
  }

  /** The bytes `write_json` stores: the encoding of the `json.dump` text. */
  function JsonBytes(codec: Codec, data: Json): seq<byte>
  {
    codec.encodeText(codec.dumpJson(data))
  }

  /** Python's `if suffix and not name.endswith(suffix)`: the file is skipped. */
  predicate SuffixSkips(suffix: Option<string>, name: string)
  {
    suffix.Some? && suffix.value != "" && !EndsWith(name, suffix.value)
  }

  /** Whether `is_file()` holds: a regular file, readable or not. */
  predicate IsRegular(e: Entry) { e.File? || e.Locked? }

  /** `list_files`: the name-to-path map of the regular files of a namespace, filtered by suffix. */
  function Listing(files: Files, namespace: string, suffix: Option<string>): map<string, SessionPath>
  {
    map p | p in files && p.namespace == namespace && IsRegular(files[p]) && !SuffixSkips(suffix, p.filename)
      :: p.filename := p
  }

  /**
   * Text that was written reads back with its line ends translated, and so
   * unchanged when it holds no carriage return.
   */
  lemma ReadAfterWriteText(files: Files, codec: Codec, p: SessionPath, text: string)
    requires Sound(codec)
    requires Write(files, p, TextBytes(codec, text)).Success?
    ensures TextAt(Write(files, p, TextBytes(codec, text)).value, codec, p) == Some(Universal(text))
    ensures '\r' !in text ==> TextAt(Write(files, p, TextBytes(codec, text)).value, codec, p) == Some(text)
  {
    if '\r' !in text {
      UniversalPlain(text);
    }
  }

  /** A well-formed JSON value that was written reads back unchanged. */
  lemma ReadAfterWriteJson(files: Files, codec: Codec, p: SessionPath, data: Json)
    requires Sound(codec) && WellFormed(data)
    requires Write(files, p, JsonBytes(codec, data)).Success?
    ensures JsonAt(Write(files, p, JsonBytes(codec, data)).value, codec, p) == Some(data)
  {
    var after := Write(files, p, JsonBytes(codec, data)).value;
    UniversalPlain(codec.dumpJson(data));
    assert TextAt(after, codec, p) == Some(codec.dumpJson(data));
  }

  /** Bytes that were written load back unchanged. */
  lemma LoadAfterWrite(files: Files, p: SessionPath, data: seq<byte>)
    requires Write(files, p, data).Success?
    ensures LoadBytes(Write(files, p, data).value, p) == Success(Some(data))
  {
  }

  /** A write leaves what every other path reads, loads and lists as it was. */
  lemma WriteFrame(files: Files, codec: Codec, p: SessionPath, q: SessionPath, data: seq<byte>)
    requires Write(files, p, data).Success? && q != p
    ensures var after := Write(files, p, data).value;
      && TextAt(after, codec, q) == TextAt(files, codec, q)
      && JsonAt(after, codec, q) == JsonAt(files, codec, q)
      && LoadBytes(after, q) == LoadBytes(files, q)
  {
  }

  /**
   * `read_text` and `read_json` never raise: whatever sits at the path,
   * failure is `None`.  Text is read only from a readable file whose bytes
   * decode, and JSON only where text was read.
   */
  lemma ReadsSwallowErrors(files: Files, codec: Codec, p: SessionPath)
    ensures TextAt(files, codec, p).Some? ==>
      p in files && files[p].File? && codec.decodeText(files[p].data).Some?
      && TextAt(files, codec, p).value == Universal(codec.decodeText(files[p].data).value)
    ensures JsonAt(files, codec, p).Some? ==> TextAt(files, codec, p).Some?
    ensures p in files && !files[p].File? ==> TextAt(files, codec, p).None? && JsonAt(files, codec, p).None?
  {
  }

  /**
   * `load_default_session` gives `None` exactly for a missing path and the
   * bytes of a readable file, and raises an `OSError` exactly where reading
   * is refused.
   */
  lemma LoadBytesOutcomes(files: Files, p: SessionPath)
    ensures LoadBytes(files, p) == Success(None) <==> p !in files
    ensures LoadBytes(files, p).Failure? <==> p in files && !files[p].File?
    ensures LoadBytes(files, p).Failure? ==> LoadBytes(files, p).error.kind == OSError
    ensures LoadBytes(files, p).Success? && LoadBytes(files, p).value.Some? ==>
      p in files && files[p].File? && LoadBytes(files, p).value.value == files[p].data
  {
  }

  /** Without an entry in a namespace, that namespace lists nothing. */
  lemma ListingOutsideDirs(files: Files, dirs: set<string>, namespace: string, suffix: Option<string>)
    requires forall p :: p in files ==> p.namespace in dirs
    requires namespace !in dirs
    ensures Listing(files, namespace, suffix) == map[]
  {
    assert forall name :: name !in Listing(files, namespace, suffix) by {
      forall name ensures name !in Listing(files, namespace, suffix) {
        ListingSpec(files, namespace, suffix, name);
      }
    }
  }

  /**
   * A name is listed exactly when a regular file of that name is in the
   * namespace and the suffix, when one is given, ends it.
   */
  lemma ListingSpec(files: Files, namespace: string, suffix: Option<string>, name: string)
    ensures var m := Listing(files, namespace, suffix);
      && (name in m <==>
          SessionPath(namespace, name) in files && IsRegular(files[SessionPath(namespace, name)])
          && (suffix.None? || suffix.value == "" || EndsWith(name, suffix.value)))
      && (name in m ==> m[name] == SessionPath(namespace, name))
  {
  }

  /**
   * The session area: the namespace directories that exist and the
   * entries inside them.
   */
  class Store {
    var dirs: set<string>
    var files: Files
    const codec: Codec

    /** Every entry lives in a namespace directory that exists. */
    ghost predicate Valid()
      reads this
    {
      forall p :: p in files ==> p.namespace in dirs
    }

    /** The session area as found on disk: its namespace directories and their entries. */
    constructor(codec: Codec, dirs: set<string>, files: Files)
      requires forall p :: p in files ==> p.namespace in dirs
      ensures this.codec == codec && this.dirs == dirs && this.files == files
      ensures Valid()
    {
      this.codec := codec;
      this.dirs := dirs;
      this.files := files;
    }

    /** `ensure_session_dir`: create the namespace directory if needed and return it. */
    method EnsureSessionDir(source: string) returns (namespace: string)
      requires Valid()
      modifies this
      ensures Valid()
      ensures namespace == Sanitize(source)
      ensures dirs == old(dirs) + {namespace} && files == old(files)
    {
      namespace := Sanitize(source);
      dirs := dirs + {namespace};
    }

    /** `path_for`: the path of `filename` in the source's namespace, which now exists. */
    method PathFor(source: string, filename: string) returns (p: SessionPath)
      requires Valid()
      modifies this
      ensures Valid()
      ensures p == PathOf(source, filename)
      ensures dirs == old(dirs) + {p.namespace} && files == old(files)
    {
      var namespace := EnsureSessionDir(source);
      p := SessionPath(namespace, filename);
    }

    /** `read_json`. */
    method ReadJson(source: string, filename: string) returns (r: Option<Json>)
      requires Valid()
      modifies this
      ensures Valid()
      ensures r == JsonAt(files, codec, PathOf(source, filename))
      ensures dirs == old(dirs) + {Sanitize(source)} && files == old(files)
    {
      var p := PathFor(source, filename);
      if p !in files {
        return None;
      }
      match files[p]
      case File(data) =>
        var text := codec.decodeText(data);
        if text.None? {
          return None;
        }
        r := codec.loadJson(Universal(text.value));
      case _ =>
        r := None;
    }

    /** Store `bytes` at `p`, or report why the file cannot be opened for writing. */
    method Put(p: SessionPath, bytes: seq<byte>) returns (r: Result<SessionPath, Exc>)
      requires Valid() && p.namespace in dirs
      modifies this
      ensures Valid()
      ensures dirs == old(dirs)
      ensures var w := Write(old(files), p, bytes);
        && (w.Success? ==> files == w.value && r == Success(p))
        && (w.Failure? ==> files == old(files) && r == Failure(w.error))
    {
      var w := Write(files, p, bytes);
      if w.Failure? {
        return Failure(w.error);
      }
      files := w.value;
      r := Success(p);
    }

    /** `write_json`: dump the value as JSON text into the file and return its path. */
    method WriteJson(source: string, filename: string, data: Json) returns (r: Result<SessionPath, Exc>)
      requires Valid()
      modifies this
      ensures Valid()
      ensures dirs == old(dirs) + {Sanitize(source)}
      ensures var w := Write(old(files), PathOf(source, filename), JsonBytes(codec, data));
        && (w.Success? ==> files == w.value && r == Success(PathOf(source, filename)))
        && (w.Failure? ==> files == old(files) && r == Failure(w.error))
    {
      var p := PathFor(source, filename);
      r := Put(p, JsonBytes(codec, data));
    }

    /** `write_binary`: store the bytes as they are and return the path. */
    method WriteBinary(source: string, filename: string, data: seq<byte>) returns (r: Result<SessionPath, Exc>)
      requires Valid()
      modifies this
      ensures Valid()
      ensures dirs == old(dirs) + {Sanitize(source)}
      ensures var w := Write(old(files), PathOf(source, filename), data);
        && (w.Success? ==> files == w.value && r == Success(PathOf(source, filename)))
        && (w.Failure? ==> files == old(files) && r == Failure(w.error))
    {
      var p := PathFor(source, filename);
      r := Put(p, data);
    }

    /** `read_text`. */
    method ReadText(source: string, filename: string) returns (r: Option<string>)
      requires Valid()
      modifies this
      ensures Valid()
      ensures r == TextAt(files, codec, PathOf(source, filename))
      ensures dirs == old(dirs) + {Sanitize(source)} && files == old(files)
    {
      var p := PathFor(source, filename);
      if p !in files {
        return None;
      }
      match files[p]
      case File(data) =>
        var text := codec.decodeText(data);
        r := if text.None? then None else Some(Universal(text.value));
      case _ =>
        r := None;
    }

    /** `write_text`: store the UTF-8 encoding of the text and return the path. */
    method WriteText(source: string, filename: string, text: string) returns (r: Result<SessionPath, Exc>)
      requires Valid()
      modifies this
      ensures Valid()
      ensures dirs == old(dirs) + {Sanitize(source)}
      ensures var w := Write(old(files), PathOf(source, filename), TextBytes(codec, text));
        && (w.Success? ==> files == w.value && r == Success(PathOf(source, filename)))
        && (w.Failure? ==> files == old(files) && r == Failure(w.error))
    {
      var p := PathFor(source, filename);
      r := Put(p, TextBytes(codec, text));
    }

    /** `list_files`: walk the namespace directory and collect its regular files, filtered by suffix. */
    method ListFiles(source: string, suffix: Option<string>) returns (listing: map<string, SessionPath>)
      requires Valid()
      modifies this
      ensures Valid()
      ensures listing == Listing(files, Sanitize(source), suffix)
      ensures Sanitize(source) !in old(dirs) ==> listing == map[]
      ensures dirs == old(dirs) + {Sanitize(source)} && files == old(files)
    {
      var namespace := EnsureSessionDir(source);
      var children := set p | p in files && p.namespace == namespace :: p.filename;
      var seen: set<string> := {};
      listing := map[];
      while children != {}
        invariant seen !! children
        invariant forall name :: SessionPath(namespace, name) in files ==> name in seen || name in children
        invariant forall name :: name in seen + children ==> SessionPath(namespace, name) in files
        invariant forall name :: name in listing <==> name in seen && name in Listing(files, namespace, suffix)
        invariant forall name :: name in listing ==> listing[name] == SessionPath(namespace, name)
        decreases children
      {
        var name :| name in children;
        var child := SessionPath(namespace, name);
        if IsRegular(files[child]) && !SuffixSkips(suffix, name) {
          listing := listing[name := child];
        }
        seen := seen + {name};
        children := children - {name};
      }
      if namespace !in old(dirs) {
        ListingOutsideDirs(files, old(dirs), namespace, suffix);
      }
    }

    /** `default_cookie_path`: `cookies.txt` in the source's namespace. */
    method DefaultCookiePath(source: string) returns (p: SessionPath)
      requires Valid()
      modifies this
      ensures Valid()
      ensures p == SessionPath(Sanitize(source), COOKIES_FILE)
      ensures dirs == old(dirs) + {Sanitize(source)} && files == old(files)
    {
      p := PathFor(source, COOKIES_FILE);
    }

    /** `default_metadata_path`: `meta.json` in the source's namespace. */
    method DefaultMetadataPath(source: string) returns (p: SessionPath)
      requires Valid()
      modifies this
      ensures Valid()
      ensures p == SessionPath(Sanitize(source), METADATA_FILE)
      ensures dirs == old(dirs) + {Sanitize(source)} && files == old(files)
    {
      p := PathFor(source, METADATA_FILE);
    }

    /** `load_default_session`: `None` for a missing file; a read error is not caught. */
    method LoadDefaultSession(source: string, filename: string := SESSION_FILE) returns (r: Result<Option<seq<byte>>, Exc>)
      requires Valid()
      modifies this
      ensures Valid()
      ensures r == LoadBytes(files, PathOf(source, filename))
      ensures dirs == old(dirs) + {Sanitize(source)} && files == old(files)
    {
      var p := PathFor(source, filename);
      if p !in files {
        return Success(None);
      }
      match files[p]
      case File(data) =>
        r := Success(Some(data));
      case Locked =>
        r := Failure(Exc(OSError, "Permission denied"));
      case Directory =>
        r := Failure(Exc(OSError, "Is a directory"));
    }

    /** `write_default_session`: `write_binary` under the default session file name. */
    method WriteDefaultSession(source: string, data: seq<byte>, filename: string := SESSION_FILE) returns (r: Result<SessionPath, Exc>)
      requires Valid()
      modifies this
      ensures Valid()
      ensures dirs == old(dirs) + {Sanitize(source)}
      ensures var w := Write(old(files), PathOf(source, filename), data);
        && (w.Success? ==> files == w.value && r == Success(PathOf(source, filename)))
        && (w.Failure? ==> files == old(files) && r == Failure(w.error))
    {
      r := WriteBinary(source, filename, data);
    }
  }
}
