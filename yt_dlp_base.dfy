// `YtDlpHandler`: the shared yt-dlp handler with per-source cookies kept in
// the session store.

module YtDlpBase {
  import opened Wrappers
  import opened Text
  import opened Values
  import opened SessionStore

  const DEFAULT_OUTTMPL := "%(title)s [%(id)s].%(ext)s"
  const UNAVAILABLE := "yt-dlp not available - install it to use this handler"

  /** Where the cookie file is: a path the caller named, or the namespace's default file. */
  datatype CookiePath = Given(path: string) | InSession(at: SessionPath)

  predicate NonEmptyString(v: Value) { v.VStr? && v.s != "" }

  /**
   * `_resolve_cookie_path`: `cookiefile or cookie_path`, as the path given
   * when it is a non-empty string; otherwise the namespace's `cookies.txt`
   * unless `use_session` (default true) is falsy.
   */
  function CookieChoice(sourceKey: string, options: Options): (r: Option<CookiePath>)
    ensures NonEmptyString(Get(options, "cookiefile")) ==> r == Some(Given(Get(options, "cookiefile").s))
    ensures !Truthy(Get(options, "cookiefile")) && NonEmptyString(Get(options, "cookie_path")) ==>
      r == Some(Given(Get(options, "cookie_path").s))
    ensures Truthy(Get(options, "cookiefile")) && !Get(options, "cookiefile").VStr? ==> r.None? || r.value.InSession?
    ensures r.Some? && r.value.InSession? ==> r.value.at == SessionPath(Sanitize(sourceKey), COOKIES_FILE)
    ensures !NonEmptyString(Or(Get(options, "cookiefile"), Get(options, "cookie_path"))) && r.Some? ==>
      r == Some(InSession(SessionPath(Sanitize(sourceKey), COOKIES_FILE)))
    ensures r.None? <==>
      && !NonEmptyString(Or(Get(options, "cookiefile"), Get(options, "cookie_path")))
      && "use_session" in options && !Truthy(options["use_session"])
  {
    var override := Or(Get(options, "cookiefile"), Get(options, "cookie_path"));
    if NonEmptyString(override) then Some(Given(override.s))
    else if !Truthy(Get(options, "use_session", VBool(true))) then None
    else Some(InSession(SessionPath(Sanitize(sourceKey), COOKIES_FILE)))
  }

  /**
   * `str(cookie_path)`: a given path in pathlib's normal form, or the
   * session file under `sessionRoot`, the text of the resolved (and so
   * already normal) session root.
   */
  function CookieText(cookie: Option<CookiePath>, sessionRoot: string): (r: Option<string>)
    ensures r.Some? <==> cookie.Some?
    ensures cookie.Some? && cookie.value.Given? ==> r.value != ""
    ensures cookie.Some? && cookie.value.Given? ==> r == Some(PathStr(cookie.value.path))
    ensures cookie.Some? && cookie.value.Given? && CleanPath(cookie.value.path) ==> r == Some(cookie.value.path)
    ensures cookie.Some? && cookie.value.InSession? ==> EndsWith(r.value, cookie.value.at.filename)
  {
    match cookie
    case None => None
    case Some(Given(path)) =>
      PathStrNonEmpty(path);
      if CleanPath(path) then PathStrClean(path); Some(PathStr(path)) else Some(PathStr(path))
    case Some(InSession(p)) => Some(PathJoin(PathJoin(sessionRoot, p.namespace), p.filename))
  }

  /** The dictionary `_build_opts` starts from. */
  function Defaults(outDir: string, outtmpl: string): (r: Options)
    ensures "quiet" in r && "no_warnings" in r
  {
    map[
      "outtmpl" := VStr(PathJoin(outDir, outtmpl)),
      "noplaylist" := VBool(true),
      "quiet" := VBool(true),
      "no_warnings" := VBool(true),
      "retries" := VInt(2),
      "concurrent_fragment_downloads" := VInt(2)]
  }

  /** The options every download starts from, with `cookiefile` only when there is a cookie path. */
  function BaseOpts(outDir: string, outtmpl: string, cookie: Option<string>): (r: Options)
    ensures r.Keys == Defaults(outDir, outtmpl).Keys + (if cookie.Some? then {"cookiefile"} else {})
  {
    var base := Defaults(outDir, outtmpl);
    if cookie.Some? then base["cookiefile" := VStr(cookie.value)] else base
  }

  /** `options.get('ytdlp_opts') or {}`. */
  function Custom(options: Options): Value
  {
    Or(Get(options, "ytdlp_opts"), VDict(map[]))
  }

  /** The yt-dlp options verbosity silences or restores. */
  predicate IsQuietKey(k: string) { k == "quiet" || k == "no_warnings" }

  /**
   * The value of key `k` in the final options, by precedence: `verbose`
   * over the hook's options over the caller's over the base.
   */
  function Layered(k: string, base: Options, custom: Options, extra: Options, verbose: bool): Value
    requires k in base || k in custom || k in extra
  {
    if verbose && IsQuietKey(k) && k in base then VBool(false)
    else if k in extra then extra[k]
    else if k in custom then custom[k]
    else base[k]
  }

  /**
   * The options `_build_opts` returns: refused when the caller's
   * `ytdlp_opts` is truthy but not a dictionary; otherwise every key of the
   * three layers, each with its `Layered` value.
   */
  function Opts(outDir: string, outtmpl: string, options: Options, cookie: Option<string>, extra: Options): (r: Result<Options, Exc>)
    ensures r.Failure? <==> !Custom(options).VDict?
    ensures r.Failure? ==> DictUpdate(BaseOpts(outDir, outtmpl, cookie), Custom(options)) == Failure(r.error)
    ensures r.Success? ==>
      r.value.Keys == BaseOpts(outDir, outtmpl, cookie).Keys + Custom(options).entries.Keys + extra.Keys
  {
    var base := BaseOpts(outDir, outtmpl, cookie);
    var custom := Custom(options);
    if !custom.VDict? then Failure(DictUpdate(base, custom).error)
    else
      var verbose := Truthy(Get(options, "verbose"));
      LayersKeys(base, custom.entries, extra, verbose);
      Success(Layers(base, custom.entries, extra, verbose))
  }

  /** Every key of the three layers with its `Layered` value. */
  function Layers(base: Options, custom: Options, extra: Options, verbose: bool): Options
  {
    map k | k in base.Keys + custom.Keys + extra.Keys :: Layered(k, base, custom, extra, verbose)
  }

  /** The layered options have the keys of all three layers. */
  lemma LayersKeys(base: Options, custom: Options, extra: Options, verbose: bool)
    ensures Layers(base, custom, extra, verbose).Keys == base.Keys + custom.Keys + extra.Keys
  {
  }

  /** Applying the updates in order gives the layered options. */
  lemma {:induction false} StepsGiveLayers(base: Options, custom: Options, extra: Options, verbose: bool)
    requires "quiet" in base && "no_warnings" in base
    ensures var merged := base + custom + extra;
      Layers(base, custom, extra, verbose) ==
        if verbose then merged["quiet" := VBool(false)]["no_warnings" := VBool(false)] else merged
  {
    var merged := base + custom + extra;
    var final := if verbose then merged["quiet" := VBool(false)]["no_warnings" := VBool(false)] else merged;
    var spec := Layers(base, custom, extra, verbose);
    assert final.Keys == spec.Keys;
    forall k | k in final ensures final[k] == spec[k] {
    }
  }

  /** With nothing layered on top, the base comes through unchanged. */
  lemma {:induction false} LayersOfBase(base: Options)
    ensures Layers(base, map[], map[], false) == base
  {
    var spec := Layers(base, map[], map[], false);
    assert spec.Keys == base.Keys;
    forall k | k in base ensures spec[k] == base[k] {
    }
  }

  /**
   * What `download` makes of yt-dlp's outcome: `True` when nothing was
   * raised; otherwise a failure that is never a `DownloadError` and keeps
   * the original message at its end.  A `DownloadError` becomes a
   * `RuntimeError` naming the source; any other exception passes unchanged.
   */
  function Finish(sourceKey: string, outcome: Option<Exc>): (r: Result<bool, Exc>)
    ensures r.Success? <==> outcome.None?
    ensures r.Success? ==> r.value
    ensures r.Failure? ==> r.error.kind != DownloadError && EndsWith(r.error.message, outcome.value.message)
    ensures outcome.Some? && outcome.value.kind == DownloadError ==>
      r.error.kind == RuntimeError && StartsWith(r.error.message, "yt-dlp failed for " + sourceKey + ": ")
    ensures outcome.Some? && outcome.value.kind != DownloadError ==> r.error == outcome.value
  {
    match outcome
    case None => Success(true)
    case Some(e) =>
      if e.kind == DownloadError then Failure(Exc(RuntimeError, "yt-dlp failed for " + sourceKey + ": " + e.message))
      else Failure(e)
  }

  class YtDlpHandler {
    const sourceKey: string
    const outtmpl: string
    /** The `extra_yt_opts` hook; the base class returns `{}`. */
    const extra: Options -> Options

    /** `__init__`: the template defaults when none (or an empty one) is given; the namespace is created. */
    constructor(sourceKey: string, outtmpl: Option<string>, extra: Options -> Options, store: Store)
      requires store.Valid()
      modifies store
      ensures this.sourceKey == sourceKey && this.extra == extra
      ensures this.outtmpl == if outtmpl.Some? && outtmpl.value != "" then outtmpl.value else DEFAULT_OUTTMPL
      ensures store.Valid() && store.dirs == old(store.dirs) + {Sanitize(sourceKey)} && store.files == old(store.files)
    {
      this.sourceKey := sourceKey;
      this.outtmpl := if outtmpl.Some? && outtmpl.value != "" then outtmpl.value else DEFAULT_OUTTMPL;
      this.extra := extra;
      new;
      var _ := store.EnsureSessionDir(sourceKey);
    }

    /** `_resolve_cookie_path`: the choice, creating the namespace directory when it is the session file. */
    method ResolveCookiePath(options: Options, store: Store) returns (cookie: Option<CookiePath>)
      requires store.Valid()
      modifies store
      ensures cookie == CookieChoice(sourceKey, options)
      ensures store.Valid() && store.files == old(store.files)
      ensures store.dirs == old(store.dirs) + (if cookie.Some? && cookie.value.InSession? then {Sanitize(sourceKey)} else {})
    {
      var override := Or(Get(options, "cookiefile"), Get(options, "cookie_path"));
      if NonEmptyString(override) {
        return Some(Given(override.s));
      }
      var useSession := Get(options, "use_session", VBool(true));
      if !Truthy(useSession) {
        return None;
      }
      var p := store.DefaultCookiePath(sourceKey);
      return Some(InSession(p));
    }

    /** `_build_opts`, updating one dictionary step by step. */
    method BuildOpts(outDir: string, options: Options, cookie: Option<string>) returns (r: Result<Options, Exc>)
      ensures r == Opts(outDir, outtmpl, options, cookie, extra(options))
    {
      var opts := Defaults(outDir, outtmpl);
      if cookie.Some? {
        opts := opts["cookiefile" := VStr(cookie.value)];
      }
      ghost var base := opts;
      assert base == BaseOpts(outDir, outtmpl, cookie);
      var custom := Or(Get(options, "ytdlp_opts"), VDict(map[]));
      var updated := DictUpdate(opts, custom);
      if updated.Failure? {
        return Failure(updated.error);
      }
      ghost var verbose := Truthy(Get(options, "verbose"));
      StepsGiveLayers(base, custom.entries, extra(options), verbose);
      opts := updated.value;
      assert opts == base + custom.entries;
      opts := opts + extra(options);
      if Truthy(Get(options, "verbose")) {
        opts := opts["quiet" := VBool(false)];
        opts := opts["no_warnings" := VBool(false)];
      }
      assert opts == Layers(base, custom.entries, extra(options), verbose);
      r := Success(opts);
    }

    /**
     * `download(url, out_dir, options)`. `available` says whether yt-dlp
     * could be imported, `sessionRoot` is where the session area lives, and
     * `fetch` is what `YoutubeDL(opts).download([url])` raises, if anything.
     * Also returned: the options yt-dlp was given.
     */
    method Download(url: string, outDir: string, options: Option<Options>, available: bool, sessionRoot: string,
                    fetch: Options -> Option<Exc>, store: Store)
      returns (r: Result<bool, Exc>, sent: Option<Options>)
      requires store.Valid()
      modifies store
      ensures store.Valid() && store.files == old(store.files)
      ensures !available ==> r == Failure(Exc(RuntimeError, UNAVAILABLE)) && sent.None? && store.dirs == old(store.dirs)
      ensures available ==>
        var o := OrEmpty(options);
        var cookie := CookieChoice(sourceKey, o);
        var built := Opts(outDir, outtmpl, o, CookieText(cookie, sessionRoot), extra(o));
        && store.dirs == old(store.dirs) + (if cookie.Some? && cookie.value.InSession? then {Sanitize(sourceKey)} else {})
        && (built.Failure? ==> r == Failure(built.error) && sent.None?)
        && (built.Success? ==> sent == Some(built.value) && r == Finish(sourceKey, fetch(built.value)))
    {
      if !available {
        return Failure(Exc(RuntimeError, UNAVAILABLE)), None;
      }
      var o := OrEmpty(options);
      var cookie := ResolveCookiePath(o, store);
      var built := BuildOpts(outDir, o, CookieText(cookie, sessionRoot));
      if built.Failure? {
        return Failure(built.error), None;
      }
      sent := Some(built.value);
      var raised := fetch(built.value);
      if raised.None? {
        r := Success(true);
      } else if raised.value.kind == DownloadError {
        r := Failure(Exc(RuntimeError, "yt-dlp failed for " + sourceKey + ": " + raised.value.message));
      } else {
        r := Failure(raised.value);
      }
    }
  }

  /** The wrapped message in full: the prefix naming the source, then the original message. */
  lemma FinishWrapped(sourceKey: string, message: string)
    ensures Finish(sourceKey, Some(Exc(DownloadError, message))) ==
      Failure(Exc(RuntimeError, "yt-dlp failed for " + sourceKey + ": " + message))
  {
  }

  /** A given cookie path is normalized by pathlib: `./n` is passed as `n` and `a//b` as `a/b`. */
  lemma GivenCookieNormalized(sessionRoot: string, n: string, a: string, b: string)
    requires CleanPath(n) && PlainName(a) && PlainName(b)
    ensures CookieText(Some(Given("./" + n)), sessionRoot) == Some(n)
    ensures CookieText(Some(Given(a + "//" + b)), sessionRoot) == Some(a + "/" + b)
  {
    PathStrDot(n);
    PathStrDoubled(a, b);
  }

  /** A key nobody overrides keeps its base value. */
  lemma BaseValueKept(k: string, base: Options, custom: Options, extra: Options, verbose: bool)
    requires k in base && k !in custom && k !in extra && !(verbose && IsQuietKey(k))
    ensures Layered(k, base, custom, extra, verbose) == base[k]
  {
  }

  /** The caller's `ytdlp_opts` override the base values, and the hook's options override both. */
  lemma OverridePrecedence(k: string, base: Options, custom: Options, extra: Options, verbose: bool)
    requires k in base || k in custom || k in extra
    requires !(verbose && IsQuietKey(k) && k in base)
    ensures k in extra ==> Layered(k, base, custom, extra, verbose) == extra[k]
    ensures k !in extra && k in custom ==> Layered(k, base, custom, extra, verbose) == custom[k]
  {
  }

  /** A truthy `verbose` turns `quiet` and `no_warnings` off, whatever the caller or the hook asked. */
  lemma {:induction false} VerboseWins(outDir: string, outtmpl: string, options: Options, cookie: Option<string>, extra: Options)
    requires Truthy(Get(options, "verbose"))
    requires Opts(outDir, outtmpl, options, cookie, extra).Success?
    ensures var opts := Opts(outDir, outtmpl, options, cookie, extra).value;
      "quiet" in opts && opts["quiet"] == VBool(false) && "no_warnings" in opts && opts["no_warnings"] == VBool(false)
  {
    var base := BaseOpts(outDir, outtmpl, cookie);
    assert "quiet" in base && "no_warnings" in base;
  }

  /** Without overrides the options are exactly the base values. */
  lemma {:induction false} PlainOptions(outDir: string, outtmpl: string, cookie: Option<string>)
    ensures Opts(outDir, outtmpl, map[], cookie, map[]) == Success(BaseOpts(outDir, outtmpl, cookie))
  {
    LayersOfBase(BaseOpts(outDir, outtmpl, cookie));
  }

  /** The defaults: the joined template, single videos, quiet, two retries and two concurrent fragments. */
  lemma DefaultValues(outDir: string, outtmpl: string)
    ensures Defaults(outDir, outtmpl)["outtmpl"] == VStr(PathJoin(outDir, outtmpl))
    ensures Defaults(outDir, outtmpl)["noplaylist"] == VBool(true)
    ensures Defaults(outDir, outtmpl)["quiet"] == VBool(true) && Defaults(outDir, outtmpl)["no_warnings"] == VBool(true)
    ensures Defaults(outDir, outtmpl)["retries"] == VInt(2) && Defaults(outDir, outtmpl)["concurrent_fragment_downloads"] == VInt(2)
    ensures "cookiefile" !in Defaults(outDir, outtmpl)
  {
    DefaultTemplate(outDir, outtmpl);
    DefaultNoCookie(outDir, outtmpl);
    DefaultPlaylist(outDir, outtmpl);
    DefaultQuiet(outDir, outtmpl);
    DefaultRetries(outDir, outtmpl);
  }

  lemma DefaultTemplate(outDir: string, outtmpl: string)
    ensures Defaults(outDir, outtmpl)["outtmpl"] == VStr(PathJoin(outDir, outtmpl))
  {
    assert "outtmpl"[0] == 'o' && "retries"[0] == 'r';
    assert |"outtmpl"| == 7 && |"noplaylist"| == 10 && |"quiet"| == 5 && |"no_warnings"| == 11;
  }

  lemma DefaultNoCookie(outDir: string, outtmpl: string)
    ensures "cookiefile" !in Defaults(outDir, outtmpl)
  {
  }

  lemma DefaultPlaylist(outDir: string, outtmpl: string)
    ensures Defaults(outDir, outtmpl)["noplaylist"] == VBool(true)
  {
  }

  lemma DefaultQuiet(outDir: string, outtmpl: string)
    ensures Defaults(outDir, outtmpl)["quiet"] == VBool(true) && Defaults(outDir, outtmpl)["no_warnings"] == VBool(true)
  {
  }

  lemma DefaultRetries(outDir: string, outtmpl: string)
    ensures Defaults(outDir, outtmpl)["retries"] == VInt(2) && Defaults(outDir, outtmpl)["concurrent_fragment_downloads"] == VInt(2)
  {
  }

  /** `cookiefile` is set exactly when there is a cookie path, to its text. */
  lemma CookieEntry(outDir: string, outtmpl: string, cookie: Option<string>)
    ensures "cookiefile" in BaseOpts(outDir, outtmpl, cookie) <==> cookie.Some?
    ensures cookie.Some? ==> BaseOpts(outDir, outtmpl, cookie)["cookiefile"] == VStr(cookie.value)
  {
    DefaultValues(outDir, outtmpl);
  }

  /** With no cookie options at all, the session's cookie file is used. */
  lemma SessionCookiesByDefault(sourceKey: string)
    ensures CookieChoice(sourceKey, map[]) == Some(InSession(SessionPath(Sanitize(sourceKey), COOKIES_FILE)))
  {
  }
}
