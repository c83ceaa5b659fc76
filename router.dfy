/**
 * Source routing of `multidownloader/batch.py`: the supported source names,
 * the ordered alias table, `match_alias` and `detect_handler`.
 */
module Router {
  import opened Wrappers
  import opened Text

  const GOOGLE_DRIVE := "Google Drive"
  const INSTAGRAM := "Instagram"
  const TIKTOK := "TikTok"
  const THREADS := "Threads"
  const TWITTER := "Twitter"
  const REDDIT := "Reddit"
  const FACEBOOK := "Facebook"
  const YOUTUBE := "YouTube"

  const SUPPORTED_SOURCES: set<string> :=
    {GOOGLE_DRIVE, INSTAGRAM, TIKTOK, THREADS, TWITTER, REDDIT, FACEBOOK, YOUTUBE}

  /** (substring, source) rules, tried in this order; the first contained substring wins. */
  const ALIAS_MAP: seq<(string, string)> := [
    ("drive.google.com", GOOGLE_DRIVE),
    ("docs.google.com", GOOGLE_DRIVE),
    ("googledrive", GOOGLE_DRIVE),
    ("googleusercontent", GOOGLE_DRIVE),
    ("instagram", INSTAGRAM),
    ("instagr", INSTAGRAM),
    ("ddinstagram", INSTAGRAM),
    ("threads", THREADS),
    ("tiktok", TIKTOK),
    ("douyin", TIKTOK),
    ("twitter", TWITTER),
    ("x.com", TWITTER),
    ("fxtwitter", TWITTER),
    ("vxtwitter", TWITTER),
    ("reddit", REDDIT),
    ("redd.it", REDDIT),
    ("facebook", FACEBOOK),
    ("fb.watch", FACEBOOK),
    ("fbcdn", FACEBOOK),
    ("youtube", YOUTUBE),
    ("youtu.be", YOUTUBE),
    ("youtubekids", YOUTUBE)
  ]

  /** Index of the first alias rule at or after `from` whose substring occurs in `value`. */
  function FirstAlias(value: string, from: nat := 0): (r: Option<nat>)
    requires from <= |ALIAS_MAP|
    ensures r.Some? ==> from <= r.value < |ALIAS_MAP| && Contains(value, ALIAS_MAP[r.value].0)
    ensures r.Some? ==> forall k :: from <= k < r.value ==> !Contains(value, ALIAS_MAP[k].0)
    ensures r.None? ==> forall k :: from <= k < |ALIAS_MAP| ==> !Contains(value, ALIAS_MAP[k].0)
    decreases |ALIAS_MAP| - from
  {
    if from == |ALIAS_MAP| then None
    else if Contains(value, ALIAS_MAP[from].0) then Some(from)
    else FirstAlias(value, from + 1)
  }

  /** Rule `k` is the first rule whose substring occurs in `value`. */
  ghost predicate IsFirstAlias(value: string, k: int)
  {
    && 0 <= k < |ALIAS_MAP|
    && Contains(value, ALIAS_MAP[k].0)
    && forall j :: 0 <= j < k ==> !Contains(value, ALIAS_MAP[j].0)
  }

  /** `match_alias`: lower-case the value and return the target of the first rule it contains. */
  function MatchAlias(value: string): Option<string>
  {
    match FirstAlias(Lower(value))
    case None => None
    case Some(k) => Some(ALIAS_MAP[k].1)
  }

  /** Python's `if handler:` on an optional source name. */
  predicate Found(h: Option<string>) { h.Some? && h.value != "" }

  /** A character allowed in a URL scheme. */
  predicate SchemeChar(c: char) { IsAlnum(c) || c == '+' || c == '-' || c == '.' }

  function IndexOf(s: string, c: char, from: nat := 0): (r: Option<nat>)
    requires from <= |s|
    ensures r.Some? ==> from <= r.value < |s| && s[r.value] == c
    ensures r.Some? ==> forall j :: from <= j < r.value ==> s[j] != c
    ensures r.None? ==> forall j :: from <= j < |s| ==> s[j] != c
    decreases |s| - from
  {
    if from == |s| then None else if s[from] == c then Some(from) else IndexOf(s, c, from + 1)
  }

  /** Index of the first `/`, `?` or `#` at or after `from`, or `|s|`. */
  function NetlocEnd(s: string, from: nat): (r: nat)
    requires from <= |s|
    ensures from <= r <= |s|
    ensures forall j :: from <= j < r ==> s[j] !in "/?#"
    ensures r < |s| ==> s[r] in "/?#"
    decreases |s| - from
  {
    if from == |s| || s[from] in "/?#" then from else NetlocEnd(s, from + 1)
  }

  /**
   * The text after the scheme, as `urlsplit` cuts it: the scheme is the text
   * before the first `:` when it is non-empty, starts with an ASCII letter
   * and holds only scheme characters.
   */
  function AfterScheme(url: string): string
  {
    match IndexOf(url, ':')
    case Some(i) =>
      if i > 0 && IsAsciiLetter(url[0]) && forall j :: 0 <= j < i ==> SchemeChar(url[j])
      then url[i + 1..] else url
    case None => url
  }

  /** `urlparse(url).netloc`: the text between a leading `//` and the next `/`, `?` or `#`. */
  function Netloc(url: string): (r: string)
    ensures forall c :: c in r ==> c !in "/?#"
  {
    var rest := AfterScheme(url);
    if StartsWith(rest, "//") then
      var n := rest[2..NetlocEnd(rest, 2)];
      assert forall k :: 0 <= k < |n| ==> n[k] == rest[k + 2];
      n
    else ""
  }

  /** `detect_handler`: try the hint, then the URL's network location. */
  function DetectHandler(sourceHint: string, url: string): Option<string>
  {
    var fromHint := MatchAlias(sourceHint);
    if Found(fromHint) then fromHint
    else
      var fromHost := MatchAlias(Netloc(url));
      if Found(fromHost) then fromHost else None
  }

  /**
   * `match_alias` returns the target of the first rule, in declaration
   * order, whose substring occurs in the lower-cased value, and `None`
   * exactly when no rule's substring occurs in it.
   */
  lemma MatchAliasFirstMatch(value: string)
    ensures MatchAlias(value).None? <==> forall k :: 0 <= k < |ALIAS_MAP| ==> !Contains(Lower(value), ALIAS_MAP[k].0)
    ensures MatchAlias(value).Some? ==>
      exists k :: IsFirstAlias(Lower(value), k) && MatchAlias(value).value == ALIAS_MAP[k].1
  {
  }

  /** Every alias rule targets a supported source, so `match_alias` only returns supported names. */
  lemma MatchAliasSupported(value: string)
    ensures MatchAlias(value).Some? ==> MatchAlias(value).value in SUPPORTED_SOURCES && MatchAlias(value).value != ""
  {
    assert forall k :: 0 <= k < |ALIAS_MAP| ==> ALIAS_MAP[k].1 in SUPPORTED_SOURCES && ALIAS_MAP[k].1 != "";
  }

  /**
   * `detect_handler` prefers the hint: a matching hint wins even when the
   * host names another source; otherwise the host decides; the result is
   * `None` only when neither matches, and every result is supported.
   */
  lemma DetectHandlerSpec(sourceHint: string, url: string)
    ensures MatchAlias(sourceHint).Some? ==> DetectHandler(sourceHint, url) == MatchAlias(sourceHint)
    ensures MatchAlias(sourceHint).None? ==> DetectHandler(sourceHint, url) == MatchAlias(Netloc(url))
    ensures DetectHandler(sourceHint, url).None? <==> MatchAlias(sourceHint).None? && MatchAlias(Netloc(url)).None?
    ensures DetectHandler(sourceHint, url).Some? ==> DetectHandler(sourceHint, url).value in SUPPORTED_SOURCES
  {
    MatchAliasSupported(sourceHint);
    MatchAliasSupported(Netloc(url));
  }

  /** `NetlocEnd` stops at the first `/`, `?` or `#` at or after `from`, or at the end. */
  lemma {:induction false} NetlocEndAt(s: string, from: nat, e: nat)
    requires from <= e <= |s|
    requires forall j :: from <= j < e ==> s[j] !in "/?#"
    requires e == |s| || s[e] in "/?#"
    ensures NetlocEnd(s, from) == e
    decreases e - from
  {
    if from < e {
      NetlocEndAt(s, from + 1, e);
    }
  }

  /**
   * For a URL written `scheme://host` followed by nothing or by a path,
   * query or fragment, the network location is exactly `host`.
   */
  lemma NetlocOfAuthority(scheme: string, host: string, rest: string)
    requires |scheme| > 0 && IsAsciiLetter(scheme[0])
    requires forall j :: 0 <= j < |scheme| ==> SchemeChar(scheme[j])
    requires forall j :: 0 <= j < |host| ==> host[j] !in "/?#"
    requires rest == [] || rest[0] in "/?#"
    ensures Netloc(scheme + "://" + host + rest) == host
  {
    var url := scheme + "://" + host + rest;
    assert url[|scheme|] == ':';
    assert forall j :: 0 <= j < |scheme| ==> url[j] == scheme[j];
    IndexOfFirst(url, ':', |scheme|);
    var after := url[|scheme| + 1..];
    assert after == "//" + host + rest;
    assert AfterScheme(url) == after;
    assert StartsWith(after, "//");
    assert forall j :: 2 <= j < 2 + |host| ==> after[j] == host[j - 2];
    if rest != [] {
      assert after[2 + |host|] == rest[0];
    }
    NetlocEndAt(after, 2, 2 + |host|);
    assert after[2..2 + |host|] == host;
  }

  /** `IndexOf` finds the first occurrence: an occurrence with none before it is the result. */
  lemma IndexOfFirst(s: string, c: char, i: nat)
    requires i < |s| && s[i] == c
    requires forall j :: 0 <= j < i ==> s[j] != c
    ensures IndexOf(s, c) == Some(i)
  {
  }

  /** When rule `k` is the first rule the lower-cased value contains, `match_alias` returns its target. */
  lemma MatchAliasAt(value: string, k: nat)
    requires IsFirstAlias(Lower(value), k)
    ensures MatchAlias(value) == Some(ALIAS_MAP[k].1)
  {
    assert FirstAlias(Lower(value)) == Some(k);
  }

  /** The first rule `value` contains is rule `k`. */
  lemma FirstAliasAt(value: string, k: nat)
    requires k < |ALIAS_MAP|
    requires forall j :: 0 <= j < k ==> !Contains(value, ALIAS_MAP[j].0)
    requires Contains(value, ALIAS_MAP[k].0)
    ensures FirstAlias(value) == Some(k)
  {
  }

  /** A value that contains no rule's substring has no first rule. */
  lemma FirstAliasNone(value: string)
    requires forall j :: 0 <= j < |ALIAS_MAP| ==> !Contains(value, ALIAS_MAP[j].0)
    ensures FirstAlias(value) == None
  {
  }
  /** The substrings of the alias table, one by one. */
  lemma AliasTable()
    ensures ALIAS_MAP[0].0 == "drive.google.com"
    ensures ALIAS_MAP[1].0 == "docs.google.com"
    ensures ALIAS_MAP[2].0 == "googledrive"
    ensures ALIAS_MAP[3].0 == "googleusercontent"
    ensures ALIAS_MAP[4].0 == "instagram"
    ensures ALIAS_MAP[5].0 == "instagr"
    ensures ALIAS_MAP[6].0 == "ddinstagram"
    ensures ALIAS_MAP[7].0 == "threads"
    ensures ALIAS_MAP[8].0 == "tiktok"
    ensures ALIAS_MAP[9].0 == "douyin"
    ensures ALIAS_MAP[10].0 == "twitter"
    ensures ALIAS_MAP[11].0 == "x.com"
    ensures ALIAS_MAP[12].0 == "fxtwitter"
    ensures ALIAS_MAP[13].0 == "vxtwitter"
    ensures ALIAS_MAP[14].0 == "reddit"
    ensures ALIAS_MAP[15].0 == "redd.it"
    ensures ALIAS_MAP[16].0 == "facebook"
    ensures ALIAS_MAP[17].0 == "fb.watch"
    ensures ALIAS_MAP[18].0 == "fbcdn"
    ensures ALIAS_MAP[19].0 == "youtube"
    ensures ALIAS_MAP[20].0 == "youtu.be"
    ensures ALIAS_MAP[21].0 == "youtubekids"
  {
  }
}
