// `InstagramHandler.download`: shortcode extraction, a two-attempt fetch
// loop with error classification, and the working directory it restores.

module Instagram {
  import opened Wrappers
  import opened Text
  import opened Values
  import opened Search
  import opened Retry

  /** `instagram.com/(?:p|reel|tv)/([\w-]+)`, whose `.` is an unescaped regex dot. */
  const SHORTCODE_RULE: seq<Pattern> := [
    Literal("instagram") + [AnyChar] + Literal("com/p/"),
    Literal("instagram") + [AnyChar] + Literal("com/reel/"),
    Literal("instagram") + [AnyChar] + Literal("com/tv/")]

  const ATTEMPTS: nat := 2

  /** The URL up to its first `?`: `url.split('?')[0]`. */
  function CleanUrl(url: string): string
  {
    Split(url, '?')[0]
  }

  /** The post's shortcode, searched in the URL without its query. */
  function Shortcode(url: string): Option<string>
  {
    Capture(CleanUrl(url), SHORTCODE_RULE)
  }

  /** A failure that looks like Instagram refusing an unauthenticated client. */
  predicate Blocked(message: string)
  {
    Contains(message, "400") || Contains(Lower(message), "login") || Contains(Lower(message), "authentication")
  }

  /** The Instaloader client used: one the caller supplied, or a fresh one. */
  datatype Client = Supplied(client: Value) | Fresh

  /** `options.get('instaloader_client') or options.get('instaloader')`, or a new client when that is `None`. */
  function ClientChoice(options: Options): (c: Client)
    ensures Truthy(Get(options, "instaloader_client")) ==> c == Supplied(options["instaloader_client"])
    ensures !Truthy(Get(options, "instaloader_client")) && Get(options, "instaloader") != VNone ==>
      c == Supplied(options["instaloader"])
    ensures c == Fresh <==> !Truthy(Get(options, "instaloader_client")) && Get(options, "instaloader") == VNone
  {
    var supplied := Or(Get(options, "instaloader_client"), Get(options, "instaloader"));
    if supplied == VNone then Fresh else Supplied(supplied)
  }

  /** The opening of the "blocked" error. */
  const BLOCKED_PREFIX := "Instagram blocked " + "unauthenticated access for this post. " + "Try authenticated mode. " + "Original error: "
  const FAILED_PREFIX := "Failed to download Instagram post "

  /**
   * The error raised for the failure the loop stopped at, or `True` when it
   * stopped at a success.  Every failure is a `RuntimeError` ending with the
   * original message, and it carries the "blocked" advice exactly when that
   * message looks blocked.
   */
  function Finish(shortcode: string, last: Option<string>): (r: Result<bool, Exc>)
    ensures r.Success? <==> last.None?
    ensures r.Success? ==> r.value
    ensures r.Failure? ==> r.error.kind == RuntimeError && EndsWith(r.error.message, last.value)
    ensures r.Failure? ==> (StartsWith(r.error.message, BLOCKED_PREFIX) <==> Blocked(last.value))
    ensures r.Failure? && !Blocked(last.value) ==> StartsWith(r.error.message, FAILED_PREFIX + shortcode + ": ")
  {
    match last
    case None => Success(true)
    case Some(msg) =>
      if Blocked(msg) then
        Failure(Exc(RuntimeError, BLOCKED_PREFIX + msg))
      else
        var m := FAILED_PREFIX + shortcode + ": " + msg;
        assert m[0] == 'F' && BLOCKED_PREFIX[0] == 'I';
        Failure(Exc(RuntimeError, m))
  }

  /** A failure that does not look blocked, left after the last attempt, names the post. */
  lemma RetriesExhausted(shortcode: string, msg: string)
    requires !Blocked(msg)
    ensures Finish(shortcode, Some(msg)) == Failure(Exc(RuntimeError, "Failed to download Instagram post " + shortcode + ": " + msg))
  {
  }

  /** The attempts as made in `dir`: attempt `j` raises `outcome(dir, j)`. */
  function InDir(outcome: (string, nat) -> Option<string>, dir: string): nat -> Option<string>
  {
    (j: nat) => outcome(dir, j)
  }

  /** The process's current working directory. */
  class Process {
    var cwd: string

    constructor(cwd: string)
      ensures this.cwd == cwd
    {
      this.cwd := cwd;
    }

    /** `os.chdir(dir)`. */
    method ChangeDir(dir: string)
      modifies this
      ensures cwd == dir
    {
      cwd := dir;
    }
  }

  /**
   * `download(url, out_dir, options)`. `available` says whether Instaloader
   * could be imported; `outcome(dir, j)` is what attempt `j` of fetching and
   * downloading the post raises, if anything, when the process runs in
   * `dir`, where the post's files land. Also returned: the client used and
   * the number of attempts.
   */
  method Download(url: string, outDir: string, options: Options, available: bool, process: Process,
                  outcome: (string, nat) -> Option<string>)
    returns (r: Result<bool, Exc>, client: Option<Client>, calls: nat)
    modifies process
    ensures process.cwd == old(process.cwd)
    ensures !available ==> r == Failure(Exc(RuntimeError, "Instaloader not available")) && client.None? && calls == 0
    ensures available ==> client == Some(ClientChoice(options))
    ensures available && Shortcode(url).None? ==> r == Failure(Exc(ValueError, "Invalid Instagram link")) && calls == 0
    ensures available && Shortcode(url).Some? ==>
      && calls == StopAt(InDir(outcome, outDir), Blocked, ATTEMPTS)
      && r == Finish(Shortcode(url).value, outcome(outDir, calls))
  {
    if !available {
      return Failure(Exc(RuntimeError, "Instaloader not available")), None, 0;
    }
    var supplied := Or(Get(options, "instaloader_client"), Get(options, "instaloader"));
    client := Some(if supplied == VNone then Fresh else Supplied(supplied));
    var urlClean := Split(url, '?')[0];
    var m := Capture(urlClean, SHORTCODE_RULE);
    if m.None? {
      return Failure(Exc(ValueError, "Invalid Instagram link")), client, 0;
    }
    r, calls := FetchPost(m.value, outDir, process, outcome);
  }

  /**
   * The `try`/`finally` part of `download`: change into `outDir`, make the
   * attempts, and change back on every exit.
   */
  method FetchPost(shortcode: string, outDir: string, process: Process, outcome: (string, nat) -> Option<string>)
    returns (r: Result<bool, Exc>, calls: nat)
    modifies process
    ensures process.cwd == old(process.cwd)
    ensures calls == StopAt(InDir(outcome, outDir), Blocked, ATTEMPTS)
    ensures r == Finish(shortcode, outcome(outDir, calls))
  {
    var saved := process.cwd;
    process.ChangeDir(outDir);
    ghost var tries := InDir(outcome, outDir);
    var attempt := 1;
    var last := outcome(process.cwd, attempt);
    while last.Some? && !Blocked(last.value) && attempt < ATTEMPTS
      invariant process.cwd == outDir
      invariant 1 <= attempt <= ATTEMPTS
      invariant last == tries(attempt)
      invariant StopAt(tries, Blocked, ATTEMPTS) == StopAt(tries, Blocked, ATTEMPTS, attempt)
      decreases ATTEMPTS - attempt
    {
      attempt := attempt + 1;
      last := outcome(process.cwd, attempt);
    }
    calls := attempt;
    if last.None? {
      r := Success(true);
    } else if Blocked(last.value) {
      r := Failure(Exc(RuntimeError, BLOCKED_PREFIX + last.value));
    } else {
      r := Failure(Exc(RuntimeError, FAILED_PREFIX + shortcode + ": " + last.value));
    }
    process.ChangeDir(saved);
  }

  /**
   * At most two attempts: a second one exactly when the first fails with
   * a message that does not look blocked.
   */
  lemma AttemptBound(outcome: nat -> Option<string>)
    ensures 1 <= StopAt(outcome, Blocked, ATTEMPTS) <= 2
    ensures StopAt(outcome, Blocked, ATTEMPTS) == 2 <==> outcome(1).Some? && !Blocked(outcome(1).value)
  {
  }

  /** A blocked first failure ends the download at once with the "blocked" error. */
  lemma BlockedEndsAtOnce(shortcode: string, outcome: nat -> Option<string>)
    requires outcome(1).Some? && Blocked(outcome(1).value)
    ensures StopAt(outcome, Blocked, ATTEMPTS) == 1
    ensures Finish(shortcode, outcome(1)) == Failure(Exc(RuntimeError, BLOCKED_PREFIX + outcome(1).value))
  {
  }

  /** The query does not take part in the search: a URL and that URL with a query give the same shortcode. */
  lemma QueryIgnored(url: string, query: string)
    requires '?' !in url
    ensures Shortcode(url + ['?'] + query) == Shortcode(url)
  {
    SplitFirst(url, '?', ['?'] + query);
    assert url + ['?'] + query == url + (['?'] + query);
    SplitFirst(url, '?', []);
    assert url + [] == url;
  }

  /**
   * A shortcode is a non-empty run of id characters found in the URL
   * before its query, and there is one exactly when some of the three
   * post, reel and tv forms is followed by an id character there.
   */
  lemma ShortcodeSpec(url: string)
    ensures Shortcode(url).Some? <==>
      exists i, k :: 0 <= i < |CleanUrl(url)| && 0 <= k < |SHORTCODE_RULE| && HitsAt(CleanUrl(url), SHORTCODE_RULE[k], i)
    ensures Shortcode(url).Some? ==>
      var sc := Shortcode(url).value;
      sc != [] && (forall c :: c in sc ==> IdChar(c)) && Contains(CleanUrl(url), sc)
  {
    CaptureSpec(CleanUrl(url), SHORTCODE_RULE);
    if Shortcode(url).Some? {
      CaptureContained(CleanUrl(url), SHORTCODE_RULE);
    }
  }

  /** Missing client options mean a fresh client; the `auth` option plays no part in the choice. */
  lemma ClientChoiceIgnoresAuth(options: Options, auth: Value)
    ensures ClientChoice(map[]) == Fresh
    ensures ClientChoice(options["auth" := auth]) == ClientChoice(options)
  {
  }
}
