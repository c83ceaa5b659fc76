// `TikTokHandler.download`: a yt-dlp call with caller options merged over
// an output template, made at most twice.

module TikTok {
  import opened Wrappers
  import opened Text
  import opened Values
  import opened Retry

  const TIKTOK_OUTTMPL := "%(title)s.%(ext)s"
  const ATTEMPTS: nat := 2

  /** `{'outtmpl': join(out_dir, ...)}` updated with the caller's `ytdlp_opts` (default `{}`). */
  function TikTokOpts(outDir: string, options: Options): (r: Result<Options, Exc>)
    ensures var custom := Get(options, "ytdlp_opts", VDict(map[]));
      && (r.Success? <==> custom.VDict? || custom == VStr(""))
      && (r.Success? ==> "outtmpl" in r.value)
      && (r.Success? && custom.VDict? && "outtmpl" in custom.entries ==> r.value["outtmpl"] == custom.entries["outtmpl"])
      && (r.Success? && !(custom.VDict? && "outtmpl" in custom.entries) ==> r.value["outtmpl"] == VStr(PathJoin(outDir, TIKTOK_OUTTMPL)))
      && (r.Success? && custom.VDict? ==> forall k :: k in custom.entries ==> k in r.value && r.value[k] == custom.entries[k])
  {
    DictUpdate(map["outtmpl" := VStr(PathJoin(outDir, TIKTOK_OUTTMPL))], Get(options, "ytdlp_opts", VDict(map[])))
  }

  /**
   * `download(url, out_dir, options)`. `available` says whether yt-dlp
   * could be imported; `outcome(j)` is what attempt `j` of
   * `YoutubeDL(opts).download([url])` does (`None` on success, the
   * exception's message otherwise). Also returned: the options yt-dlp was
   * given and the number of attempts made.
   */
  method Download(url: string, outDir: string, options: Options, available: bool, outcome: nat -> Option<string>)
    returns (r: Result<bool, Exc>, sent: Option<Options>, calls: nat)
    ensures !available ==> r == Failure(Exc(RuntimeError, "yt-dlp not available")) && sent.None? && calls == 0
    ensures available && TikTokOpts(outDir, options).Failure? ==>
      r == Failure(TikTokOpts(outDir, options).error) && sent.None? && calls == 0
    ensures available && TikTokOpts(outDir, options).Success? ==>
      && sent == Some(TikTokOpts(outDir, options).value)
      && calls == StopAt(outcome, Never, ATTEMPTS)
      && (r.Success? <==> outcome(calls).None?)
      && (r.Success? ==> r.value)
      && (r.Failure? ==> calls == ATTEMPTS && r.error == Exc(RuntimeError, "yt-dlp failed: " + outcome(ATTEMPTS).value))
  {
    if !available {
      return Failure(Exc(RuntimeError, "yt-dlp not available")), None, 0;
    }
    var opts := map["outtmpl" := VStr(PathJoin(outDir, TIKTOK_OUTTMPL))];
    var updated := DictUpdate(opts, Get(options, "ytdlp_opts", VDict(map[])));
    if updated.Failure? {
      return Failure(updated.error), None, 0;
    }
    opts := updated.value;
    sent := Some(opts);
    var attempt := 1;
    var last := outcome(attempt);
    while last.Some? && attempt < ATTEMPTS
      invariant 1 <= attempt <= ATTEMPTS
      invariant last == outcome(attempt)
      invariant StopAt(outcome, Never, ATTEMPTS) == StopAt(outcome, Never, ATTEMPTS, attempt)
      decreases ATTEMPTS - attempt
    {
      attempt := attempt + 1;
      last := outcome(attempt);
    }
    calls := attempt;
    if last.None? {
      r := Success(true);
    } else {
      r := Failure(Exc(RuntimeError, "yt-dlp failed: " + last.value));
    }
  }

  /** The TikTok handler makes at most two attempts, and a second one exactly when the first fails. */
  lemma CallsAtMostTwo(outcome: nat -> Option<string>)
    ensures 1 <= StopAt(outcome, Never, ATTEMPTS) <= 2
    ensures StopAt(outcome, Never, ATTEMPTS) == 2 <==> outcome(1).Some?
  {
    TwoAttempts(outcome);
  }

  /** Without `ytdlp_opts` the options are only the output template. */
  lemma DefaultOptions(outDir: string)
    ensures TikTokOpts(outDir, map[]) == Success(map["outtmpl" := VStr(PathJoin(outDir, TIKTOK_OUTTMPL))])
  {
    assert map["outtmpl" := VStr(PathJoin(outDir, TIKTOK_OUTTMPL))] + map[] == map["outtmpl" := VStr(PathJoin(outDir, TIKTOK_OUTTMPL))];
  }

  /** Python's message for iterating over `None`, spelled out. */
  lemma NoneIsNotIterable()
    ensures "'" + TypeName(VNone) + "' object is not iterable" == "'NoneType' object is not iterable"
  {
  }

  /** `ytdlp_opts=None` is refused as not iterable. */
  lemma NoneOptionsRefused(outDir: string)
    ensures TikTokOpts(outDir, map["ytdlp_opts" := VNone]) == Failure(Exc(TypeError, "'NoneType' object is not iterable"))
  {
    var base := map["outtmpl" := VStr(PathJoin(outDir, TIKTOK_OUTTMPL))];
    assert Get(map["ytdlp_opts" := VNone], "ytdlp_opts", VDict(map[])) == VNone;
    assert DictUpdate(base, VNone) == Failure(Exc(TypeError, "'" + TypeName(VNone) + "' object is not iterable"));
    NoneIsNotIterable();
  }
}
