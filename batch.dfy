// `execute_batch`: route each manifest item, apply the global and
// per-source limits, call the downloader for the admitted items and sort
// every item into completed, skipped or errors.

module Batch {
  import opened Wrappers
  import opened Text
  import opened Values
  import opened Router
  import opened Manifest
  import Core

  const UNSUPPORTED := "unsupported"
  const GLOBAL_LIMIT := "global-limit"
  const PER_SOURCE_LIMIT := "per-source-limit"

  /**
   * What `downloader.download(handler, url, opts)` does: `None` when it
   * returns, `Some(str(exc))` when it raises.
   */
  type Fetch = (string, string, Options) -> Option<string>

  /** The keyword arguments `limit`, `per_source_limit` and `dry_run`. */
  datatype Limits = Limits(limit: Option<int>, perSourceLimit: Option<int>, dryRun: bool)

  /** One call made to the downloader. */
  datatype Call = Call(handler: string, url: string, options: Options)

  /** What became of one item: completed, skipped for a reason, or failed with a message. */
  datatype Fate = Done(handler: string) | Skipped(reason: string) | Failed(handler: string, message: string)

  /**
   * The loop's variables after some items: `counts`, `attempted` and the
   * three result lists, together with the downloader calls made so far
   * and the fate of every item so far, in order.
   */
  datatype BatchState = BatchState(
    counts: map<string, nat>,
    attempted: nat,
    completed: seq<(string, string)>,
    skipped: seq<(string, string, string)>,
    errors: seq<(string, string, string)>,
    calls: seq<Call>,
    fates: seq<Fate>)

  /** The returned dictionary. */
  datatype Report = Report(
    attempted: nat,
    completed: seq<(string, string)>,
    skipped: seq<(string, string, string)>,
    errors: seq<(string, string, string)>)

  const START := BatchState(map[], 0, [], [], [], [], [])

  function Route(item: ManifestItem): Option<string>
  {
    DetectHandler(item.sourceHint, item.url)
  }

  /** `not handler or handler not in SUPPORTED_SOURCES`. */
  predicate Unsupported(handler: Option<string>)
  {
    handler.None? || handler.value == "" || handler.value !in SUPPORTED_SOURCES
  }

  /** `counts.get(handler, 0)`. */
  function Used(counts: map<string, nat>, handler: string): nat
  {
    if handler in counts then counts[handler] else 0
  }

  predicate GlobalExhausted(lim: Limits, st: BatchState)
  {
    lim.limit.Some? && st.attempted >= lim.limit.value
  }

  predicate SourceExhausted(lim: Limits, st: BatchState, handler: string)
  {
    lim.perSourceLimit.Some? && Used(st.counts, handler) >= lim.perSourceLimit.value
  }

  /** The options passed for a handler: Instagram asks for automatic auth, yt-dlp sources for session cookies. */
  function OptionsFor(handler: string): Options
  {
    if handler == INSTAGRAM then map["auth" := VStr("auto")]
    else if handler != GOOGLE_DRIVE then map["use_session" := VBool(true)]
    else map[]
  }

  /** The records an item with fate `f` adds to each list. */
  function CompletedEntry(item: ManifestItem, f: Fate): seq<(string, string)>
  {
    if f.Done? then [(f.handler, item.url)] else []
  }

  function SkippedEntry(item: ManifestItem, f: Fate): seq<(string, string, string)>
  {
    if f.Skipped? then [(item.sourceHint, item.url, f.reason)] else []
  }

  function ErrorEntry(item: ManifestItem, f: Fate): seq<(string, string, string)>
  {
    if f.Failed? then [(f.handler, item.url, f.message)] else []
  }

  function CallEntry(dryRun: bool, item: ManifestItem, f: Fate): seq<Call>
  {
    if !dryRun && !f.Skipped? then [Call(f.handler, item.url, OptionsFor(f.handler))] else []
  }

  /**
   * The fate of an item routed to `handler`, decided by the loop's checks
   * in order: routing, the global limit, the per-source limit, then the
   * download itself (skipped on a dry run).
   */
  function FateOf(lim: Limits, fetch: Fetch, st: BatchState, item: ManifestItem, handler: Option<string>): Fate
  {
    if Unsupported(handler) then Skipped(UNSUPPORTED)
    else if GlobalExhausted(lim, st) then Skipped(GLOBAL_LIMIT)
    else if SourceExhausted(lim, st, handler.value) then Skipped(PER_SOURCE_LIMIT)
    else if lim.dryRun then Done(handler.value)
    else
      match fetch(handler.value, item.url, OptionsFor(handler.value))
      case None => Done(handler.value)
      case Some(message) => Failed(handler.value, message)
  }

  /**
   * One iteration of the loop: the item's fate adds its records, and an
   * attempted item raises its source's count and `attempted` by one.
   */
  function Step(lim: Limits, fetch: Fetch, st: BatchState, item: ManifestItem, handler: Option<string>): BatchState
  {
    var f := FateOf(lim, fetch, st, item, handler);
    BatchState(
      if f.Skipped? then st.counts else st.counts[f.handler := Used(st.counts, f.handler) + 1],
      if f.Skipped? then st.attempted else st.attempted + 1,
      st.completed + CompletedEntry(item, f),
      st.skipped + SkippedEntry(item, f),
      st.errors + ErrorEntry(item, f),
      st.calls + CallEntry(lim.dryRun, item, f),
      st.fates + [f])
  }

  /**
   * The fate of an item: "unsupported" exactly when routing fails;
   * "global-limit" exactly when it routes but the global limit is reached;
   * "per-source-limit" exactly when neither holds but its source's count
   * reached the per-source limit; otherwise it is attempted under its
   * routed source, and it fails exactly when the downloader raises,
   * recording the message.
   */
  lemma FateCases(lim: Limits, fetch: Fetch, st: BatchState, item: ManifestItem, handler: Option<string>)
    ensures var f := FateOf(lim, fetch, st, item, handler);
      && (f == Skipped(UNSUPPORTED) <==> Unsupported(handler))
      && (f == Skipped(GLOBAL_LIMIT) <==> !Unsupported(handler) && GlobalExhausted(lim, st))
      && (f == Skipped(PER_SOURCE_LIMIT) <==>
            !Unsupported(handler) && !GlobalExhausted(lim, st) && SourceExhausted(lim, st, handler.value))
      && (f.Skipped? ==> f.reason in {UNSUPPORTED, GLOBAL_LIMIT, PER_SOURCE_LIMIT})
      && (!f.Skipped? ==> handler == Some(f.handler) && f.handler in SUPPORTED_SOURCES)
      && (f.Failed? <==> !f.Skipped? && !lim.dryRun && fetch(f.handler, item.url, OptionsFor(f.handler)).Some?)
      && (f.Failed? ==> Some(f.message) == fetch(f.handler, item.url, OptionsFor(f.handler)))
  {
  }

  /** The loop over `items`, from state `st`. */
  function Run(lim: Limits, route: ManifestItem -> Option<string>, fetch: Fetch, st: BatchState, items: seq<ManifestItem>): BatchState
    decreases |items|
  {
    if items == [] then st else Run(lim, route, fetch, Step(lim, fetch, st, items[0], route(items[0])), items[1..])
  }

  /**
   * `execute_batch(items, out_dir, limit=..., per_source_limit=...,
   * dry_run=..., downloader=...)`: returns the report, and the calls it
   * made to the downloader. Its result is the loop `Run` from the empty
   * state, routing with `detect_handler`; what that loop guarantees is
   * proved below.
   */
  method ExecuteBatch(items: seq<ManifestItem>, lim: Limits, fetch: Fetch) returns (report: Report, calls: seq<Call>)
    ensures var r := Run(lim, Route, fetch, START, items);
      report == Report(r.attempted, r.completed, r.skipped, r.errors) && calls == r.calls
  {
    var counts: map<string, nat> := map[];
    var attempted: nat := 0;
    var completed: seq<(string, string)> := [];
    var skipped: seq<(string, string, string)> := [];
    var errors: seq<(string, string, string)> := [];
    calls := [];
    ghost var fates: seq<Fate> := [];
    var i := 0;
    while i < |items|
      invariant 0 <= i <= |items|
      invariant Run(lim, Route, fetch, START, items)
        == Run(lim, Route, fetch, BatchState(counts, attempted, completed, skipped, errors, calls, fates), items[i..])
    {
      var item := items[i];
      assert items[i..][0] == item && items[i..][1..] == items[i + 1..];
      var handler := DetectHandler(item.sourceHint, item.url);
      assert handler == Route(item);
      counts, attempted, completed, skipped, errors, calls, fates :=
        Process(lim, fetch, counts, attempted, completed, skipped, errors, calls, fates, item, handler);
      i := i + 1;
    }
    report := Report(attempted, completed, skipped, errors);
  }

  /** The body of the loop for one item, already routed to `handler`. */
  method Process(lim: Limits, fetch: Fetch, counts: map<string, nat>, attempted: nat,
                 completed: seq<(string, string)>, skipped: seq<(string, string, string)>,
                 errors: seq<(string, string, string)>, calls: seq<Call>, ghost fates: seq<Fate>,
                 item: ManifestItem, handler: Option<string>)
    returns (counts': map<string, nat>, attempted': nat,
             completed': seq<(string, string)>, skipped': seq<(string, string, string)>,
             errors': seq<(string, string, string)>, calls': seq<Call>, ghost fates': seq<Fate>)
    ensures BatchState(counts', attempted', completed', skipped', errors', calls', fates')
      == Step(lim, fetch, BatchState(counts, attempted, completed, skipped, errors, calls, fates), item, handler)
  {
    counts', attempted', completed', skipped', errors', calls', fates' :=
      counts, attempted, completed, skipped, errors, calls, fates;
    if handler.None? || handler.value == "" || handler.value !in SUPPORTED_SOURCES {
      skipped' := skipped + [(item.sourceHint, item.url, UNSUPPORTED)];
      fates' := fates + [Skipped(UNSUPPORTED)];
      return;
    }
    if lim.limit.Some? && attempted >= lim.limit.value {
      skipped' := skipped + [(item.sourceHint, item.url, GLOBAL_LIMIT)];
      fates' := fates + [Skipped(GLOBAL_LIMIT)];
      return;
    }
    var h := handler.value;
    var used := if h in counts then counts[h] else 0;
    if lim.perSourceLimit.Some? && used >= lim.perSourceLimit.value {
      skipped' := skipped + [(item.sourceHint, item.url, PER_SOURCE_LIMIT)];
      fates' := fates + [Skipped(PER_SOURCE_LIMIT)];
      return;
    }
    counts' := counts[h := used + 1];
    attempted' := attempted + 1;
    if lim.dryRun {
      completed' := completed + [(h, item.url)];
      fates' := fates + [Done(h)];
      return;
    }
    var opts: Options := map[];
    if h == INSTAGRAM {
      opts := opts["auth" := VStr("auto")];
    } else if h != GOOGLE_DRIVE {
      opts := opts["use_session" := VBool(true)];
    }
    assert opts == OptionsFor(h);
    calls' := calls + [Call(h, item.url, opts)];
    var raised := fetch(h, item.url, opts);
    if raised.None? {
      completed' := completed + [(h, item.url)];
      fates' := fates + [Done(h)];
    } else {
      errors' := errors + [(h, item.url, raised.value)];
      fates' := fates + [Failed(h, raised.value)];
    }
  }

  // ---------------------------------------------------------------------
  // Records: one per item, in input order
  // ---------------------------------------------------------------------

  /** The records a run of items with fates `fates` adds, list by list. */
  function CompletedOf(items: seq<ManifestItem>, fates: seq<Fate>): seq<(string, string)>
    requires |items| == |fates|
  {
    if items == [] then [] else CompletedEntry(items[0], fates[0]) + CompletedOf(items[1..], fates[1..])
  }

  function SkippedOf(items: seq<ManifestItem>, fates: seq<Fate>): seq<(string, string, string)>
    requires |items| == |fates|
  {
    if items == [] then [] else SkippedEntry(items[0], fates[0]) + SkippedOf(items[1..], fates[1..])
  }

  function ErrorsOf(items: seq<ManifestItem>, fates: seq<Fate>): seq<(string, string, string)>
    requires |items| == |fates|
  {
    if items == [] then [] else ErrorEntry(items[0], fates[0]) + ErrorsOf(items[1..], fates[1..])
  }

  function CallsOf(dryRun: bool, items: seq<ManifestItem>, fates: seq<Fate>): seq<Call>
    requires |items| == |fates|
  {
    if items == [] then [] else CallEntry(dryRun, items[0], fates[0]) + CallsOf(dryRun, items[1..], fates[1..])
  }

  /** The loop gives every item one fate and keeps the earlier fates. */
  lemma {:induction false} RunFates(lim: Limits, route: ManifestItem -> Option<string>, fetch: Fetch, st: BatchState, items: seq<ManifestItem>)
    ensures var r := Run(lim, route, fetch, st, items);
      |r.fates| == |st.fates| + |items| && r.fates[..|st.fates|] == st.fates
    decreases |items|
  {
    if items != [] {
      var s1 := Step(lim, fetch, st, items[0], route(items[0]));
      RunFates(lim, route, fetch, s1, items[1..]);
      var r := Run(lim, route, fetch, s1, items[1..]);
      assert r.fates[..|s1.fates|][..|st.fates|] == r.fates[..|st.fates|];
    }
  }

  /** How the new fates of a run split into the first item's fate and the rest's. */
  lemma NewFates(lim: Limits, route: ManifestItem -> Option<string>, fetch: Fetch, st: BatchState, items: seq<ManifestItem>)
    requires items != []
    ensures var s1 := Step(lim, fetch, st, items[0], route(items[0]));
      && |Run(lim, route, fetch, st, items).fates| == |st.fates| + |items|
      && |Run(lim, route, fetch, s1, items[1..]).fates| == |s1.fates| + |items| - 1
      && var fs := Run(lim, route, fetch, st, items).fates[|st.fates|..];
      && |fs| == |items|
      && fs[0] == FateOf(lim, fetch, st, items[0], route(items[0]))
      && fs[1..] == Run(lim, route, fetch, s1, items[1..]).fates[|s1.fates|..]
  {
    var s1 := Step(lim, fetch, st, items[0], route(items[0]));
    RunFates(lim, route, fetch, st, items);
    RunFates(lim, route, fetch, s1, items[1..]);
    var r := Run(lim, route, fetch, s1, items[1..]);
    assert r.fates[|st.fates|] == r.fates[..|s1.fates|][|st.fates|];
  }

  /**
   * Each list of the loop grows by exactly the records of the new items'
   * fates, in input order; so does the list of download calls.
   */
  lemma {:induction false} RunCompleted(lim: Limits, route: ManifestItem -> Option<string>, fetch: Fetch, st: BatchState, items: seq<ManifestItem>)
    ensures var r := Run(lim, route, fetch, st, items);
      |r.fates| == |st.fates| + |items| && r.completed == st.completed + CompletedOf(items, r.fates[|st.fates|..])
    decreases |items|
  {
    RunFates(lim, route, fetch, st, items);
    if items != [] {
      var s1 := Step(lim, fetch, st, items[0], route(items[0]));
      NewFates(lim, route, fetch, st, items);
      RunCompleted(lim, route, fetch, s1, items[1..]);
    }
  }

  lemma {:induction false} RunSkipped(lim: Limits, route: ManifestItem -> Option<string>, fetch: Fetch, st: BatchState, items: seq<ManifestItem>)
    ensures var r := Run(lim, route, fetch, st, items);
      |r.fates| == |st.fates| + |items| && r.skipped == st.skipped + SkippedOf(items, r.fates[|st.fates|..])
    decreases |items|
  {
    RunFates(lim, route, fetch, st, items);
    if items != [] {
      var s1 := Step(lim, fetch, st, items[0], route(items[0]));
      NewFates(lim, route, fetch, st, items);
      RunSkipped(lim, route, fetch, s1, items[1..]);
    }
  }

  lemma {:induction false} RunErrors(lim: Limits, route: ManifestItem -> Option<string>, fetch: Fetch, st: BatchState, items: seq<ManifestItem>)
    ensures var r := Run(lim, route, fetch, st, items);
      |r.fates| == |st.fates| + |items| && r.errors == st.errors + ErrorsOf(items, r.fates[|st.fates|..])
    decreases |items|
  {
    RunFates(lim, route, fetch, st, items);
    if items != [] {
      var s1 := Step(lim, fetch, st, items[0], route(items[0]));
      NewFates(lim, route, fetch, st, items);
      RunErrors(lim, route, fetch, s1, items[1..]);
    }
  }

  lemma {:induction false} RunCalls(lim: Limits, route: ManifestItem -> Option<string>, fetch: Fetch, st: BatchState, items: seq<ManifestItem>)
    ensures var r := Run(lim, route, fetch, st, items);
      |r.fates| == |st.fates| + |items| && r.calls == st.calls + CallsOf(lim.dryRun, items, r.fates[|st.fates|..])
    decreases |items|
  {
    RunFates(lim, route, fetch, st, items);
    if items != [] {
      var s1 := Step(lim, fetch, st, items[0], route(items[0]));
      NewFates(lim, route, fetch, st, items);
      RunCalls(lim, route, fetch, s1, items[1..]);
    }
  }

  /** Each item lands in exactly one of the three lists. */
  lemma {:induction false} OneRecordEach(items: seq<ManifestItem>, fates: seq<Fate>)
    requires |items| == |fates|
    ensures |CompletedOf(items, fates)| + |SkippedOf(items, fates)| + |ErrorsOf(items, fates)| == |items|
  {
    if items != [] {
      OneRecordEach(items[1..], fates[1..]);
    }
  }

  // ---------------------------------------------------------------------
  // Counters and limits
  // ---------------------------------------------------------------------

  /** How many of the records name source `h`. */
  function Tally(completed: seq<(string, string)>, h: string): nat
  {
    if completed == [] then 0 else (if completed[0].0 == h then 1 else 0) + Tally(completed[1..], h)
  }

  function TallyErrors(errors: seq<(string, string, string)>, h: string): nat
  {
    if errors == [] then 0 else (if errors[0].0 == h then 1 else 0) + TallyErrors(errors[1..], h)
  }

  lemma {:induction false} TallyAppend(completed: seq<(string, string)>, more: seq<(string, string)>, h: string)
    ensures Tally(completed + more, h) == Tally(completed, h) + Tally(more, h)
  {
    if completed == [] {
      assert completed + more == more;
    } else {
      assert (completed + more)[1..] == completed[1..] + more;
      TallyAppend(completed[1..], more, h);
    }
  }

  lemma {:induction false} TallyErrorsAppend(errors: seq<(string, string, string)>, more: seq<(string, string, string)>, h: string)
    ensures TallyErrors(errors + more, h) == TallyErrors(errors, h) + TallyErrors(more, h)
  {
    if errors == [] {
      assert errors + more == more;
    } else {
      assert (errors + more)[1..] == errors[1..] + more;
      TallyErrorsAppend(errors[1..], more, h);
    }
  }

  /**
   * What the loop keeps true of its counters: `attempted` counts the
   * completed and failed items, and the count of each source is the
   * number of completed and failed items of that source; only supported
   * sources are counted.
   */
  ghost predicate Counted(st: BatchState)
  {
    && st.attempted == |st.completed| + |st.errors|
    && st.counts.Keys <= SUPPORTED_SOURCES
    && forall h :: Used(st.counts, h) == Tally(st.completed, h) + TallyErrors(st.errors, h)
  }

  /** The global and per-source limits hold, a negative limit acting as zero. */
  predicate WithinLimits(lim: Limits, st: BatchState)
  {
    && (lim.limit.Some? ==> st.attempted <= if lim.limit.value < 0 then 0 else lim.limit.value)
    && (lim.perSourceLimit.Some? ==>
          forall h :: h in st.counts ==> st.counts[h] <= if lim.perSourceLimit.value < 0 then 0 else lim.perSourceLimit.value)
  }

  /**
   * What the loop keeps true of the downloader: one call per attempted
   * item (none on a dry run), each for a supported source with that
   * source's options, and no error on a dry run.
   */
  predicate CallsMatch(lim: Limits, st: BatchState)
  {
    && |st.calls| == (if lim.dryRun then 0 else st.attempted)
    && (lim.dryRun ==> st.errors == [])
    && (forall c :: c in st.calls ==> c.handler in SUPPORTED_SOURCES && c.options == OptionsFor(c.handler))
  }

  ghost predicate Consistent(lim: Limits, st: BatchState)
  {
    Counted(st) && WithinLimits(lim, st) && CallsMatch(lim, st)
  }

  lemma StepCounted(lim: Limits, fetch: Fetch, st: BatchState, item: ManifestItem, handler: Option<string>)
    requires Counted(st)
    ensures Counted(Step(lim, fetch, st, item, handler))
  {
    var r := Step(lim, fetch, st, item, handler);
    var f := FateOf(lim, fetch, st, item, handler);
    FateCases(lim, fetch, st, item, handler);
    forall h
      ensures Used(r.counts, h) == Tally(r.completed, h) + TallyErrors(r.errors, h)
    {
      TallyAppend(st.completed, CompletedEntry(item, f), h);
      TallyErrorsAppend(st.errors, ErrorEntry(item, f), h);
      if f.Done? {
        assert CompletedEntry(item, f)[1..] == [];
      } else if f.Failed? {
        assert ErrorEntry(item, f)[1..] == [];
      }
    }
  }

  lemma StepWithinLimits(lim: Limits, fetch: Fetch, st: BatchState, item: ManifestItem, handler: Option<string>)
    requires WithinLimits(lim, st)
    ensures WithinLimits(lim, Step(lim, fetch, st, item, handler))
  {
    FateCases(lim, fetch, st, item, handler);
  }

  lemma StepCallsMatch(lim: Limits, fetch: Fetch, st: BatchState, item: ManifestItem, handler: Option<string>)
    requires st.attempted == |st.completed| + |st.errors|
    requires CallsMatch(lim, st)
    ensures CallsMatch(lim, Step(lim, fetch, st, item, handler))
  {
    var r := Step(lim, fetch, st, item, handler);
    var f := FateOf(lim, fetch, st, item, handler);
    FateCases(lim, fetch, st, item, handler);
    forall c | c in r.calls
      ensures c.handler in SUPPORTED_SOURCES && c.options == OptionsFor(c.handler)
    {
      if c !in st.calls {
        assert c == Call(f.handler, item.url, OptionsFor(f.handler));
      }
    }
  }

  lemma {:induction false} RunConsistent(lim: Limits, route: ManifestItem -> Option<string>, fetch: Fetch, st: BatchState, items: seq<ManifestItem>)
    requires Consistent(lim, st)
    ensures Consistent(lim, Run(lim, route, fetch, st, items))
    decreases |items|
  {
    if items != [] {
      StepCounted(lim, fetch, st, items[0], route(items[0]));
      StepWithinLimits(lim, fetch, st, items[0], route(items[0]));
      StepCallsMatch(lim, fetch, st, items[0], route(items[0]));
      RunConsistent(lim, route, fetch, Step(lim, fetch, st, items[0], route(items[0])), items[1..]);
    }
  }

  /** Running `a` and then `b` from where `a` stopped is running `a + b`. */
  lemma {:induction false} RunAppend(lim: Limits, route: ManifestItem -> Option<string>, fetch: Fetch, st: BatchState, a: seq<ManifestItem>, b: seq<ManifestItem>)
    ensures Run(lim, route, fetch, st, a + b) == Run(lim, route, fetch, Run(lim, route, fetch, st, a), b)
    decreases |a|
  {
    if a == [] {
      assert a + b == b;
    } else {
      assert (a + b)[0] == a[0] && (a + b)[1..] == a[1..] + b;
      RunAppend(lim, route, fetch, Step(lim, fetch, st, a[0], route(a[0])), a[1..], b);
    }
  }

  /**
   * The fate of item `k` is decided by the loop's checks against the
   * state the items before it left behind.
   */
  lemma RunFateAt(lim: Limits, route: ManifestItem -> Option<string>, fetch: Fetch, st: BatchState, items: seq<ManifestItem>, k: int)
    requires 0 <= k < |items|
    ensures var r := Run(lim, route, fetch, st, items);
      && |r.fates| == |st.fates| + |items|
      && r.fates[|st.fates| + k] == FateOf(lim, fetch, Run(lim, route, fetch, st, items[..k]), items[k], route(items[k]))
  {
    var mid := Run(lim, route, fetch, st, items[..k]);
    var f := FateOf(lim, fetch, mid, items[k], route(items[k]));
    var s1 := Step(lim, fetch, mid, items[k], route(items[k]));
    assert s1.fates == mid.fates + [f];
    assert items == items[..k] + items[k..];
    RunAppend(lim, route, fetch, st, items[..k], items[k..]);
    assert items[k..][0] == items[k] && items[k..][1..] == items[k + 1..];
    assert Run(lim, route, fetch, mid, items[k..]) == Run(lim, route, fetch, s1, items[k + 1..]);
    var r := Run(lim, route, fetch, s1, items[k + 1..]);
    assert Run(lim, route, fetch, st, items) == r;
    RunFates(lim, route, fetch, st, items[..k]);
    RunFates(lim, route, fetch, st, items);
    RunFates(lim, route, fetch, s1, items[k + 1..]);
    assert |mid.fates| == |st.fates| + k;
    assert r.fates[|mid.fates|] == r.fates[..|s1.fates|][|mid.fates|];
    assert r.fates[|mid.fates|] == f;
  }

  /** The supported sources, listed once each. */
  const SOURCE_LIST: seq<string> := [GOOGLE_DRIVE, INSTAGRAM, TIKTOK, THREADS, TWITTER, REDDIT, FACEBOOK, YOUTUBE]

  predicate Distinct(hs: seq<string>)
  {
    forall i, j :: 0 <= i < j < |hs| ==> hs[i] != hs[j]
  }

  lemma SourceListSpec()
    ensures Distinct(SOURCE_LIST)
    ensures forall h :: h in SUPPORTED_SOURCES ==> h in SOURCE_LIST
  {
  }

  /** `sum(counts.get(h, 0) for h in hs)`. */
  function SumUsed(counts: map<string, nat>, hs: seq<string>): nat
  {
    if hs == [] then 0 else Used(counts, hs[0]) + SumUsed(counts, hs[1..])
  }

  function SumTally(completed: seq<(string, string)>, hs: seq<string>): nat
  {
    if hs == [] then 0 else Tally(completed, hs[0]) + SumTally(completed, hs[1..])
  }

  function SumTallyErrors(errors: seq<(string, string, string)>, hs: seq<string>): nat
  {
    if hs == [] then 0 else TallyErrors(errors, hs[0]) + SumTallyErrors(errors, hs[1..])
  }

  /** How many times `x` is listed in `hs`. */
  function Occurrences(x: string, hs: seq<string>): nat
  {
    if hs == [] then 0 else (if hs[0] == x then 1 else 0) + Occurrences(x, hs[1..])
  }

  lemma {:induction false} OccursNever(x: string, hs: seq<string>)
    requires x !in hs
    ensures Occurrences(x, hs) == 0
  {
    if hs != [] {
      OccursNever(x, hs[1..]);
    }
  }

  lemma {:induction false} OccursOnce(x: string, hs: seq<string>)
    requires Distinct(hs) && x in hs
    ensures Occurrences(x, hs) == 1
  {
    if hs[0] == x {
      assert x !in hs[1..] by {
        forall j | 0 <= j < |hs[1..]| ensures hs[1..][j] != x {
          assert hs[1..][j] == hs[j + 1];
        }
      }
      OccursNever(x, hs[1..]);
    } else {
      assert Distinct(hs[1..]) by {
        forall i, j | 0 <= i < j < |hs[1..]| ensures hs[1..][i] != hs[1..][j] {
          assert hs[1..][i] == hs[i + 1] && hs[1..][j] == hs[j + 1];
        }
      }
      OccursOnce(x, hs[1..]);
    }
  }

  lemma {:induction false} SumTallyFirst(completed: seq<(string, string)>, hs: seq<string>)
    requires completed != []
    ensures SumTally(completed, hs) == Occurrences(completed[0].0, hs) + SumTally(completed[1..], hs)
  {
    if hs != [] {
      SumTallyFirst(completed, hs[1..]);
    }
  }

  lemma {:induction false} SumTallyErrorsFirst(errors: seq<(string, string, string)>, hs: seq<string>)
    requires errors != []
    ensures SumTallyErrors(errors, hs) == Occurrences(errors[0].0, hs) + SumTallyErrors(errors[1..], hs)
  {
    if hs != [] {
      SumTallyErrorsFirst(errors, hs[1..]);
    }
  }

  lemma {:induction false} SumTallyEmpty(hs: seq<string>)
    ensures SumTally([], hs) == 0 && SumTallyErrors([], hs) == 0
  {
    if hs != [] {
      SumTallyEmpty(hs[1..]);
    }
  }

  /** Over a listing that names every record's source once, the tallies add up to the number of records. */
  lemma {:induction false} SumTallyAll(completed: seq<(string, string)>, hs: seq<string>)
    requires Distinct(hs) && forall e :: e in completed ==> e.0 in hs
    ensures SumTally(completed, hs) == |completed|
  {
    if completed != [] {
      assert completed[0] in completed;
      SumTallyFirst(completed, hs);
      OccursOnce(completed[0].0, hs);
      forall e | e in completed[1..] ensures e.0 in hs {
        assert e in completed;
      }
      SumTallyAll(completed[1..], hs);
    } else {
      SumTallyEmpty(hs);
    }
  }

  lemma {:induction false} SumTallyErrorsAll(errors: seq<(string, string, string)>, hs: seq<string>)
    requires Distinct(hs) && forall e :: e in errors ==> e.0 in hs
    ensures SumTallyErrors(errors, hs) == |errors|
  {
    if errors != [] {
      assert errors[0] in errors;
      SumTallyErrorsFirst(errors, hs);
      OccursOnce(errors[0].0, hs);
      forall e | e in errors[1..] ensures e.0 in hs {
        assert e in errors;
      }
      SumTallyErrorsAll(errors[1..], hs);
    } else {
      SumTallyEmpty(hs);
    }
  }

  lemma {:induction false} SumUsedSplit(st: BatchState, hs: seq<string>)
    requires forall h :: Used(st.counts, h) == Tally(st.completed, h) + TallyErrors(st.errors, h)
    ensures SumUsed(st.counts, hs) == SumTally(st.completed, hs) + SumTallyErrors(st.errors, hs)
  {
    if hs != [] {
      SumUsedSplit(st, hs[1..]);
    }
  }

  lemma {:induction false} TallyPositive(completed: seq<(string, string)>, e: (string, string))
    requires e in completed
    ensures Tally(completed, e.0) >= 1
  {
    if completed[0] != e {
      TallyPositive(completed[1..], e);
    }
  }

  lemma {:induction false} TallyErrorsPositive(errors: seq<(string, string, string)>, e: (string, string, string))
    requires e in errors
    ensures TallyErrors(errors, e.0) >= 1
  {
    if errors[0] != e {
      TallyErrorsPositive(errors[1..], e);
    }
  }

  /**
   * Under the counting invariant the per-source counts add up to
   * `attempted`, summed over any listing of the supported sources that
   * names each once.
   */
  lemma CountsSumToAttempted(st: BatchState, hs: seq<string>)
    requires Counted(st)
    requires Distinct(hs) && forall h :: h in SUPPORTED_SOURCES ==> h in hs
    ensures SumUsed(st.counts, hs) == st.attempted
  {
    forall e | e in st.completed ensures e.0 in hs {
      TallyPositive(st.completed, e);
      assert Used(st.counts, e.0) >= 1;
    }
    forall e | e in st.errors ensures e.0 in hs {
      TallyErrorsPositive(st.errors, e);
      assert Used(st.counts, e.0) >= 1;
    }
    SumUsedSplit(st, hs);
    SumTallyAll(st.completed, hs);
    SumTallyErrorsAll(st.errors, hs);
  }

  /** The fates of a whole batch, item by item. */
  lemma BatchFates(lim: Limits, route: ManifestItem -> Option<string>, fetch: Fetch, items: seq<ManifestItem>)
    ensures var r := Run(lim, route, fetch, START, items);
      && |r.fates| == |items|
      && forall k :: 0 <= k < |items| ==>
           r.fates[k] == FateOf(lim, fetch, Run(lim, route, fetch, START, items[..k]), items[k], route(items[k]))
  {
    RunFates(lim, route, fetch, START, items);
    var r := Run(lim, route, fetch, START, items);
    forall k | 0 <= k < |items|
      ensures r.fates[k] == FateOf(lim, fetch, Run(lim, route, fetch, START, items[..k]), items[k], route(items[k]))
    {
      RunFateAt(lim, route, fetch, START, items, k);
    }
  }

  /** The three lists of a whole batch: one record per item, in input order. */
  lemma BatchRecords(lim: Limits, route: ManifestItem -> Option<string>, fetch: Fetch, items: seq<ManifestItem>)
    ensures var r := Run(lim, route, fetch, START, items);
      && |r.fates| == |items|
      && r.completed == CompletedOf(items, r.fates)
      && r.skipped == SkippedOf(items, r.fates)
      && r.errors == ErrorsOf(items, r.fates)
      && |r.completed| + |r.skipped| + |r.errors| == |items|
  {
    RunCompleted(lim, route, fetch, START, items);
    RunSkipped(lim, route, fetch, START, items);
    RunErrors(lim, route, fetch, START, items);
    var r := Run(lim, route, fetch, START, items);
    assert r.fates[0..] == r.fates;
    OneRecordEach(items, r.fates);
  }

  /** The counters and the downloader calls of a whole batch. */
  lemma BatchCounters(lim: Limits, route: ManifestItem -> Option<string>, fetch: Fetch, items: seq<ManifestItem>)
    ensures var r := Run(lim, route, fetch, START, items);
      && Consistent(lim, r)
      && SumUsed(r.counts, SOURCE_LIST) == r.attempted
  {
    RunConsistent(lim, route, fetch, START, items);
    SourceListSpec();
    CountsSumToAttempted(Run(lim, route, fetch, START, items), SOURCE_LIST);
  }

  /**
   * The report of a whole batch: one record per item in input order, the
   * fate of item `k` being the loop's checks against the state the items
   * before it left; `attempted` is the number of completed plus failed
   * items, and each source's count the number of its completed and failed
   * items, so the counts add up to `attempted`; it never exceeds the global
   * limit, no source exceeds the per-source limit, a negative limit acting
   * as zero; the downloader is called once per attempted item, with
   * `auth='auto'` for Instagram, `use_session=True` for the yt-dlp sources
   * and no options for Google Drive; a dry run makes no call and records
   * no error.
   */
  lemma BatchReport(lim: Limits, route: ManifestItem -> Option<string>, fetch: Fetch, items: seq<ManifestItem>)
    ensures var r := Run(lim, route, fetch, START, items);
      && |r.fates| == |items|
      && (forall k :: 0 <= k < |items| ==>
            r.fates[k] == FateOf(lim, fetch, Run(lim, route, fetch, START, items[..k]), items[k], route(items[k])))
      && r.completed == CompletedOf(items, r.fates)
      && r.skipped == SkippedOf(items, r.fates)
      && r.errors == ErrorsOf(items, r.fates)
      && |r.completed| + |r.skipped| + |r.errors| == |items|
      && r.attempted == |r.completed| + |r.errors|
      && (forall h :: Used(r.counts, h) == Tally(r.completed, h) + TallyErrors(r.errors, h))
      && r.counts.Keys <= SUPPORTED_SOURCES
      && SumUsed(r.counts, SOURCE_LIST) == r.attempted
      && (lim.limit.Some? ==> r.attempted <= if lim.limit.value < 0 then 0 else lim.limit.value)
      && (lim.perSourceLimit.Some? ==>
            forall h :: h in r.counts ==> r.counts[h] <= if lim.perSourceLimit.value < 0 then 0 else lim.perSourceLimit.value)
      && |r.calls| == (if lim.dryRun then 0 else r.attempted)
      && (lim.dryRun ==> r.errors == [])
      && (forall c :: c in r.calls && c.handler == INSTAGRAM ==> Get(c.options, "auth", VNone) == VStr("auto"))
      && (forall c :: c in r.calls && c.handler == GOOGLE_DRIVE ==> c.options == map[])
      && (forall c :: c in r.calls && c.handler != INSTAGRAM && c.handler != GOOGLE_DRIVE ==>
            c.handler in SUPPORTED_SOURCES && Truthy(Get(c.options, "use_session", VNone)))
  {
    BatchFates(lim, route, fetch, items);
    BatchRecords(lim, route, fetch, items);
    BatchCounters(lim, route, fetch, items);
  }

  /** The record of an item skipped under a global limit of zero or less. */
  function ZeroLimitSkip(route: ManifestItem -> Option<string>, item: ManifestItem): (string, string, string)
  {
    (item.sourceHint, item.url, if Unsupported(route(item)) then UNSUPPORTED else GLOBAL_LIMIT)
  }

  /** Under a global limit of zero or less each item only adds its skip record. */
  lemma {:induction false} ZeroLimitRun(lim: Limits, route: ManifestItem -> Option<string>, fetch: Fetch, st: BatchState, items: seq<ManifestItem>)
    requires lim.limit.Some? && lim.limit.value <= 0
    ensures var r := Run(lim, route, fetch, st, items);
      && r.attempted == st.attempted && r.counts == st.counts && r.completed == st.completed
      && r.errors == st.errors && r.calls == st.calls
      && r.skipped == st.skipped + seq(|items|, k requires 0 <= k < |items| => ZeroLimitSkip(route, items[k]))
    decreases |items|
  {
    var zs := seq(|items|, k requires 0 <= k < |items| => ZeroLimitSkip(route, items[k]));
    if items == [] {
      assert st.skipped + zs == st.skipped;
    } else {
      var s1 := Step(lim, fetch, st, items[0], route(items[0]));
      ZeroLimitRun(lim, route, fetch, s1, items[1..]);
      var zs1 := seq(|items| - 1, k requires 0 <= k < |items| - 1 => ZeroLimitSkip(route, items[1..][k]));
      assert zs == [ZeroLimitSkip(route, items[0])] + zs1;
    }
  }

  /**
   * With a global limit of zero or less, nothing is attempted and the
   * downloader is never called; every item is skipped in input order, as
   * "unsupported" when it does not route and as "global-limit" otherwise.
   */
  lemma NothingAttemptedUnderZeroLimit(lim: Limits, route: ManifestItem -> Option<string>, fetch: Fetch, items: seq<ManifestItem>)
    requires lim.limit.Some? && lim.limit.value <= 0
    ensures var r := Run(lim, route, fetch, START, items);
      && r.attempted == 0 && r.completed == [] && r.errors == [] && r.calls == [] && r.counts == map[]
      && |r.skipped| == |items|
      && forall k :: 0 <= k < |items| ==>
           r.skipped[k] == (items[k].sourceHint, items[k].url,
                            if Unsupported(route(items[k])) then UNSUPPORTED else GLOBAL_LIMIT)
  {
    ZeroLimitRun(lim, route, fetch, START, items);
    var r := Run(lim, route, fetch, START, items);
    assert r.skipped == [] + seq(|items|, k requires 0 <= k < |items| => ZeroLimitSkip(route, items[k]));
  }

  // ---------------------------------------------------------------------
  // The package's own downloader
  // ---------------------------------------------------------------------

  /** `Downloader(out_dir).download` seen from the batch loop: an exception becomes its message. */
  function DownloaderFetch(d: Core.Downloader, handlers: Core.Handlers): Fetch
  {
    (h: string, u: string, o: Options) =>
      var r := Core.Download(d, h, u, Some(o), handlers);
      if r.Success? then None else Some(r.error.message)
  }

  predicate RegisteredOutcomes(st: BatchState)
  {
    && (forall e :: e in st.completed ==> e.0 in Core.REGISTERED)
    && (forall e :: e in st.errors && e.0 !in Core.REGISTERED ==> e.2 == "Unknown source: " + e.0)
  }

  /**
   * With the package's `Downloader`, a real run completes only Google
   * Drive, Instagram and TikTok items: an item routed to any other
   * supported source is attempted, counted, and recorded as the error
   * "Unknown source: <source>".
   */
  lemma {:induction false} DownloaderCompletesOnlyRegistered(lim: Limits, route: ManifestItem -> Option<string>, d: Core.Downloader, handlers: Core.Handlers, st: BatchState, items: seq<ManifestItem>)
    requires !lim.dryRun
    requires RegisteredOutcomes(st)
    ensures RegisteredOutcomes(Run(lim, route, DownloaderFetch(d, handlers), st, items))
    decreases |items|
  {
    if items != [] {
      var fetch := DownloaderFetch(d, handlers);
      var s1 := Step(lim, fetch, st, items[0], route(items[0]));
      var f := FateOf(lim, fetch, st, items[0], route(items[0]));
      FateCases(lim, fetch, st, items[0], route(items[0]));
      if !f.Skipped? && f.handler !in Core.REGISTERED {
        assert fetch(f.handler, items[0].url, OptionsFor(f.handler)) == Some("Unknown source: " + f.handler);
      }
      DownloaderCompletesOnlyRegistered(lim, route, d, handlers, s1, items[1..]);
    }
  }

  // ---------------------------------------------------------------------
  // The cases of tests/test_batch.py
  // ---------------------------------------------------------------------

  /** The test double: it raises `RuntimeError('simulated failure')` when a fail token occurs in the URL. */
  function FakeFetch(failTokens: seq<string>): Fetch
  {
    (h: string, u: string, o: Options) =>
      if exists k :: 0 <= k < |failTokens| && Contains(u, failTokens[k]) then Some("simulated failure") else None
  }
}
