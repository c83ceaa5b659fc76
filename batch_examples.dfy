/**
 * The two `execute_batch` cases of `tests/test_batch.py`, evaluated on the
 * model of the loop. Routing facts about each literal are lemmas of their
 * own; the runs are then unfolded one item at a time.
 */
module BatchExamples {
  import opened Wrappers
  import opened Text
  import opened Values
  import opened Router
  import opened RouterExamples
  import opened Manifest
  import opened Batch

  const I0 := ManifestItem("instagram", "https://www.instagram.com/p/abc/")
  const I1 := ManifestItem("facebook", "https://www.facebook.com/watch?v=123")
  const I2 := ManifestItem("reddit", "https://www.reddit.com/r/test/comments/xyz")
  const I3 := ManifestItem("other", "https://example.com/unsupported")
  const I4 := ManifestItem("twitter", "https://twitter.com/example/status/1")
  const I5 := ManifestItem("twitter", "https://twitter.com/example/status/2")
  const FAILING := ManifestItem("twitter", "https://twitter.com/fail/status/99")

  /** The routes of the six items: four sources, one unsupported item, and Twitter twice. */
  lemma RouteInstagram() ensures Route(I0) == Some(INSTAGRAM)
  {
    DetectInstagramHint();
  }

  lemma RouteFacebook() ensures Route(I1) == Some(FACEBOOK)
  {
    DetectFacebookHint();
  }

  lemma RouteReddit() ensures Route(I2) == Some(REDDIT)
  {
    DetectRedditHint();
  }

  lemma RouteOther() ensures Route(I3) == None
  {
    DetectOther();
  }

  lemma RouteTwitter(url: string) ensures Route(ManifestItem("twitter", url)) == Some(TWITTER)
  {
    DetectTwitterHint(url);
  }

  /** One more item of a run. */
  lemma RunCons(lim: Limits, route: ManifestItem -> Option<string>, fetch: Fetch, st: BatchState, item: ManifestItem, rest: seq<ManifestItem>)
    ensures Run(lim, route, fetch, st, [item] + rest) == Run(lim, route, fetch, Step(lim, fetch, st, item, route(item)), rest)
  {
    assert ([item] + rest)[0] == item && ([item] + rest)[1..] == rest;
  }

  const PER_SOURCE_ONE := Limits(None, Some(1), false)

  /** The state after the first three items: each of them is attempted and completes. */
  lemma FirstThree(st: BatchState)
    requires st == Step(PER_SOURCE_ONE, FakeFetch([]), Step(PER_SOURCE_ONE, FakeFetch([]), Step(PER_SOURCE_ONE, FakeFetch([]), START, I0, Some(INSTAGRAM)), I1, Some(FACEBOOK)), I2, Some(REDDIT))
    ensures st.counts == map[INSTAGRAM := 1, FACEBOOK := 1, REDDIT := 1]
    ensures st.attempted == 3
    ensures st.skipped == [] && st.errors == []
    ensures st.calls == [Call(INSTAGRAM, I0.url, map["auth" := VStr("auto")]),
                         Call(FACEBOOK, I1.url, map["use_session" := VBool(true)]),
                         Call(REDDIT, I2.url, map["use_session" := VBool(true)])]
  {
  }

  /** The last three items: the unsupported one is skipped, the first Twitter item completes, the second hits the per-source limit. */
  lemma LastThree(st: BatchState, r: BatchState)
    requires st.counts == map[INSTAGRAM := 1, FACEBOOK := 1, REDDIT := 1]
    requires r == Step(PER_SOURCE_ONE, FakeFetch([]), Step(PER_SOURCE_ONE, FakeFetch([]), Step(PER_SOURCE_ONE, FakeFetch([]), st, I3, None), I4, Some(TWITTER)), I5, Some(TWITTER))
    ensures r.attempted == st.attempted + 1
    ensures r.skipped == st.skipped + [("other", I3.url, UNSUPPORTED), ("twitter", I5.url, PER_SOURCE_LIMIT)]
    ensures r.errors == st.errors
    ensures r.calls == st.calls + [Call(TWITTER, I4.url, map["use_session" := VBool(true)])]
  {
  }

  /** The six-item run, for any routing that sends the items where `detect_handler` does. */
  lemma LimitsAndOptionsRouted(route: ManifestItem -> Option<string>)
    requires route(I0) == Some(INSTAGRAM) && route(I1) == Some(FACEBOOK) && route(I2) == Some(REDDIT)
    requires route(I3) == None && route(I4) == Some(TWITTER) && route(I5) == Some(TWITTER)
    ensures var r := Run(PER_SOURCE_ONE, route, FakeFetch([]), START, [I0, I1, I2, I3, I4, I5]);
      && |r.calls| == 4
      && r.calls[0] == Call(INSTAGRAM, I0.url, map["auth" := VStr("auto")])
      && r.calls[1] == Call(FACEBOOK, I1.url, map["use_session" := VBool(true)])
      && r.skipped == [("other", I3.url, UNSUPPORTED), ("twitter", I5.url, PER_SOURCE_LIMIT)]
      && r.errors == []
      && r.attempted == 4
  {
    var lim, fetch := PER_SOURCE_ONE, FakeFetch([]);
    var s1 := Step(lim, fetch, START, I0, Some(INSTAGRAM));
    var s2 := Step(lim, fetch, s1, I1, Some(FACEBOOK));
    var s3 := Step(lim, fetch, s2, I2, Some(REDDIT));
    var s4 := Step(lim, fetch, s3, I3, None);
    var s5 := Step(lim, fetch, s4, I4, Some(TWITTER));
    var s6 := Step(lim, fetch, s5, I5, Some(TWITTER));
    RunCons(lim, route, fetch, START, I0, [I1, I2, I3, I4, I5]);
    RunCons(lim, route, fetch, s1, I1, [I2, I3, I4, I5]);
    RunCons(lim, route, fetch, s2, I2, [I3, I4, I5]);
    RunCons(lim, route, fetch, s3, I3, [I4, I5]);
    RunCons(lim, route, fetch, s4, I4, [I5]);
    RunCons(lim, route, fetch, s5, I5, []);
    assert Run(lim, route, fetch, START, [I0, I1, I2, I3, I4, I5]) == s6;
    FirstThree(s3);
    LastThree(s3, s6);
  }

  /**
   * `test_execute_batch_respects_limits_and_options`: with a per-source
   * limit of one, four downloads are made, Instagram with `auth='auto'` and
   * Facebook with `use_session=True`, and the skipped items are the
   * unsupported one and the second Twitter item.
   */
  lemma LimitsAndOptionsCase()
    ensures var r := Run(PER_SOURCE_ONE, Route, FakeFetch([]), START, [I0, I1, I2, I3, I4, I5]);
      && |r.calls| == 4
      && r.calls[0] == Call(INSTAGRAM, I0.url, map["auth" := VStr("auto")])
      && r.calls[1] == Call(FACEBOOK, I1.url, map["use_session" := VBool(true)])
      && r.skipped == [("other", I3.url, UNSUPPORTED), ("twitter", I5.url, PER_SOURCE_LIMIT)]
      && r.errors == []
      && r.attempted == 4
  {
    RouteInstagram();
    RouteFacebook();
    RouteReddit();
    RouteOther();
    RouteTwitter(I4.url);
    RouteTwitter(I5.url);
    LimitsAndOptionsRouted(Route);
  }

  /** The fake downloader raises for the URL holding the fail token. */
  lemma FailTokenRaises()
    ensures FakeFetch(["fail"])(TWITTER, FAILING.url, OptionsFor(TWITTER)) == Some("simulated failure")
  {
    assert FAILING.url[20..24] == "fail";
    ContainsAt(FAILING.url, "fail", 20);
    assert ["fail"][0] == "fail";
  }

  /** The one-item run, for any routing that sends the item to Twitter. */
  lemma RecordsErrorsRouted(route: ManifestItem -> Option<string>)
    requires route(FAILING) == Some(TWITTER)
    ensures var r := Run(Limits(None, None, false), route, FakeFetch(["fail"]), START, [FAILING]);
      && r.errors == [(TWITTER, FAILING.url, "simulated failure")]
      && r.skipped == []
      && r.completed == []
      && r.attempted == 1
  {
    var lim, fetch := Limits(None, None, false), FakeFetch(["fail"]);
    FailTokenRaises();
    RunCons(lim, route, fetch, START, FAILING, []);
  }

  /** `test_execute_batch_records_errors`: a download that raises is recorded as one error and nothing is skipped. */
  lemma RecordsErrorsCase()
    ensures var r := Run(Limits(None, None, false), Route, FakeFetch(["fail"]), START, [FAILING]);
      && r.errors == [(TWITTER, FAILING.url, "simulated failure")]
      && r.skipped == []
      && r.completed == []
      && r.attempted == 1
  {
    RouteTwitter(FAILING.url);
    RecordsErrorsRouted(Route);
  }
}
