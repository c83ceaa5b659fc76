/**
 * The routing cases of `tests/test_batch.py`, and the substring pitfall of
 * `netflix.com`, evaluated on the model of `detect_handler`.
 *
 * The verifier evaluates a string literal in full wherever it meets one, so
 * a single example stated in one lemma is too costly to check. Each example
 * is therefore proved in layers, one small lemma per layer and value:
 *  - `Lower<Value>`: the value lower-cased;
 *  - `First<Value>`: the index of the first alias rule that occurs in it,
 *    where the fact that no earlier rule occurs is split into groups of a
 *    few rules each (`<Value>MissesA`, `<Value>MissesB`, ...);
 *  - `Match<Value>`: the handler `match_alias` gives;
 *  - `Spell<Host>`: a test URL as scheme, `://`, host and path, so that the
 *    network location is read off the pieces;
 *  - `Detect<Case>`: what `detect_handler` gives for the test's item.
 * Only the `Detect*` lemmas and `NetflixIsTwitter` are the examples; the
 * others are steps towards them.
 */
module RouterExamples {
  import opened Wrappers
  import opened Text
  import opened Router

  lemma LowerEmpty() ensures Lower("") == ""
  {
    LowerNoCapitals("");
  }

  lemma FirstEmpty() ensures FirstAlias("") == None
  {
    AliasTable();
    FirstAliasNone("");
  }

  lemma MatchEmpty() ensures MatchAlias("") == None
  {
    LowerEmpty();
    FirstEmpty();
  }

  lemma LowerTwitter() ensures Lower("twitter") == "twitter"
  {
    LowerNoCapitals("twitter");
  }

  lemma FirstTwitter() ensures FirstAlias("twitter") == Some(10)
  {
    AliasTable();
    FirstAliasAt("twitter", 10);
  }

  lemma MatchTwitter() ensures MatchAlias("twitter") == Some(TWITTER)
  {
    LowerTwitter();
    FirstTwitter();
  }

  lemma LowerThreads() ensures Lower("threads") == "threads"
  {
    LowerNoCapitals("threads");
  }

  lemma FirstThreads() ensures FirstAlias("threads") == Some(7)
  {
    AliasTable();
    FirstAliasAt("threads", 7);
  }

  lemma MatchThreads() ensures MatchAlias("threads") == Some(THREADS)
  {
    LowerThreads();
    FirstThreads();
  }

  lemma LowerUnknown() ensures Lower("unknown") == "unknown"
  {
    LowerNoCapitals("unknown");
  }

  lemma FirstUnknown() ensures FirstAlias("unknown") == None
  {
    AliasTable();
    FirstAliasNone("unknown");
  }

  lemma MatchUnknown() ensures MatchAlias("unknown") == None
  {
    LowerUnknown();
    FirstUnknown();
  }

  lemma LowerFxTwitter() ensures Lower("fxtwitter.com") == "fxtwitter.com"
  {
    LowerNoCapitals("fxtwitter.com");
  }

  lemma FxTwitterMissesA() ensures forall j :: 0 <= j < 4 ==> !Contains("fxtwitter.com", ALIAS_MAP[j].0)
  {
    AliasTable();
  }

  lemma FxTwitterMissesB() ensures forall j :: 4 <= j < 7 ==> !Contains("fxtwitter.com", ALIAS_MAP[j].0)
  {
    AliasTable();
  }

  lemma FxTwitterMissesC() ensures forall j :: 7 <= j < 10 ==> !Contains("fxtwitter.com", ALIAS_MAP[j].0)
  {
    AliasTable();
  }

  lemma FxTwitterHits() ensures Contains("fxtwitter.com", ALIAS_MAP[10].0)
  {
    AliasTable();
  }

  lemma FirstFxTwitter() ensures FirstAlias("fxtwitter.com") == Some(10)
  {
    FxTwitterMissesA();
    FxTwitterMissesB();
    FxTwitterMissesC();
    FxTwitterHits();
    FirstAliasAt("fxtwitter.com", 10);
  }

  lemma MatchFxTwitter() ensures MatchAlias("fxtwitter.com") == Some(TWITTER)
  {
    LowerFxTwitter();
    FirstFxTwitter();
  }

  lemma LowerYoutuBe() ensures Lower("youtu.be") == "youtu.be"
  {
    LowerNoCapitals("youtu.be");
  }

  lemma FirstYoutuBe() ensures FirstAlias("youtu.be") == Some(20)
  {
    AliasTable();
    FirstAliasAt("youtu.be", 20);
  }

  lemma MatchYoutuBe() ensures MatchAlias("youtu.be") == Some(YOUTUBE)
  {
    LowerYoutuBe();
    FirstYoutuBe();
  }

  lemma LowerExample() ensures Lower("example.com") == "example.com"
  {
    LowerNoCapitals("example.com");
  }

  lemma ExampleMissesA() ensures forall j :: 0 <= j < 4 ==> !Contains("example.com", ALIAS_MAP[j].0)
  {
    AliasTable();
  }

  lemma ExampleMissesB() ensures forall j :: 4 <= j < 7 ==> !Contains("example.com", ALIAS_MAP[j].0)
  {
    AliasTable();
  }

  lemma ExampleMissesC() ensures forall j :: 7 <= j < 10 ==> !Contains("example.com", ALIAS_MAP[j].0)
  {
    AliasTable();
  }

  lemma ExampleMissesD() ensures forall j :: 10 <= j < 13 ==> !Contains("example.com", ALIAS_MAP[j].0)
  {
    AliasTable();
  }

  lemma ExampleMissesE() ensures forall j :: 13 <= j < 16 ==> !Contains("example.com", ALIAS_MAP[j].0)
  {
    AliasTable();
  }

  lemma ExampleMissesF() ensures forall j :: 16 <= j < 19 ==> !Contains("example.com", ALIAS_MAP[j].0)
  {
    AliasTable();
  }

  lemma ExampleMissesG() ensures forall j :: 19 <= j < 22 ==> !Contains("example.com", ALIAS_MAP[j].0)
  {
    AliasTable();
  }

  lemma FirstExample() ensures FirstAlias("example.com") == None
  {
    ExampleMissesA();
    ExampleMissesB();
    ExampleMissesC();
    ExampleMissesD();
    ExampleMissesE();
    ExampleMissesF();
    ExampleMissesG();
    FirstAliasNone("example.com");
  }

  lemma MatchExample() ensures MatchAlias("example.com") == None
  {
    LowerExample();
    FirstExample();
  }

  lemma LowerNetflix() ensures Lower("netflix.com") == "netflix.com"
  {
    LowerNoCapitals("netflix.com");
  }

  lemma NetflixMissesA() ensures forall j :: 0 <= j < 4 ==> !Contains("netflix.com", ALIAS_MAP[j].0)
  {
    AliasTable();
  }

  lemma NetflixMissesB() ensures forall j :: 4 <= j < 7 ==> !Contains("netflix.com", ALIAS_MAP[j].0)
  {
    AliasTable();
  }

  lemma NetflixMissesC() ensures forall j :: 7 <= j < 11 ==> !Contains("netflix.com", ALIAS_MAP[j].0)
  {
    AliasTable();
  }

  lemma NetflixHits() ensures Contains("netflix.com", ALIAS_MAP[11].0)
  {
    AliasTable();
  }

  lemma FirstNetflix() ensures FirstAlias("netflix.com") == Some(11)
  {
    NetflixMissesA();
    NetflixMissesB();
    NetflixMissesC();
    NetflixHits();
    FirstAliasAt("netflix.com", 11);
  }

  lemma LowerInstagram() ensures Lower("instagram") == "instagram"
  {
    LowerNoCapitals("instagram");
  }

  lemma FirstInstagram() ensures FirstAlias("instagram") == Some(4)
  {
    AliasTable();
    FirstAliasAt("instagram", 4);
  }

  lemma MatchInstagram() ensures MatchAlias("instagram") == Some(INSTAGRAM)
  {
    LowerInstagram();
    FirstInstagram();
  }

  lemma LowerFacebook() ensures Lower("facebook") == "facebook"
  {
    LowerNoCapitals("facebook");
  }

  lemma FirstFacebook() ensures FirstAlias("facebook") == Some(16)
  {
    AliasTable();
    FirstAliasAt("facebook", 16);
  }

  lemma MatchFacebook() ensures MatchAlias("facebook") == Some(FACEBOOK)
  {
    LowerFacebook();
    FirstFacebook();
  }

  lemma LowerReddit() ensures Lower("reddit") == "reddit"
  {
    LowerNoCapitals("reddit");
  }

  lemma FirstReddit() ensures FirstAlias("reddit") == Some(14)
  {
    AliasTable();
    FirstAliasAt("reddit", 14);
  }

  lemma MatchReddit() ensures MatchAlias("reddit") == Some(REDDIT)
  {
    LowerReddit();
    FirstReddit();
  }

  lemma LowerOther() ensures Lower("other") == "other"
  {
    LowerNoCapitals("other");
  }

  lemma FirstOther() ensures FirstAlias("other") == None
  {
    AliasTable();
    FirstAliasNone("other");
  }

  lemma MatchOther() ensures MatchAlias("other") == None
  {
    LowerOther();
    FirstOther();
  }

  lemma SpellFxTwitter() ensures "https" + "://" + "fxtwitter.com" + "/example/2" == "https://fxtwitter.com/example/2"
  {
  }

  lemma NetlocFxTwitter() ensures Netloc("https://fxtwitter.com/example/2") == "fxtwitter.com"
  {
    SpellFxTwitter();
    NetlocOfAuthority("https", "fxtwitter.com", "/example/2");
  }

  lemma SpellYoutuBe() ensures "https" + "://" + "youtu.be" + "/abc" == "https://youtu.be/abc"
  {
  }

  lemma NetlocYoutuBe() ensures Netloc("https://youtu.be/abc") == "youtu.be"
  {
    SpellYoutuBe();
    NetlocOfAuthority("https", "youtu.be", "/abc");
  }

  lemma SpellExample() ensures "https" + "://" + "example.com" + "/video/1" == "https://example.com/video/1"
  {
  }

  lemma NetlocExample() ensures Netloc("https://example.com/video/1") == "example.com"
  {
    SpellExample();
    NetlocOfAuthority("https", "example.com", "/video/1");
  }

  lemma SpellUnsupported() ensures "https" + "://" + "example.com" + "/unsupported" == "https://example.com/unsupported"
  {
  }

  lemma NetlocUnsupported() ensures Netloc("https://example.com/unsupported") == "example.com"
  {
    SpellUnsupported();
    NetlocOfAuthority("https", "example.com", "/unsupported");
  }

  /** A hint naming Twitter decides, whatever the URL. */
  lemma DetectTwitterHint(url: string)
    ensures DetectHandler("twitter", url) == Some(TWITTER)
  {
    MatchTwitter();
  }

  /** `detect_handler('twitter', 'https://twitter.com/example/status/1')` is Twitter. */
  lemma DetectTwitterStatus()
    ensures DetectHandler("twitter", "https://twitter.com/example/status/1") == Some(TWITTER)
  {
    DetectTwitterHint("https://twitter.com/example/status/1");
  }

  /** `detect_handler('', 'https://fxtwitter.com/example/2')`: no hint, the host names Twitter. */
  lemma DetectFxTwitterHost()
    ensures DetectHandler("", "https://fxtwitter.com/example/2") == Some(TWITTER)
  {
    MatchEmpty();
    NetlocFxTwitter();
    MatchFxTwitter();
  }

  /** `detect_handler('threads', 'https://www.threads.net/@user/post/3')` is Threads. */
  lemma DetectThreadsHint()
    ensures DetectHandler("threads", "https://www.threads.net/@user/post/3") == Some(THREADS)
  {
    MatchThreads();
  }

  /** `detect_handler('', 'https://youtu.be/abc')`: the short host is YouTube although "youtube" does not occur in it. */
  lemma DetectYoutuBeHost()
    ensures DetectHandler("", "https://youtu.be/abc") == Some(YOUTUBE)
  {
    MatchEmpty();
    NetlocYoutuBe();
    MatchYoutuBe();
  }

  /** `detect_handler('unknown', 'https://example.com/video/1')` is None: neither the hint nor the host matches. */
  lemma DetectUnknown()
    ensures DetectHandler("unknown", "https://example.com/video/1") == None
  {
    MatchUnknown();
    NetlocExample();
    MatchExample();
  }

  /** Matching is by substring and the first rule wins: "netflix.com" contains "x.com", so it routes to Twitter. */
  lemma NetflixIsTwitter()
    ensures MatchAlias("netflix.com") == Some(TWITTER)
  {
    FirstNetflix();
    LowerNetflix();
  }

  /** The items of the batch test: three hints that name their source, and one item nothing routes. */
  lemma DetectInstagramHint()
    ensures DetectHandler("instagram", "https://www.instagram.com/p/abc/") == Some(INSTAGRAM)
  {
    MatchInstagram();
  }

  lemma DetectFacebookHint()
    ensures DetectHandler("facebook", "https://www.facebook.com/watch?v=123") == Some(FACEBOOK)
  {
    MatchFacebook();
  }

  lemma DetectRedditHint()
    ensures DetectHandler("reddit", "https://www.reddit.com/r/test/comments/xyz") == Some(REDDIT)
  {
    MatchReddit();
  }

  lemma DetectOther()
    ensures DetectHandler("other", "https://example.com/unsupported") == None
  {
    MatchOther();
    NetlocUnsupported();
    MatchExample();
  }
}
