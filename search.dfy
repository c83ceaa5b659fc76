/**
 * The one regular-expression shape the handlers use with `re.search`:
 * `(?:A1|A2|...)([\w-]+)`, where each alternative `Ai` is a fixed run of
 * literal characters and unescaped `.` (any character but a newline).
 * `re.search` returns the leftmost position where some alternative, tried
 * in order, is followed by at least one `[\w-]` character; the group is
 * then the longest run of such characters.
 */
module Search {
  import opened Wrappers
  import opened Text

  datatype Pat = Lit(c: char) | AnyChar

  type Pattern = seq<Pat>

  predicate PatMatches(p: Pat, c: char)
  {
    match p
    case Lit(x) => c == x
    case AnyChar => c != '\n'
  }

  /** A pattern made of literal characters only. */
  function Literal(s: string): (p: Pattern)
    ensures |p| == |s|
    ensures forall k :: 0 <= k < |s| ==> p[k] == Lit(s[k])
  {
    if s == [] then [] else [Lit(s[0])] + Literal(s[1..])
  }

  /** `pat` matches the text at `i` and is followed by an id character. */
  predicate HitsAt(s: string, pat: Pattern, i: nat)
  {
    && i + |pat| < |s|
    && (forall k :: 0 <= k < |pat| ==> PatMatches(pat[k], s[i + k]))
    && IdChar(s[i + |pat|])
  }

  /** The first alternative that leads to a match at `i`, as the regex engine tries them. */
  function AltAt(s: string, alts: seq<Pattern>, i: nat, from: nat := 0): (r: Option<nat>)
    requires from <= |alts|
    ensures r.Some? ==> from <= r.value < |alts| && HitsAt(s, alts[r.value], i)
    ensures r.Some? ==> forall k :: from <= k < r.value ==> !HitsAt(s, alts[k], i)
    ensures r.None? ==> forall k :: from <= k < |alts| ==> !HitsAt(s, alts[k], i)
    decreases |alts| - from
  {
    if from == |alts| then None
    else if HitsAt(s, alts[from], i) then Some(from)
    else AltAt(s, alts, i, from + 1)
  }

  /** The leftmost position at or after `i` where the search succeeds. */
  function SearchFrom(s: string, alts: seq<Pattern>, i: nat): (r: Option<nat>)
    ensures r.Some? ==> i <= r.value < |s| && AltAt(s, alts, r.value).Some?
    ensures r.Some? ==> forall j :: i <= j < r.value ==> AltAt(s, alts, j).None?
    ensures r.None? ==> forall j :: i <= j < |s| ==> AltAt(s, alts, j).None?
    decreases |s| - i
  {
    if i >= |s| then None
    else if AltAt(s, alts, i).Some? then Some(i)
    else SearchFrom(s, alts, i + 1)
  }

  /** The longest prefix of `s` made of id characters (a greedy `[\w-]*`). */
  function IdRun(s: string): (r: string)
    ensures |r| <= |s| && r == s[..|r|]
    ensures forall k :: 0 <= k < |r| ==> IdChar(r[k])
    ensures |r| < |s| ==> !IdChar(s[|r|])
  {
    if s != [] && IdChar(s[0]) then [s[0]] + IdRun(s[1..]) else []
  }

  /** `m.group(1)` of `re.search`, or `None` when nothing matches. */
  function Capture(s: string, alts: seq<Pattern>): (r: Option<string>)
  {
    match SearchFrom(s, alts, 0)
    case None => None
    case Some(i) =>
      var k := AltAt(s, alts, i).value;
      Some(IdRun(s[i + |alts[k]|..]))
  }

  /**
   * The captured group is the maximal id-character run right after the
   * leftmost hit: it is non-empty, made only of id characters, and not
   * followed by another one; and there is a capture exactly when some
   * alternative hits somewhere.
   */
  lemma CaptureSpec(s: string, alts: seq<Pattern>)
    ensures Capture(s, alts).Some? <==> exists i, k :: 0 <= i < |s| && 0 <= k < |alts| && HitsAt(s, alts[k], i)
    ensures Capture(s, alts).Some? ==>
      var id := Capture(s, alts).value;
      && id != []
      && (forall c :: c in id ==> IdChar(c))
      && exists i, k :: 0 <= i < |s| && 0 <= k < |alts| && HitsAt(s, alts[k], i) && AltAt(s, alts, i) == Some(k)
           && (forall j :: 0 <= j < i ==> AltAt(s, alts, j).None?)
           && OccursAt(s, id, i + |alts[k]|)
           && (i + |alts[k]| + |id| < |s| ==> !IdChar(s[i + |alts[k]| + |id|]))
  {
    match SearchFrom(s, alts, 0)
    case None =>
      forall i, k | 0 <= i < |s| && 0 <= k < |alts|
        ensures !HitsAt(s, alts[k], i)
      {
        assert AltAt(s, alts, i).None?;
      }
    case Some(i) =>
      var k := AltAt(s, alts, i).value;
      var rest := s[i + |alts[k]|..];
      var id := IdRun(rest);
      assert rest[0] == s[i + |alts[k]|];
      assert id != [];
      assert HitsAt(s, alts[k], i);
      assert OccursAt(s, id, i + |alts[k]|);
      forall c | c in id ensures IdChar(c) {
        var m :| 0 <= m < |id| && id[m] == c;
      }
      if i + |alts[k]| + |id| < |s| {
        assert s[i + |alts[k]| + |id|] == rest[|id|];
      }
  }

  /** A captured group is text of the searched string. */
  lemma CaptureContained(s: string, alts: seq<Pattern>)
    requires Capture(s, alts).Some?
    ensures Contains(s, Capture(s, alts).value)
  {
    var i := SearchFrom(s, alts, 0).value;
    var k := AltAt(s, alts, i).value;
    var id := IdRun(s[i + |alts[k]|..]);
    assert OccursAt(s, id, i + |alts[k]|);
    ContainsAt(s, id, i + |alts[k]|);
  }
}
