/**
 * ASCII string helpers with the meaning Python gives them: `str.lower`,
 * `str.isalnum`, `str.isspace`, `in` on strings, `startswith`/`endswith`,
 * `strip`, `split(sep)`, and the `[\w-]` character class of `re`.
 * Non-ASCII letters are outside the model: they are neither lowered nor
 * counted as alphanumeric.
 */
module Text {

  predicate IsAsciiLetter(c: char) { 'A' <= c <= 'Z' || 'a' <= c <= 'z' }

  predicate IsDigit(c: char) { '0' <= c <= '9' }

  /** `str.isalnum` on one ASCII character. */
  predicate IsAlnum(c: char) { IsAsciiLetter(c) || IsDigit(c) }

  /** `str.isspace` on one ASCII character: space, \t \n \v \f \r and \x1c-\x1f. */
  predicate IsSpace(c: char) { c == ' ' || 9 <= c as int <= 13 || 28 <= c as int <= 31 }

  /** Text made of whitespace only (or empty). */
  predicate AllSpace(s: string) { forall i :: 0 <= i < |s| ==> IsSpace(s[i]) }

  /** The `[\w-]` class of a `re` pattern on ASCII text. */
  predicate IdChar(c: char) { IsAlnum(c) || c == '_' || c == '-' }

  function LowerChar(c: char): (r: char)
    ensures IsAlnum(c) ==> IsAlnum(r) && !('A' <= r <= 'Z')
    ensures !IsAlnum(c) ==> r == c
  {
    if 'A' <= c <= 'Z' then (c as int + 32) as char else c
  }

  /** `str.lower` on ASCII text. */
  function Lower(s: string): string
  {
    seq(|s|, i requires 0 <= i < |s| => LowerChar(s[i]))
  }

  predicate StartsWith(s: string, prefix: string) { |prefix| <= |s| && s[..|prefix|] == prefix }

  predicate EndsWith(s: string, suffix: string) { |suffix| <= |s| && s[|s| - |suffix|..] == suffix }

  /** `needle` agrees with `hay` from index `i` on, comparing from the needle's `k`-th character. */
  predicate MatchesFrom(hay: string, needle: string, i: nat, k: nat)
    requires i + |needle| <= |hay|
    decreases |needle| - k
  {
    k >= |needle| || (hay[i + k] == needle[k] && MatchesFrom(hay, needle, i, k + 1))
  }

  /** `needle` occurs in `hay` at some index `i` or later. */
  predicate ContainsFrom(hay: string, needle: string, i: nat)
    decreases |hay| - i
  {
    i + |needle| <= |hay| && (MatchesFrom(hay, needle, i, 0) || ContainsFrom(hay, needle, i + 1))
  }

  /** `needle in hay` on Python strings: substring containment. */
  predicate Contains(hay: string, needle: string)
  {
    ContainsFrom(hay, needle, 0)
  }

  /** `needle` occurs in `hay` starting at index `i`. */
  ghost predicate OccursAt(hay: string, needle: string, i: int)
  {
    0 <= i && i + |needle| <= |hay| && hay[i..i + |needle|] == needle
  }

  lemma {:induction false} MatchesFromIff(hay: string, needle: string, i: nat, k: nat)
    requires i + |needle| <= |hay|
    ensures MatchesFrom(hay, needle, i, k) <==> forall m :: k <= m < |needle| ==> hay[i + m] == needle[m]
    decreases |needle| - k
  {
    if k < |needle| {
      MatchesFromIff(hay, needle, i, k + 1);
    }
  }

  lemma {:induction false} ContainsFromIff(hay: string, needle: string, i: nat)
    ensures ContainsFrom(hay, needle, i) <==> exists j :: i <= j && OccursAt(hay, needle, j)
    decreases |hay| - i
  {
    if i + |needle| <= |hay| {
      MatchesFromIff(hay, needle, i, 0);
      assert MatchesFrom(hay, needle, i, 0) <==> OccursAt(hay, needle, i) by {
        if MatchesFrom(hay, needle, i, 0) {
          assert hay[i..i + |needle|] == needle;
        }
        if OccursAt(hay, needle, i) {
          forall m | 0 <= m < |needle| ensures hay[i + m] == needle[m] {
            assert hay[i..i + |needle|][m] == hay[i + m];
          }
        }
      }
      ContainsFromIff(hay, needle, i + 1);
      if OccursAt(hay, needle, i) {
        assert exists j :: i <= j && OccursAt(hay, needle, j);
      }
      if exists j :: i <= j && OccursAt(hay, needle, j) {
        var j :| i <= j && OccursAt(hay, needle, j);
        assert j == i || (i + 1 <= j && OccursAt(hay, needle, j));
      }
    }
  }

  /** `in` on strings is containment at some index. */
  lemma ContainsIff(hay: string, needle: string)
    ensures Contains(hay, needle) <==> exists i :: OccursAt(hay, needle, i)
  {
    ContainsFromIff(hay, needle, 0);
  }

  lemma ContainsAt(hay: string, needle: string, i: int)
    requires OccursAt(hay, needle, i)
    ensures Contains(hay, needle)
  {
    ContainsIff(hay, needle);
  }

  /** Every character of a contained needle occurs in the text. */
  lemma ContainedChars(hay: string, needle: string)
    ensures Contains(hay, needle) ==> forall c :: c in needle ==> c in hay
  {
    if Contains(hay, needle) {
      ContainsIff(hay, needle);
      var i :| OccursAt(hay, needle, i);
      forall c | c in needle ensures c in hay {
        var m :| 0 <= m < |needle| && needle[m] == c;
        assert hay[i..i + |needle|][m] == hay[i + m];
      }
    }
  }

  /** A needle holding a character that the text lacks is not contained in it. */
  lemma NotContainsForeign(hay: string, needle: string, c: char)
    requires c in needle && c !in hay
    ensures !Contains(hay, needle)
  {
    ContainedChars(hay, needle);
  }

  /** Lower-casing text without capitals changes nothing. */
  lemma {:induction false} LowerNoCapitals(s: string)
    requires forall k :: 0 <= k < |s| ==> !('A' <= s[k] <= 'Z')
    ensures Lower(s) == s
  {
  }

  /** `s.lstrip(chars)`: drop the leading characters that satisfy `drop`. */
  function TrimStart(s: string, drop: char -> bool): (r: string)
    ensures |r| <= |s| && r == s[|s| - |r|..]
    ensures r != [] ==> !drop(r[0])
    ensures forall i :: 0 <= i < |s| - |r| ==> drop(s[i])
  {
    if s != [] && drop(s[0]) then TrimStart(s[1..], drop) else s
  }

  /** `s.rstrip(chars)`: drop the trailing characters that satisfy `drop`. */
  function TrimEnd(s: string, drop: char -> bool): (r: string)
    ensures |r| <= |s| && r == s[..|r|]
    ensures r != [] ==> !drop(r[|r| - 1])
    ensures forall i :: |r| <= i < |s| ==> drop(s[i])
  {
    if s != [] && drop(s[|s| - 1]) then TrimEnd(s[..|s| - 1], drop) else s
  }

  /** `s.strip(chars)`. */
  function Trim(s: string, drop: char -> bool): string
  {
    TrimEnd(TrimStart(s, drop), drop)
  }

  lemma {:induction false} TrimStartKeeps(s: string, drop: char -> bool)
    requires s == [] || !drop(s[0])
    ensures TrimStart(s, drop) == s
  {
  }

  lemma {:induction false} TrimEndKeeps(s: string, drop: char -> bool)
    requires s == [] || !drop(s[|s| - 1])
    ensures TrimEnd(s, drop) == s
  {
  }

  /** Stripping text made only of dropped characters leaves nothing. */
  lemma TrimAllDropped(s: string, drop: char -> bool)
    requires forall i :: 0 <= i < |s| ==> drop(s[i])
    ensures Trim(s, drop) == ""
  {
    TrimStartAllDropped(s, drop);
  }

  lemma {:induction false} TrimStartAllDropped(s: string, drop: char -> bool)
    requires forall i :: 0 <= i < |s| ==> drop(s[i])
    ensures TrimStart(s, drop) == ""
    decreases |s|
  {
    if s != [] {
      assert forall i :: 0 <= i < |s[1..]| ==> s[1..][i] == s[i + 1];
      TrimStartAllDropped(s[1..], drop);
    }
  }

  /**
   * The result of `strip` is the infix of `s` left after removing the
   * dropped characters at both ends: it neither starts nor ends with one.
   */
  lemma TrimShape(s: string, drop: char -> bool)
    ensures var r := Trim(s, drop);
      (r != [] ==> !drop(r[0]) && !drop(r[|r| - 1])) &&
      exists k :: OccursAt(s, r, k)
  {
    var t := TrimStart(s, drop);
    var r := TrimEnd(t, drop);
    var k := |s| - |t|;
    assert r == s[k..k + |r|];
    assert OccursAt(s, r, k);
    if r != [] {
      assert r[0] == t[0];
    }
  }

  /**
   * Where the stripped text sits: just after the dropped characters at the
   * front, and followed only by dropped characters.
   */
  lemma TrimOccurs(s: string, drop: char -> bool)
    ensures var k := |s| - |TrimStart(s, drop)|;
      && OccursAt(s, Trim(s, drop), k)
      && (forall i :: 0 <= i < k ==> drop(s[i]))
      && (forall i :: k + |Trim(s, drop)| <= i < |s| ==> drop(s[i]))
  {
    var t := TrimStart(s, drop);
    var k := |s| - |t|;
    assert t == s[k..];
    TrimEndInside(s, k, drop);
  }

  /**
   * `strip` removes whitespace only: what it leaves neither starts nor ends
   * with whitespace, and it is framed in `s` by whitespace alone.
   */
  lemma StripAround(s: string)
    ensures var r := Strip(s); r == [] || (!IsSpace(r[0]) && !IsSpace(r[|r| - 1]))
    ensures var r := Strip(s); exists k :: OccursAt(s, r, k) && AllSpace(s[..k]) && AllSpace(s[k + |r|..])
  {
    var t := TrimStart(s, IsSpace);
    var r := TrimEnd(t, IsSpace);
    var k := |s| - |t|;
    assert t == s[k..];
    TrimEndInside(s, k, IsSpace);
    forall i | 0 <= i < k
      ensures IsSpace(s[..k][i])
    {
      assert s[..k][i] == s[i];
    }
    var back := s[k + |r|..];
    forall i | 0 <= i < |back|
      ensures IsSpace(back[i])
    {
      assert back[i] == s[k + |r| + i];
    }
    TrimShape(s, IsSpace);
    assert OccursAt(s, r, k) && AllSpace(s[..k]) && AllSpace(back);
  }

  /** Stripping the end of `s[k..]` leaves a piece of `s` at `k` followed by dropped characters. */
  lemma TrimEndInside(s: string, k: int, drop: char -> bool)
    requires 0 <= k <= |s|
    ensures var r := TrimEnd(s[k..], drop);
      && OccursAt(s, r, k)
      && (forall i :: k + |r| <= i < |s| ==> drop(s[i]))
  {
    var t := s[k..];
    var r := TrimEnd(t, drop);
    assert r == t[..|r|] == s[k..k + |r|];
    forall i | k + |r| <= i < |s|
      ensures drop(s[i])
    {
      assert s[i] == t[i - k];
    }
  }

  /** `strip` is idempotent. */
  lemma {:induction false} TrimIdempotent(s: string, drop: char -> bool)
    ensures Trim(Trim(s, drop), drop) == Trim(s, drop)
  {
    var r := Trim(s, drop);
    TrimShape(s, drop);
    TrimStartKeeps(r, drop);
    TrimEndKeeps(r, drop);
  }

  /** Python's `str.strip()` with no argument (ASCII whitespace). */
  function Strip(s: string): string
  {
    Trim(s, IsSpace)
  }

  /** Python's `s.split(sep)` for a one-character separator. */
  function Split(s: string, sep: char): (parts: seq<string>)
    ensures |parts| >= 1
    ensures forall k :: 0 <= k < |parts| ==> sep !in parts[k]
    decreases |s|
  {
    if s == [] then [""]
    else if s[0] == sep then [""] + Split(s[1..], sep)
    else
      var rest := Split(s[1..], sep);
      [[s[0]] + rest[0]] + rest[1..]
  }

  /** Python's `sep.join(parts)`. */
  function Join(parts: seq<string>, sep: char): string
    requires |parts| >= 1
  {
    if |parts| == 1 then parts[0] else parts[0] + [sep] + Join(parts[1..], sep)
  }

  /** The first part of a split is the text up to the first separator. */
  lemma {:induction false} SplitFirst(pre: string, sep: char, rest: string)
    requires sep !in pre
    ensures Split(pre + rest, sep)[0] == pre + Split(rest, sep)[0]
    decreases |pre|
  {
    if pre == [] {
      assert pre + rest == rest;
    } else {
      var s := pre + rest;
      assert s[0] == pre[0] && s[1..] == pre[1..] + rest;
      SplitFirst(pre[1..], sep, rest);
    }
  }

  /** Splitting and joining on the same separator gives back the text. */
  lemma {:induction false} JoinSplit(s: string, sep: char)
    ensures Join(Split(s, sep), sep) == s
    decreases |s|
  {
    if s == [] {
    } else if s[0] == sep {
      JoinSplit(s[1..], sep);
      assert Split(s, sep)[1..] == Split(s[1..], sep);
    } else {
      var rest := Split(s[1..], sep);
      JoinSplit(s[1..], sep);
      var parts := Split(s, sep);
      assert parts[1..] == rest[1..];
      if |rest| > 1 {
        assert rest[1..][0] == rest[1];
      }
    }
  }

  function DigitChar(d: nat): char
    requires d < 10
  {
    ('0' as int + d) as char
  }

  function NatString(n: nat): string
    decreases n
  {
    if n < 10 then [DigitChar(n)] else NatString(n / 10) + [DigitChar(n % 10)]
  }

  /** Python's `str(n)` for an integer. */
  function IntString(n: int): string
  {
    if n < 0 then "-" + NatString(-n) else NatString(n)
  }

  /** `os.path.join(a, b)` on POSIX: an absolute `b` replaces `a`, otherwise one `/` separates them. */
  function PathJoin(a: string, b: string): (r: string)
    ensures EndsWith(r, b)
    ensures !StartsWith(b, "/") ==> StartsWith(r, a)
  {
    if StartsWith(b, "/") then b
    else if a == "" || EndsWith(a, "/") then a + b
    else a + "/" + b
  }

  /** The pieces pathlib keeps of a POSIX path: all but the empty ones and `.`. */
  function KeptParts(pieces: seq<string>): (r: seq<string>)
    ensures forall k :: 0 <= k < |r| ==> r[k] != "" && r[k] != "."
  {
    if pieces == [] then []
    else (if pieces[0] != "" && pieces[0] != "." then [pieces[0]] else []) + KeptParts(pieces[1..])
  }

  /** The root pathlib keeps: `//` for exactly two leading slashes, `/` for one or three or more. */
  function PathRoot(p: string): string
  {
    if StartsWith(p, "//") && !StartsWith(p, "///") then "//"
    else if StartsWith(p, "/") then "/"
    else ""
  }

  /**
   * `str(Path(p))` on POSIX: the root, then the kept pieces joined by one
   * `/`; `.` when nothing is left.
   */
  function PathStr(p: string): string
  {
    var parts := KeptParts(Split(p, '/'));
    if PathRoot(p) == "" && parts == [] then "."
    else PathRoot(p) + (if parts == [] then "" else Join(parts, '/'))
  }

  /** A relative path whose every piece is a plain name is its own text. */
  predicate CleanPath(p: string)
  {
    && p != [] && p[0] != '/'
    && forall k :: 0 <= k < |Split(p, '/')| ==> Split(p, '/')[k] != "" && Split(p, '/')[k] != "."
  }

  lemma {:induction false} KeptPartsAll(pieces: seq<string>)
    requires forall k :: 0 <= k < |pieces| ==> pieces[k] != "" && pieces[k] != "."
    ensures KeptParts(pieces) == pieces
  {
    if pieces != [] {
      KeptPartsAll(pieces[1..]);
    }
  }

  /** pathlib leaves a clean relative path as it is. */
  lemma PathStrClean(p: string)
    requires CleanPath(p)
    ensures PathStr(p) == p
  {
    KeptPartsAll(Split(p, '/'));
    JoinSplit(p, '/');
  }

  /** The first piece of a joined list begins the text. */
  lemma {:induction false} JoinStarts(parts: seq<string>, sep: char)
    requires |parts| >= 1
    ensures StartsWith(Join(parts, sep), parts[0])
  {
  }

  /** The text of a path is never empty. */
  lemma PathStrNonEmpty(p: string)
    ensures PathStr(p) != ""
  {
    var parts := KeptParts(Split(p, '/'));
    if PathRoot(p) == "" && parts != [] {
      JoinStarts(parts, '/');
    }
  }

  /** A piece of a path that pathlib keeps as it is: non-empty, no `/`, not `.`. */
  predicate PlainName(n: string)
  {
    n != "" && '/' !in n && n != "."
  }

  /** Text up to a first separator is the first piece; the rest splits on its own. */
  lemma {:induction false} SplitAtSep(x: string, y: string, sep: char)
    requires sep !in x
    ensures Split(x + [sep] + y, sep) == [x] + Split(y, sep)
    decreases |x|
  {
    if x == [] {
      assert x + [sep] + y == [sep] + y;
      assert ([sep] + y)[1..] == y;
    } else {
      SplitAtSep(x[1..], y, sep);
      var s := x + [sep] + y;
      assert s[0] == x[0] && s[1..] == x[1..] + [sep] + y;
      assert [x[0]] + x[1..] == x;
    }
  }

  /** The empty path is `.`. */
  lemma PathStrEmpty()
    ensures PathStr("") == "."
  {
  }

  /** A leading `./` disappears: `./n` is `n`. */
  lemma PathStrDot(n: string)
    requires CleanPath(n)
    ensures PathStr("./" + n) == n
  {
    var p := "./" + n;
    assert p == "." + ['/'] + n;
    SplitAtSep(".", n, '/');
    var pieces := Split(p, '/');
    assert pieces[1..] == Split(n, '/');
    KeptPartsAll(Split(n, '/'));
    assert KeptParts(pieces) == KeptParts(Split(n, '/'));
    JoinSplit(n, '/');
    assert p[0] == '.';
  }

  /** A doubled `/` between two names is read as one: `a//b` is `a/b`. */
  lemma PathStrDoubled(a: string, b: string)
    requires PlainName(a) && PlainName(b)
    ensures PathStr(a + "//" + b) == a + "/" + b
  {
    var p := a + "//" + b;
    assert p == a + ['/'] + ("/" + b);
    SplitAtSep(a, "/" + b, '/');
    assert "/" + b == [] + ['/'] + b;
    SplitAtSep([], b, '/');
    SplitNoSep(b, '/');
    var pieces := Split(p, '/');
    assert pieces == [a, "", b];
    assert pieces[1..] == ["", b] && ["", b][1..] == [b] && [b][1..] == [];
    assert KeptParts([b]) == [b] + KeptParts([]);
    assert KeptParts(["", b]) == [] + KeptParts([b]);
    assert KeptParts(pieces) == [a] + KeptParts(["", b]);
    assert [a, b][1..] == [b];
    assert Join([a, b], '/') == a + ['/'] + b;
    assert p[0] == a[0] && a[0] in a;
    assert !StartsWith(p, "/") by {
      assert p[..1] == [a[0]];
    }
    assert PathRoot(p) == "";
    assert KeptParts(pieces) == [a, b];
    assert PathStr(p) == Join([a, b], '/');
  }

  /** A trailing `/` after a name disappears: `d/` is `d`. */
  lemma PathStrTrailing(d: string)
    requires PlainName(d)
    ensures PathStr(d + "/") == d
  {
    var p := d + "/";
    assert p == d + ['/'] + "";
    SplitAtSep(d, "", '/');
    var pieces := Split(p, '/');
    assert pieces == [d, ""];
    assert KeptParts(pieces) == [d] + KeptParts([""]);
    assert p[0] == d[0] && d[0] in d;
    assert !StartsWith(p, "/") by {
      assert p[..1] == [d[0]];
    }
  }

  /** Text without the separator is one piece. */
  lemma {:induction false} SplitNoSep(s: string, sep: char)
    requires sep !in s
    ensures Split(s, sep) == [s]
    decreases |s|
  {
    if s != [] {
      SplitNoSep(s[1..], sep);
      assert [s[0]] + s[1..] == s;
    }
  }

  /** Two leading slashes before a name are kept. */
  lemma PathStrTwoSlashes(n: string)
    requires PlainName(n)
    ensures PathStr("//" + n) == "//" + n
  {
    var p := "//" + n;
    SplitNoSep(n, '/');
    SplitAtSep([], n, '/');
    assert [] + ['/'] + n == "/" + n;
    SplitAtSep([], "/" + n, '/');
    assert [] + ['/'] + ("/" + n) == p;
    var pieces := Split(p, '/');
    assert pieces == ["", "", n];
    assert KeptParts(pieces) == [] + KeptParts(["", n]);
    assert KeptParts(["", n]) == [] + KeptParts([n]);
    assert [n][1..] == [];
    assert KeptParts([n]) == [n] + KeptParts([]);
    assert KeptParts(pieces) == [n];
    assert n[0] in n;
    assert p[..2] == "//";
    assert !StartsWith(p, "///") by {
      assert p[..3][2] == n[0];
    }
    assert PathRoot(p) == "//";
    assert PathStr(p) == "//" + Join([n], '/');
  }

  /** Three leading slashes before a name become one. */
  lemma PathStrThreeSlashes(n: string)
    requires PlainName(n)
    ensures PathStr("///" + n) == "/" + n
  {
    var p := "///" + n;
    SplitNoSep(n, '/');
    SplitAtSep([], n, '/');
    assert [] + ['/'] + n == "/" + n;
    SplitAtSep([], "/" + n, '/');
    assert [] + ['/'] + ("/" + n) == "//" + n;
    SplitAtSep([], "//" + n, '/');
    assert [] + ['/'] + ("//" + n) == p;
    var pieces := Split(p, '/');
    assert pieces == ["", "", "", n];
    assert KeptParts(pieces) == [] + KeptParts(["", "", n]);
    assert KeptParts(["", "", n]) == [] + KeptParts(["", n]);
    assert KeptParts(["", n]) == [] + KeptParts([n]);
    assert [n][1..] == [];
    assert KeptParts([n]) == [n] + KeptParts([]);
    assert KeptParts(pieces) == [n];
    assert p[..3] == "///";
    assert PathRoot(p) == "/";
    assert PathStr(p) == "/" + Join([n], '/');
  }
}
