/**
 * JavaScript string semantics the application relies on: the whitespace set
 * of `trim` and of the regular-expression class `\s`, `trim`, `split` with a
 * string separator, `join`, substring search, array indexing that yields
 * `undefined`, the truthiness of strings, and decimal formatting of integers
 * in template literals.
 */
module Text {
  import opened Wrappers

  /** WhiteSpace and LineTerminator code points of ECMAScript (section 12.2 and 12.3 of ECMA-262). */
  predicate IsSpace(c: char) {
    var n := c as int;
    n == 0x20 || (0x09 <= n <= 0x0D) || n == 0xA0 || n == 0x1680 || (0x2000 <= n <= 0x200A)
    || n == 0x2028 || n == 0x2029 || n == 0x202F || n == 0x205F || n == 0x3000 || n == 0xFEFF
  }

  /** The characters that the regular-expression `.` does not match. */
  predicate IsLineTerminator(c: char) {
    c == '\n' || c == '\r' || c as int == 0x2028 || c as int == 0x2029
  }

  /** Every character is whitespace; for a string `s`, `!s.trim()` in JavaScript. */
  predicate Blank(s: string) {
    forall i :: 0 <= i < |s| ==> IsSpace(s[i])
  }

  predicate NoSpace(s: string) {
    forall i :: 0 <= i < |s| ==> !IsSpace(s[i])
  }

  /** A JavaScript string value is truthy iff it is not empty. */
  predicate Truthy(s: Option<string>) {
    s.Some? && s.value != ""
  }

  /** `a || d` for a possibly undefined string `a` and a string default `d`. */
  function OrElse(a: Option<string>, d: string): (r: string)
    ensures Truthy(a) ==> r == a.value
    ensures !Truthy(a) ==> r == d
  {
    if Truthy(a) then a.value else d
  }

  predicate OccursAt(s: string, t: string, j: nat) {
    j + |t| <= |s| && s[j..j + |t|] == t
  }

  /** `s.includes(t)`. */
  predicate IsInfix(t: string, s: string) {
    exists j: nat :: j <= |s| && OccursAt(s, t, j)
  }

  lemma InfixOfConcat(a: string, t: string, b: string)
    ensures OccursAt(a + t + b, t, |a|) && IsInfix(t, a + t + b)
  {
    var s := a + t + b;
    assert s == a + t + b;
    assert s[|a|..|a| + |t|] == t;
    assert |a| <= |s| && OccursAt(s, t, |a|);
  }

  lemma OccursInPrefix(s: string, t: string, i: nat, j: nat)
    requires i <= |s| && OccursAt(s[..i], t, j)
    ensures OccursAt(s, t, j)
  {
    assert s[..i][j..j + |t|] == s[j..j + |t|];
  }

  lemma OccursInSuffix(s: string, t: string, i: nat, j: nat)
    requires i <= |s| && OccursAt(s[i..], t, j)
    ensures OccursAt(s, t, i + j)
  {
    assert s[i..][j..j + |t|] == s[i + j..i + j + |t|];
  }

  /** Whitespace removed from the front (the first half of `trim`). */
  function TrimStart(s: string): (r: string)
    ensures |r| <= |s| && r == s[|s| - |r|..]
    ensures Blank(s[..|s| - |r|])
    ensures r == [] || !IsSpace(r[0])
  {
    if s != [] && IsSpace(s[0]) then
      var r := TrimStart(s[1..]);
      assert s[1..][|s| - 1 - |r|..] == s[|s| - |r|..];
      assert forall i :: 1 <= i < |s| - |r| ==> s[i] == s[1..][..|s| - 1 - |r|][i - 1];
      r
    else s
  }

  /** Whitespace removed from the back (the second half of `trim`). */
  function TrimEnd(s: string): (r: string)
    ensures |r| <= |s| && r == s[..|r|]
    ensures Blank(s[|r|..])
    ensures r == [] || !IsSpace(r[|r| - 1])
  {
    if s != [] && IsSpace(s[|s| - 1]) then
      var r := TrimEnd(s[..|s| - 1]);
      assert s[..|s| - 1][..|r|] == s[..|r|];
      assert forall i :: |r| <= i < |s| - 1 ==> s[i] == s[..|s| - 1][|r|..][i - |r|];
      r
    else s
  }

  /** `String.prototype.trim`: the text with its leading and trailing whitespace removed. */
  function Trim(s: string): (r: string)
    ensures IsInfix(r, s)
    ensures r == [] || (!IsSpace(r[0]) && !IsSpace(r[|r| - 1]))
    ensures r == [] <==> Blank(s)
  {
    var m := TrimStart(s);
    var r := TrimEnd(m);
    assert s[|s| - |m|..|s| - |m| + |r|] == r;
    assert OccursAt(s, r, |s| - |m|);
    assert r == [] ==> m == [] by {
      assert r == [] ==> m[|r|..] == m;
    }
    r
  }

  lemma {:induction false} TrimStartPrefix(a: string, x: string)
    requires !Blank(a)
    ensures TrimStart(a + x) == TrimStart(a) + x
  {
    if IsSpace(a[0]) {
      var i :| 0 <= i < |a| && !IsSpace(a[i]);
      assert a[1..][i - 1] == a[i];
      assert (a + x)[1..] == a[1..] + x;
      TrimStartPrefix(a[1..], x);
    } else {
      assert (a + x)[0] == a[0];
    }
  }

  lemma TrimEndSuffix(x: string, c: string)
    requires !Blank(c)
    ensures TrimEnd(x + c) == x + TrimEnd(c)
  {
    assert c != [];
    if IsSpace(c[|c| - 1]) {
      assert (x + c)[..|x + c| - 1] == x + c[..|c| - 1];
      assert !Blank(c[..|c| - 1]) by {
        var i :| 0 <= i < |c| && !IsSpace(c[i]);
        assert i != |c| - 1 && c[..|c| - 1][i] == c[i];
      }
      TrimEndSuffix(x, c[..|c| - 1]);
    }
  }

  /**
   * Trimming a template whose fixed head and tail each hold a visible
   * character touches only the head and the tail: the interpolated middle
   * survives verbatim.
   */
  lemma {:induction false} TrimAround(a: string, b: string, c: string)
    requires !Blank(a) && !Blank(c)
    ensures Trim(a + b + c) == TrimStart(a) + b + TrimEnd(c)
  {
    assert a + b + c == a + (b + c);
    TrimStartPrefix(a, b + c);
    assert TrimStart(a) + (b + c) == (TrimStart(a) + b) + c;
    TrimEndSuffix(TrimStart(a) + b, c);
  }

  lemma {:induction false} TrimStartBlank(ws: string, x: string)
    requires Blank(ws) && x != [] && !IsSpace(x[0])
    ensures TrimStart(ws + x) == x
  {
    if ws != [] {
      assert (ws + x)[1..] == ws[1..] + x;
      TrimStartBlank(ws[1..], x);
    } else {
      assert ws + x == x;
    }
  }

  lemma {:induction false} TrimEndBlank(x: string, ws: string)
    requires Blank(ws) && x != [] && !IsSpace(x[|x| - 1])
    ensures TrimEnd(x + ws) == x
  {
    if ws != [] {
      assert (x + ws)[..|x + ws| - 1] == x + ws[..|ws| - 1];
      TrimEndBlank(x, ws[..|ws| - 1]);
    } else {
      assert x + ws == x;
    }
  }

  /**
   * A template that opens and closes with whitespace around a body whose
   * first and last characters are visible trims to exactly that body.
   */
  lemma TrimFramed(lead: string, body: string, trail: string)
    requires Blank(lead) && Blank(trail)
    requires body != [] && !IsSpace(body[0]) && !IsSpace(body[|body| - 1])
    ensures Trim(lead + body + trail) == body
  {
    assert lead + body + trail == lead + (body + trail);
    TrimStartBlank(lead, body + trail);
    TrimEndBlank(body, trail);
  }

  lemma InfixLeft(t: string, s: string, q: string)
    requires IsInfix(t, s)
    ensures IsInfix(t, s + q)
  {
    var j: nat :| j <= |s| && OccursAt(s, t, j);
    assert (s + q)[j..j + |t|] == s[j..j + |t|];
    assert OccursAt(s + q, t, j);
  }

  lemma InfixRight(t: string, p: string, s: string)
    requires IsInfix(t, s)
    ensures IsInfix(t, p + s)
  {
    var j: nat :| j <= |s| && OccursAt(s, t, j);
    assert (p + s)[|p| + j..|p| + j + |t|] == s[j..j + |t|];
    assert OccursAt(p + s, t, |p| + j);
  }

  /** The pieces of a template literal, written one after another. */
  function Concat(pieces: seq<string>): string {
    if pieces == [] then "" else pieces[0] + Concat(pieces[1..])
  }

  lemma {:induction false} ConcatAppend(a: seq<string>, b: seq<string>)
    ensures Concat(a + b) == Concat(a) + Concat(b)
  {
    if a != [] {
      assert (a + b)[1..] == a[1..] + b;
      ConcatAppend(a[1..], b);
    } else {
      assert a + b == b;
    }
  }

  /**
   * Splitting a template at its `k`-th piece: what comes before, the piece,
   * and what comes after.
   */
  lemma {:induction false} ConcatAround(pieces: seq<string>, k: nat)
    requires k < |pieces|
    ensures Concat(pieces) == Concat(pieces[..k]) + pieces[k] + Concat(pieces[k + 1..])
  {
    if k == 0 {
      assert pieces[..0] == [];
    } else {
      var rest := pieces[1..];
      ConcatAround(rest, k - 1);
      assert rest[..k - 1] == pieces[..k][1..];
      assert rest[k..] == pieces[k + 1..];
      assert Concat(pieces[..k]) == pieces[0] + Concat(rest[..k - 1]);
    }
  }

  /** Every piece of a template occurs in its text. */
  lemma ConcatHoldsPiece(pieces: seq<string>, k: nat)
    requires k < |pieces|
    ensures IsInfix(pieces[k], Concat(pieces))
  {
    ConcatAround(pieces, k);
    InfixOfConcat(Concat(pieces[..k]), pieces[k], Concat(pieces[k + 1..]));
  }

  /** Adjacent pieces of a template occur together in its text. */
  lemma ConcatRun(pieces: seq<string>, i: nat, j: nat)
    requires i <= j <= |pieces|
    ensures IsInfix(Concat(pieces[i..j]), Concat(pieces))
  {
    var a, b, c := pieces[..i], pieces[i..j], pieces[j..];
    assert Concat(pieces) == Concat(a) + Concat(b) + Concat(c) by {
      assert Concat(pieces) == Concat(a + b) + Concat(c) by {
        SplitThree(pieces, i, j);
        ConcatAppend(a + b, c);
      }
      ConcatAppend(a, b);
    }
    InfixOfConcat(Concat(a), Concat(b), Concat(c));
  }

  /** Adjacent pieces inside a window of a template occur together in the window's text. */
  lemma ConcatRunWithin(pieces: seq<string>, lo: nat, hi: nat, i: nat, j: nat)
    requires lo <= i <= j <= hi <= |pieces|
    ensures IsInfix(Concat(pieces[i..j]), Concat(pieces[lo..hi]))
  {
    ConcatRun(pieces[lo..hi], i - lo, j - lo);
    SliceOfSlice(pieces, lo, hi, i - lo, j - lo);
  }

  lemma SplitThree<T>(s: seq<T>, i: nat, j: nat)
    requires i <= j <= |s|
    ensures s == s[..i] + s[i..j] + s[j..]
  {
  }

  lemma SliceOfSlice<T>(s: seq<T>, lo: nat, hi: nat, i: nat, j: nat)
    requires lo <= hi <= |s| && i <= j <= hi - lo
    ensures s[lo..hi][i..j] == s[lo + i..lo + j]
  {
    var w := s[lo..hi];
    assert forall k :: 0 <= k < |w| ==> w[k] == s[lo + k];
    assert |w[i..j]| == j - i == |s[lo + i..lo + j]|;
    assert forall k :: 0 <= k < j - i ==> w[i..j][k] == w[i + k] == s[lo + i + k];
  }

  lemma AppendAssoc<T>(a: seq<T>, b: seq<T>, c: seq<T>, d: seq<T>)
    ensures a + (b + (c + d)) == a + b + c + d
  {
  }

  lemma SliceOfThree<T>(s: seq<T>, i: nat)
    requires i + 3 <= |s|
    ensures s[i..i + 3] == [s[i], s[i + 1], s[i + 2]]
  {
    var w := s[i..i + 3];
    assert w[0] == s[i] && w[1] == s[i + 1] && w[2] == s[i + 2];
  }

  /**
   * Two templates that differ only in their `k`-th piece, which is empty in
   * the second: the first is the second with that piece inserted at one place.
   */
  lemma ConcatInsert(pieces: seq<string>, k: nat, s: string)
    requires k < |pieces| && pieces[k] == s
    ensures exists x, y :: Concat(pieces) == x + s + y && Concat(pieces[k := ""]) == x + y
  {
    ConcatAround(pieces, k);
    ConcatAround(pieces[k := ""], k);
    assert pieces[k := ""][..k] == pieces[..k];
    assert pieces[k := ""][k + 1..] == pieces[k + 1..];
    var x, y := Concat(pieces[..k]), Concat(pieces[k + 1..]);
    assert Concat(pieces[k := ""]) == x + "" + y;
    assert x + "" + y == x + y;
  }

  /** The first position at or after `k` where `t` occurs in `s`. */
  function IndexOfFrom(s: string, t: string, k: nat): (r: Option<nat>)
    ensures r.Some? ==> k <= r.value && OccursAt(s, t, r.value)
    ensures r.Some? ==> forall j: nat :: k <= j < r.value ==> !OccursAt(s, t, j)
    ensures r.None? ==> forall j: nat :: k <= j ==> !OccursAt(s, t, j)
    decreases |s| - k
  {
    if k + |t| > |s| then None
    else if s[k..k + |t|] == t then Some(k)
    else IndexOfFrom(s, t, k + 1)
  }

  /** `s.indexOf(t)`, with `None` for -1. */
  function IndexOf(s: string, t: string): (r: Option<nat>)
    ensures r.Some? ==> OccursAt(s, t, r.value) && forall j: nat :: j < r.value ==> !OccursAt(s, t, j)
    ensures r.None? <==> !IsInfix(t, s)
  {
    IndexOfFrom(s, t, 0)
  }

  /** `s.indexOf(c)` for one character, with `None` for -1. */
  function IndexOfChar(s: string, c: char): (r: Option<nat>)
    ensures r.Some? ==> r.value < |s| && s[r.value] == c && forall j :: 0 <= j < r.value ==> s[j] != c
    ensures r.None? ==> forall j :: 0 <= j < |s| ==> s[j] != c
  {
    if s == [] then None
    else if s[0] == c then Some(0)
    else
      assert forall j :: 1 <= j < |s| ==> s[1..][j - 1] == s[j];
      match IndexOfChar(s[1..], c)
      case None => None
      case Some(i) => Some(i + 1)
  }

  /** `s.lastIndexOf(c)` for one character, with `None` for -1. */
  function LastIndexOfChar(s: string, c: char): (r: Option<nat>)
    ensures r.Some? ==> r.value < |s| && s[r.value] == c && forall j :: r.value < j < |s| ==> s[j] != c
    ensures r.None? ==> forall j :: 0 <= j < |s| ==> s[j] != c
  {
    if s == [] then None
    else if s[|s| - 1] == c then Some(|s| - 1)
    else
      var r := LastIndexOfChar(s[..|s| - 1], c);
      assert forall j :: 0 <= j < |s| - 1 ==> s[..|s| - 1][j] == s[j];
      r
  }

  /** A one-character text occurs exactly where that character stands. */
  lemma CharInfixIff(c: char, s: string)
    ensures IsInfix([c], s) <==> exists j :: 0 <= j < |s| && s[j] == c
  {
    if exists j :: 0 <= j < |s| && s[j] == c {
      var j :| 0 <= j < |s| && s[j] == c;
      assert OccursAt(s, [c], j);
    }
    if IsInfix([c], s) {
      var j: nat :| j <= |s| && OccursAt(s, [c], j);
      assert s[j] == s[j..j + 1][0];
    }
  }

  lemma CharAtIsInfix(c: char, s: string, j: nat)
    ensures j < |s| && s[j] == c ==> IsInfix([c], s)
  {
    if j < |s| && s[j] == c {
      assert OccursAt(s, [c], j);
    }
  }

  lemma InfixTransitive(t: string, u: string, s: string)
    requires IsInfix(t, u) && IsInfix(u, s)
    ensures IsInfix(t, s)
  {
    var i: nat :| i <= |u| && OccursAt(u, t, i);
    var j: nat :| j <= |s| && OccursAt(s, u, j);
    assert u == s[j..j + |u|];
    SliceOfSlice(s, j, j + |u|, i, i + |t|);
    assert OccursAt(s, t, j + i);
  }

  lemma PrefixIsInfix(s: string, n: nat)
    requires n <= |s|
    ensures IsInfix(s[..n], s)
  {
    assert OccursAt(s, s[..n], 0);
  }

  /** Trimming a text with visible first and last characters changes nothing. */
  lemma TrimVisible(x: string)
    requires x != [] && !IsSpace(x[0]) && !IsSpace(x[|x| - 1])
    ensures Trim(x) == x
  {
    assert "" + x + "" == x;
    TrimFramed("", x, "");
  }

  /** `s.replace(/\s+/g, sep)`: every maximal run of whitespace becomes one `sep`. */
  function ReplaceSpaceRuns(s: string, sep: string): string
    decreases |s|
  {
    if s == [] then []
    else if IsSpace(s[0]) then
      var rest := TrimStart(s);
      assert |rest| < |s|;
      sep + ReplaceSpaceRuns(rest, sep)
    else
      [s[0]] + ReplaceSpaceRuns(s[1..], sep)
  }

  lemma NoSpaceConcat(a: string, b: string)
    ensures NoSpace(a + b) <==> NoSpace(a) && NoSpace(b)
  {
    if NoSpace(a) && NoSpace(b) {
      forall i | 0 <= i < |a + b| ensures !IsSpace((a + b)[i]) {
        if i >= |a| {
          assert (a + b)[i] == b[i - |a|];
        }
      }
    }
    if NoSpace(a + b) {
      forall i | 0 <= i < |a| ensures !IsSpace(a[i]) {
        assert (a + b)[i] == a[i];
      }
      forall i | 0 <= i < |b| ensures !IsSpace(b[i]) {
        assert (a + b)[|a| + i] == b[i];
      }
    }
  }

  /** With a visible separator, no whitespace survives. */
  lemma {:induction false} ReplaceSpaceRunsNoSpace(s: string, sep: string)
    requires NoSpace(sep)
    ensures NoSpace(ReplaceSpaceRuns(s, sep))
    decreases |s|
  {
    if s != [] {
      if IsSpace(s[0]) {
        ReplaceSpaceRunsNoSpace(TrimStart(s), sep);
        NoSpaceConcat(sep, ReplaceSpaceRuns(TrimStart(s), sep));
      } else {
        ReplaceSpaceRunsNoSpace(s[1..], sep);
        NoSpaceConcat([s[0]], ReplaceSpaceRuns(s[1..], sep));
      }
    }
  }

  /** Text without whitespace is left as it is. */
  lemma {:induction false} ReplaceSpaceRunsKeepsWords(s: string, sep: string)
    requires NoSpace(s)
    ensures ReplaceSpaceRuns(s, sep) == s
    decreases |s|
  {
    if s != [] {
      assert !IsSpace(s[0]);
      ReplaceSpaceRunsKeepsWords(s[1..], sep);
      assert s == [s[0]] + s[1..];
    }
  }

  /** A run of whitespace, however long, before visible text becomes a single separator. */
  lemma SpaceRunBecomesOne(ws: string, x: string, sep: string)
    requires ws != [] && Blank(ws) && (x == [] || !IsSpace(x[0]))
    ensures ReplaceSpaceRuns(ws + x, sep) == sep + ReplaceSpaceRuns(x, sep)
  {
    if x == [] {
      assert ws + x == ws;
    } else {
      TrimStartBlank(ws, x);
    }
  }

  /** Text up to a visible character is replaced independently of what follows. */
  lemma {:induction false} ReplaceSpaceRunsAppend(x: string, y: string, sep: string)
    requires x == [] || !IsSpace(x[|x| - 1])
    ensures ReplaceSpaceRuns(x + y, sep) == ReplaceSpaceRuns(x, sep) + ReplaceSpaceRuns(y, sep)
    decreases |x|
  {
    if x == [] {
      assert x + y == y;
    } else if IsSpace(x[0]) {
      var t := TrimStart(x);
      SkipLeadingRun(x, y);
      ReplaceSpaceRunsAppend(t, y, sep);
    } else {
      assert (x + y)[0] == x[0] && (x + y)[1..] == x[1..] + y;
      ReplaceSpaceRunsAppend(x[1..], y, sep);
    }
  }

  /** The leading run of text ending in a visible character is its own. */
  lemma SkipLeadingRun(x: string, y: string)
    requires x != [] && !IsSpace(x[|x| - 1])
    ensures TrimStart(x + y) == TrimStart(x) + y
    ensures TrimStart(x) != [] && TrimStart(x)[|TrimStart(x)| - 1] == x[|x| - 1]
    ensures (x + y)[0] == x[0]
  {
    assert !Blank(x);
    TrimStartPrefix(x, y);
  }

  /** `[p0, p1, ...].join(sep)`. */
  function Join(parts: seq<string>, sep: string): string {
    if |parts| == 0 then ""
    else if |parts| == 1 then parts[0]
    else parts[0] + sep + Join(parts[1..], sep)
  }

  /**
   * `s.split(sep)` for a non-empty separator: the pieces between successive
   * non-overlapping occurrences of `sep`, scanning from the left.
   */
  function SplitOn(s: string, sep: string): (parts: seq<string>)
    requires sep != []
    ensures |parts| >= 1
    decreases |s|
  {
    match IndexOf(s, sep)
    case None => [s]
    case Some(i) => [s[..i]] + SplitOn(s[i + |sep|..], sep)
  }

  /** Splitting at the first occurrence: the text before it, then the split of the rest. */
  lemma SplitOnUnfold(s: string, sep: string, i: nat)
    requires sep != [] && IndexOf(s, sep) == Some(i)
    ensures i + |sep| <= |s|
    ensures SplitOn(s, sep) == [s[..i]] + SplitOn(s[i + |sep|..], sep)
  {
    assert OccursAt(s, sep, i);
    SplitOnUnfoldWithin(s, sep, i);
  }

  lemma SplitOnUnfoldWithin(s: string, sep: string, i: nat)
    requires sep != [] && IndexOf(s, sep) == Some(i) && i + |sep| <= |s|
    ensures SplitOn(s, sep) == [s[..i]] + SplitOn(s[i + |sep|..], sep)
  {
  }

  /** Without an occurrence there is one piece, the text itself. */
  lemma SplitOnNone(s: string, sep: string)
    requires sep != [] && IndexOf(s, sep).None?
    ensures SplitOn(s, sep) == [s]
  {
  }

  /**
   * The first piece is a prefix of the text: the whole text when it is the
   * only piece, and followed by the separator otherwise.
   */
  lemma SplitOnHead(s: string, sep: string)
    requires sep != []
    ensures var parts := SplitOn(s, sep); var p := parts[0];
      |p| <= |s| && p == s[..|p|]
      && (|parts| == 1 ==> p == s)
      && (|parts| > 1 ==> OccursAt(s, sep, |p|))
      && (|p| == |s| || OccursAt(s, sep, |p|))
  {
    match IndexOf(s, sep)
    case None => SplitOnNone(s, sep);
    case Some(i) => SplitOnUnfold(s, sep, i);
  }

  /** Joining the pieces with the separator gives the text back. */
  lemma {:induction false} SplitOnJoin(s: string, sep: string)
    requires sep != []
    ensures Join(SplitOn(s, sep), sep) == s
    decreases |s|
  {
    match IndexOf(s, sep)
    case None =>
      SplitOnNone(s, sep);
    case Some(i) =>
      SplitOnUnfold(s, sep, i);
      var rest := SplitOn(s[i + |sep|..], sep);
      assert Join(rest, sep) == s[i + |sep|..] by {
        SplitOnJoin(s[i + |sep|..], sep);
      }
      assert Join([s[..i]] + rest, sep) == s[..i] + sep + Join(rest, sep) by {
        assert ([s[..i]] + rest)[1..] == rest;
      }
      assert s[..i] + sep + s[i + |sep|..] == s by {
        assert s[i..i + |sep|] == sep;
        assert s == s[..i] + s[i..i + |sep|] + s[i + |sep|..];
      }
  }

  /** Split at a one-character separator, the first piece ends at the first occurrence of that character. */
  lemma SplitOnCharHead(s: string, c: char, n: nat)
    requires n <= |s| && (n == |s| || s[n] == c)
    requires forall k :: 0 <= k < n ==> s[k] != c
    ensures SplitOn(s, [c])[0] == s[..n]
  {
    var p := SplitOn(s, [c])[0];
    SplitOnHead(s, [c]);
    SplitOnPieceFree(s, [c], 0);
    NoCharBefore(s, c, n);
    if |p| > n {
      assert p[n] == s[n];
      CharAtIsInfix(c, p, n);
    }
  }

  lemma NoCharBefore(s: string, c: char, n: nat)
    requires n <= |s| && forall k :: 0 <= k < n ==> s[k] != c
    ensures forall m: nat :: m < n ==> !OccursAt(s, [c], m)
  {
    forall m: nat | m < n ensures !OccursAt(s, [c], m) {
      assert s[m..m + 1] == [s[m]];
    }
  }

  /** No piece of a split holds the separator. */
  lemma {:induction false} SplitOnPieceFree(s: string, sep: string, k: nat)
    requires sep != [] && k < |SplitOn(s, sep)|
    ensures !IsInfix(sep, SplitOn(s, sep)[k])
    decreases |s|
  {
    match IndexOf(s, sep)
    case None =>
      SplitOnNone(s, sep);
    case Some(i) =>
      SplitOnUnfold(s, sep, i);
      if k == 0 {
        forall j: nat | OccursAt(s[..i], sep, j) ensures false {
          OccursInPrefix(s, sep, i, j);
        }
      } else {
        SplitOnPieceFree(s[i + |sep|..], sep, k - 1);
      }
  }

  /**
   * With a first occurrence at `i`, the second piece starts right after it
   * and ends the text or stops at the next occurrence.
   */
  lemma SplitOnSecond(s: string, sep: string, i: nat)
    requires sep != [] && IndexOf(s, sep) == Some(i)
    ensures var parts := SplitOn(s, sep); var k := i + |sep|;
      |parts| > 1 && OccursAt(s, parts[1], k) && (k + |parts[1]| == |s| || OccursAt(s, sep, k + |parts[1]|))
  {
    var k := i + |sep|;
    SplitOnUnfold(s, sep, i);
    var p := SplitOn(s[k..], sep)[0];
    assert SplitOn(s, sep)[1] == p;
    SplitOnHead(s[k..], sep);
    PieceAt(s, sep, k, p);
  }

  /** A prefix of `s[k..]` that ends it or stops at `sep` occurs at `k`, followed by the end or by `sep`. */
  lemma PieceAt(s: string, sep: string, k: nat, p: string)
    requires k <= |s| && |p| <= |s| - k && p == s[k..][..|p|]
    requires |p| == |s| - k || OccursAt(s[k..], sep, |p|)
    ensures OccursAt(s, p, k)
    ensures k + |p| == |s| || OccursAt(s, sep, k + |p|)
  {
    assert s[k..][0..|p|] == p;
    OccursInSuffix(s, p, k, 0);
    if |p| < |s| - k {
      OccursInSuffix(s, sep, k, |p|);
    }
  }

  /** `arr[k]`: `undefined` beyond the end. */
  function At<T>(arr: seq<T>, k: nat): (r: Option<T>)
    ensures r.Some? <==> k < |arr|
    ensures r.Some? ==> r.value == arr[k]
  {
    if k < |arr| then Some(arr[k]) else None
  }

  function DigitChar(d: nat): (c: char)
    requires d < 10
    ensures '0' <= c <= '9' && c as int - '0' as int == d
  {
    (d + '0' as int) as char
  }

  /** Decimal digits of a natural number, as `${n}` writes it. */
  function NatToString(n: nat): (r: string)
    ensures |r| >= 1 && forall i :: 0 <= i < |r| ==> '0' <= r[i] <= '9'
    ensures (r[0] == '0') <==> n == 0
    decreases n
  {
    if n < 10 then [DigitChar(n)] else NatToString(n / 10) + [DigitChar(n % 10)]
  }

  /** The value of a string of decimal digits. */
  function DigitsValue(s: string): nat
    requires forall i :: 0 <= i < |s| ==> '0' <= s[i] <= '9'
  {
    if s == [] then 0 else 10 * DigitsValue(s[..|s| - 1]) + (s[|s| - 1] as int - '0' as int)
  }

  /** Reading the digits back gives the number: decimal formatting loses nothing. */
  lemma {:induction false} NatToStringRoundTrip(n: nat)
    ensures DigitsValue(NatToString(n)) == n
    decreases n
  {
    if n >= 10 {
      var s := NatToString(n);
      assert s[..|s| - 1] == NatToString(n / 10);
      NatToStringRoundTrip(n / 10);
    }
  }

  /** `${i}` for an integer. */
  function IntToString(i: int): (r: string)
    ensures r != [] && (r[0] == '-' <==> i < 0)
  {
    if i < 0 then "-" + NatToString(-i) else NatToString(i)
  }

  lemma NatToStringInjective(m: nat, n: nat)
    requires NatToString(m) == NatToString(n)
    ensures m == n
  {
    NatToStringRoundTrip(m);
    NatToStringRoundTrip(n);
  }
}
