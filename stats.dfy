/**
 * What the home and profile pages share: parsing the listed records, their
 * scores, and `reduce((a, b) => a + b, 0)`, `Math.round(total / n)` and
 * `Math.max(...xs)` over integer scores.
 */
module Stats {
  import opened Wrappers
  import opened Types

  /**
   * `items.map(({ value }) => JSON.parse(value))`: absent as soon as one
   * value does not parse, since the parse then throws.
   */
  function ParseAll(values: seq<string>, parse: string -> Option<Resume>): (r: Option<seq<Resume>>)
    ensures r.Some? <==> forall i :: 0 <= i < |values| ==> parse(values[i]).Some?
    ensures r.Some? ==> |r.value| == |values|
    ensures r.Some? ==> forall i :: 0 <= i < |values| ==> parse(values[i]) == Some(r.value[i])
  {
    if values == [] then Some([])
    else
      match (parse(values[0]), ParseAll(values[1..], parse))
      case (Some(first), Some(rest)) =>
        assert forall i :: 1 <= i < |values| ==> values[i] == values[1..][i - 1];
        Some([first] + rest)
      case (None, _) => None
      case (_, None) =>
        assert forall i :: 0 <= i < |values| - 1 ==> values[1..][i] == values[i + 1];
        None
  }

  /** `records.map(r => r.feedback?.overallScore || 0)`. */
  function Scores(rs: seq<Resume>): (xs: seq<int>)
    ensures |xs| == |rs| && forall i :: 0 <= i < |rs| ==> xs[i] == OverallScore(rs[i])
  {
    seq(|rs|, i requires 0 <= i < |rs| => OverallScore(rs[i]))
  }

  /** Records in another order have their scores in another order. */
  lemma {:induction false} ScoresOfPermutation(a: seq<Resume>, b: seq<Resume>)
    requires multiset(a) == multiset(b)
    ensures multiset(Scores(a)) == multiset(Scores(b))
    decreases |a|
  {
    if a != [] {
      var init, last := a[..|a| - 1], a[|a| - 1];
      assert a == init + [last];
      assert last in multiset(b);
      var j := Position(b, last);
      var rest := b[..j] + b[j + 1..];
      assert multiset(init) == multiset(rest) by {
        MultisetRemove(b, j);
        assert multiset(a) == multiset(init) + multiset{last};
        assert multiset(init) == multiset(a) - multiset{last};
      }
      ScoresOfPermutation(init, rest);
      ScoresSnoc(init, last);
      ScoresSplice(b, j);
      MultisetSplice(Scores(b), j);
    }
  }

  lemma ScoresSnoc(init: seq<Resume>, last: Resume)
    ensures Scores(init + [last]) == Scores(init) + [OverallScore(last)]
  {
  }

  lemma ScoresSplice(b: seq<Resume>, j: nat)
    requires j < |b|
    ensures Scores(b[..j] + b[j + 1..]) == Scores(b)[..j] + Scores(b)[j + 1..]
  {
  }

  /** A sequence holds the element at `j` and the rest. */
  lemma MultisetSplice<T>(ys: seq<T>, j: nat)
    requires j < |ys|
    ensures multiset(ys) == multiset(ys[..j] + ys[j + 1..]) + multiset{ys[j]}
  {
    assert ys == ys[..j] + [ys[j]] + ys[j + 1..];
  }

  /** `xs.reduce((sum, x) => sum + x, 0)`. */
  function Sum(xs: seq<int>): int {
    if xs == [] then 0 else Sum(xs[..|xs| - 1]) + xs[|xs| - 1]
  }

  /**
   * `Math.round(total / n)`: the integer nearest to the exact mean, halves
   * rounded up, so `r - 1/2 <= total / n < r + 1/2`.
   */
  function RoundedMean(total: int, n: nat): (r: int)
    requires n > 0
    ensures 2 * (n * r) - n <= 2 * total < 2 * (n * r) + n
  {
    var q := (2 * total + n) / (2 * n);
    DivBounds(2 * total + n, 2 * n);
    assert (2 * n) * q == 2 * (n * q);
    q
  }

  lemma DivBounds(a: int, d: int)
    requires d > 0
    ensures d * (a / d) <= a < d * (a / d) + d
  {
  }

  /** `Math.max(...xs)` of a non-empty list. */
  function Max(xs: seq<int>): (r: int)
    requires xs != []
    ensures r in xs
    ensures forall i :: 0 <= i < |xs| ==> xs[i] <= r
  {
    if |xs| == 1 then xs[0]
    else
      var m := Max(xs[..|xs| - 1]);
      assert forall i :: 0 <= i < |xs| - 1 ==> xs[..|xs| - 1][i] == xs[i];
      if xs[|xs| - 1] > m then xs[|xs| - 1] else m
  }

  /** Every element at most `hi` bounds the total by `n * hi`; at least `lo` bounds it from below. */
  lemma {:induction false} SumBounds(xs: seq<int>, lo: int, hi: int)
    requires forall i :: 0 <= i < |xs| ==> lo <= xs[i] <= hi
    ensures |xs| * lo <= Sum(xs) <= |xs| * hi
  {
    if xs != [] {
      var init := xs[..|xs| - 1];
      assert forall i :: 0 <= i < |init| ==> init[i] == xs[i];
      SumBounds(init, lo, hi);
    }
  }

  /** The rounded mean of scores in `[lo, hi]` is in `[lo, hi]`. */
  lemma MeanWithin(xs: seq<int>, lo: int, hi: int)
    requires xs != []
    requires forall i :: 0 <= i < |xs| ==> lo <= xs[i] <= hi
    ensures lo <= RoundedMean(Sum(xs), |xs|) <= hi
  {
    SumBounds(xs, lo, hi);
    RoundedMeanWithin(Sum(xs), |xs|, lo, hi);
  }

  lemma RoundedMeanWithin(total: int, n: nat, lo: int, hi: int)
    requires n > 0 && n * lo <= total <= n * hi
    ensures lo <= RoundedMean(total, n) <= hi
  {
    var r := RoundedMean(total, n);
    assert n * (hi + 1) == n * hi + n;
    MulCancel(n, r, hi + 1);
    assert n * (r + 1) == n * r + n;
    MulCancel(n, lo, r + 1);
  }

  lemma MulCancel(n: nat, a: int, b: int)
    requires n * a < n * b
    ensures a < b
  {
    if a >= b {
      MulMonotone(n, b, a);
    }
  }

  lemma MulMonotone(n: nat, a: int, b: int)
    requires a <= b
    ensures n * a <= n * b
  {
    assert n * b - n * a == n * (b - a);
  }

  /** The sum does not depend on the order of the elements. */
  lemma {:induction false} SumOfPermutation(xs: seq<int>, ys: seq<int>)
    requires multiset(xs) == multiset(ys)
    ensures Sum(xs) == Sum(ys)
    decreases |xs|
  {
    if xs != [] {
      var init := xs[..|xs| - 1];
      var last := xs[|xs| - 1];
      assert xs == init + [last];
      var j := Position(ys, last);
      MultisetRemove(ys, j);
      SumOfPermutation(init, ys[..j] + ys[j + 1..]);
      SumRemove(ys, j);
    }
  }

  /** Where a value of the multiset sits in the sequence. */
  lemma Position<T>(ys: seq<T>, x: T) returns (j: nat)
    requires x in multiset(ys)
    ensures j < |ys| && ys[j] == x
  {
    assert x in ys;
    j :| 0 <= j < |ys| && ys[j] == x;
  }

  lemma MultisetRemove<T>(ys: seq<T>, j: nat)
    requires j < |ys|
    ensures multiset(ys[..j] + ys[j + 1..]) == multiset(ys) - multiset{ys[j]}
  {
    assert ys == ys[..j] + [ys[j]] + ys[j + 1..];
  }

  /** Removing the element at `j` takes it off the sum. */
  lemma {:induction false} SumRemove(ys: seq<int>, j: nat)
    requires j < |ys|
    ensures Sum(ys) == Sum(ys[..j] + ys[j + 1..]) + ys[j]
    decreases |ys|
  {
    var init := ys[..|ys| - 1];
    if j < |ys| - 1 {
      SumRemove(init, j);
      assert ys[..j] + ys[j + 1..] == (init[..j] + init[j + 1..]) + [ys[|ys| - 1]];
    } else {
      assert ys[..j] + ys[j + 1..] == init;
    }
  }
}
