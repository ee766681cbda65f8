/**
 * app/routes/home.tsx: the stored résumés sorted best first, the average
 * and best score shown above them, and which of the stats, the skeletons
 * and the empty state is on screen.
 */
module Home {
  import opened Wrappers
  import opened Types
  import opened Stats
  import Auth

  /** Best first: no record scores above an earlier one. */
  predicate SortedByScore(rs: seq<Resume>) {
    forall i, j :: 0 <= i < j < |rs| ==> OverallScore(rs[i]) >= OverallScore(rs[j])
  }

  /** Places `r` before the first record that does not outscore it. */
  function Insert(r: Resume, sorted: seq<Resume>): (t: seq<Resume>)
    requires SortedByScore(sorted)
    ensures SortedByScore(t)
    ensures multiset(t) == multiset(sorted) + multiset{r}
    ensures |t| == |sorted| + 1
    ensures t[0] == r || (sorted != [] && t[0] == sorted[0])
  {
    if sorted == [] || OverallScore(sorted[0]) <= OverallScore(r) then [r] + sorted
    else
      SortedTail(sorted);
      var rest := Insert(r, sorted[1..]);
      assert sorted == [sorted[0]] + sorted[1..];
      [sorted[0]] + rest
  }

  /**
   * `sort((a, b) => (b.feedback?.overallScore || 0) - (a.feedback?.overallScore || 0))`:
   * the records best first; `Array.prototype.sort` is stable, so records
   * with equal scores keep their order (lemma SortIsStable).
   */
  function SortByScore(rs: seq<Resume>): (t: seq<Resume>)
    ensures SortedByScore(t)
    ensures multiset(t) == multiset(rs)
  {
    if rs == [] then []
    else
      assert rs == [rs[0]] + rs[1..];
      Insert(rs[0], SortByScore(rs[1..]))
  }

  /** The records that score exactly `v`, in order. */
  function WithScore(rs: seq<Resume>, v: int): seq<Resume> {
    if rs == [] then []
    else (if OverallScore(rs[0]) == v then [rs[0]] else []) + WithScore(rs[1..], v)
  }

  lemma SortedTail(sorted: seq<Resume>)
    requires sorted != [] && SortedByScore(sorted)
    ensures SortedByScore(sorted[1..])
  {
  }

  lemma WithScoreCons(head: Resume, rest: seq<Resume>, v: int)
    ensures WithScore([head] + rest, v) == (if OverallScore(head) == v then [head] else []) + WithScore(rest, v)
  {
    assert ([head] + rest)[1..] == rest;
  }

  /** A record that outscores `r` goes in front of both sides of the stability equation. */
  lemma StableStep(r: Resume, head: Resume, tail: seq<Resume>, rest: seq<Resume>, v: int)
    requires OverallScore(r) < OverallScore(head)
    requires WithScore(rest, v) == (if OverallScore(r) == v then [r] else []) + WithScore(tail, v)
    ensures WithScore([head] + rest, v) == (if OverallScore(r) == v then [r] else []) + WithScore([head] + tail, v)
  {
    WithScoreCons(head, rest, v);
    WithScoreCons(head, tail, v);
  }

  lemma {:induction false} InsertStable(r: Resume, sorted: seq<Resume>, v: int)
    requires SortedByScore(sorted)
    ensures WithScore(Insert(r, sorted), v) == (if OverallScore(r) == v then [r] else []) + WithScore(sorted, v)
    decreases |sorted|
  {
    if sorted == [] || OverallScore(sorted[0]) <= OverallScore(r) {
      WithScoreCons(r, sorted, v);
    } else {
      var head, tail := sorted[0], sorted[1..];
      SortedTail(sorted);
      InsertStable(r, tail, v);
      assert sorted == [head] + tail;
      StableStep(r, head, tail, Insert(r, tail), v);
    }
  }

  /** Sorting keeps, for every score, the records with that score in their listed order. */
  lemma {:induction false} SortIsStable(rs: seq<Resume>, v: int)
    ensures WithScore(SortByScore(rs), v) == WithScore(rs, v)
  {
    if rs != [] {
      SortIsStable(rs[1..], v);
      InsertStable(rs[0], SortByScore(rs[1..]), v);
    }
  }

  /** `getAverageScore`: 0 without records, else the rounded mean score. */
  function AverageScore(rs: seq<Resume>): (a: int)
    ensures rs == [] ==> a == 0
    ensures rs != [] ==> 2 * (|rs| * a) - |rs| <= 2 * Sum(Scores(rs)) < 2 * (|rs| * a) + |rs|
  {
    if |rs| == 0 then 0 else RoundedMean(Sum(Scores(rs)), |rs|)
  }

  /** `getBestScore`: 0 without records, else the highest score. */
  function BestScore(rs: seq<Resume>): (b: int)
    ensures rs == [] ==> b == 0
    ensures rs != [] ==> exists i :: 0 <= i < |rs| && OverallScore(rs[i]) == b
    ensures forall i :: 0 <= i < |rs| ==> OverallScore(rs[i]) <= b
  {
    if |rs| == 0 then 0
    else
      var b := Max(Scores(rs));
      assert exists i :: 0 <= i < |rs| && Scores(rs)[i] == b;
      b
  }

  /** The average lies between the lowest and the highest score. */
  lemma AverageWithinScores(rs: seq<Resume>, lo: int, hi: int)
    requires rs != []
    requires forall i :: 0 <= i < |rs| ==> lo <= OverallScore(rs[i]) <= hi
    ensures lo <= AverageScore(rs) <= hi
  {
    MeanWithin(Scores(rs), lo, hi);
  }

  /** The average never exceeds the best score. */
  lemma AverageAtMostBest(rs: seq<Resume>)
    ensures AverageScore(rs) <= BestScore(rs)
  {
    if rs != [] {
      AverageWithinScores(rs, Min(Scores(rs)), BestScore(rs));
    }
  }

  function Min(xs: seq<int>): (r: int)
    requires xs != []
    ensures forall i :: 0 <= i < |xs| ==> r <= xs[i]
  {
    if |xs| == 1 then xs[0]
    else
      var m := Min(xs[..|xs| - 1]);
      assert forall i :: 0 <= i < |xs| - 1 ==> xs[..|xs| - 1][i] == xs[i];
      if xs[|xs| - 1] < m then xs[|xs| - 1] else m
  }

  /**
   * Sorting changes neither figure, and the first card shown holds the
   * best score.
   */
  lemma SortKeepsFigures(rs: seq<Resume>)
    ensures AverageScore(SortByScore(rs)) == AverageScore(rs)
    ensures BestScore(SortByScore(rs)) == BestScore(rs)
    ensures rs != [] ==> OverallScore(SortByScore(rs)[0]) == BestScore(rs)
  {
    var t := SortByScore(rs);
    ScoresOfPermutation(t, rs);
    SumOfPermutation(Scores(t), Scores(rs));
    assert |t| == |multiset(t)| == |rs|;
    if rs != [] {
      var i :| 0 <= i < |rs| && OverallScore(rs[i]) == BestScore(rs);
      var j := Position(t, rs[i]);
      var k :| 0 <= k < |t| && OverallScore(t[k]) == BestScore(t);
      var l := Position(rs, t[k]);
      assert OverallScore(t[0]) >= OverallScore(t[j]);
    }
  }

  /** `kv.list('resume-*', true)` (an error when it throws), parsed record by record. */
  function Listed(listing: Result<seq<string>>, parse: string -> Option<Resume>): (r: Option<seq<Resume>>)
    ensures listing.Err? ==> r.None?
    ensures listing.Ok? ==> r == ParseAll(listing.value, parse)
  {
    match listing
    case Err(_) => None
    case Ok(values) => ParseAll(values, parse)
  }

  /** `navigate('/auth?next=/')` when signed out: signing in comes back here. */
  function SignInRedirect(isAuthenticated: bool): (r: Option<string>)
    ensures r.Some? <==> !isAuthenticated
    ensures r.Some? ==> Auth.RedirectTarget(Auth.LocationSearch(r.value)) == "/"
  {
    Auth.LoginReturnsTo("/");
    if isAuthenticated then None else Some(Auth.LoginUrl("/"))
  }

  /** The stats cards: loaded and at least one record. */
  predicate ShowsStats(loading: bool, rs: seq<Resume>) {
    !loading && |rs| > 0
  }

  /** The three skeleton cards: while loading. */
  predicate ShowsSkeletons(loading: bool) {
    loading
  }

  /** The empty state: loaded and no record. */
  predicate ShowsEmptyState(loading: bool, rs: seq<Resume>) {
    !loading && |rs| == 0
  }

  /** Exactly one of the stats, the skeletons and the empty state is shown. */
  lemma OneViewAtATime(loading: bool, rs: seq<Resume>)
    ensures ShowsStats(loading, rs) || ShowsSkeletons(loading) || ShowsEmptyState(loading, rs)
    ensures !(ShowsStats(loading, rs) && ShowsEmptyState(loading, rs))
    ensures !(ShowsSkeletons(loading) && (ShowsStats(loading, rs) || ShowsEmptyState(loading, rs)))
  {
  }

  class HomePage {
    var resumes: seq<Resume>
    var loadingResume: bool

    /** `useState<Resume[]>([])`, `useState(true)`. */
    constructor ()
      ensures resumes == [] && loadingResume
    {
      resumes := [];
      loadingResume := true;
    }

    /**
     * `loadResumes`: sets the records, sorted best first, when listing and
     * parsing succeed; on an error the records stay. Loading is over
     * either way.
     */
    method LoadResumes(listing: Result<seq<string>>, parse: string -> Option<Resume>)
      modifies this
      ensures !loadingResume
      ensures Listed(listing, parse).None? ==> resumes == old(resumes)
      ensures Listed(listing, parse).Some? ==> resumes == SortByScore(Listed(listing, parse).value)
    {
      loadingResume := true;
      var parsed := Listed(listing, parse);
      if parsed.Some? {
        resumes := SortByScore(parsed.value);
      }
      loadingResume := false;
    }
  }
}
