/**
 * app/routes/profile.tsx: the statistics the profile page computes from the
 * stored résumés. Only positive scores enter the average and the best
 * score; every record counts towards the total. The date is a parameter.
 */
module Profile {
  import opened Wrappers
  import opened Types
  import opened Stats
  import Auth

  /** `UserStats`. */
  datatype UserStats = UserStats(
    totalResumes: nat,
    averageScore: int,
    bestScore: int,
    lastActivity: string,
    improvementTrend: int)

  /** The initial `useState` value. */
  const InitialStats := UserStats(0, 0, 0, "Never", 0)

  /** `scores.filter((s) => s > 0)`. */
  function Positive(xs: seq<int>): (r: seq<int>)
    ensures |r| <= |xs|
    ensures forall i :: 0 <= i < |r| ==> r[i] > 0 && r[i] in xs
    ensures forall i :: 0 <= i < |xs| && xs[i] > 0 ==> xs[i] in r
  {
    if xs == [] then []
    else
      var init := xs[..|xs| - 1];
      var last := xs[|xs| - 1];
      assert xs == init + [last];
      Positive(init) + (if last > 0 then [last] else [])
  }

  /** Filtering a concatenation filters each part: every positive score is kept, in order, repeats included. */
  lemma {:induction false} PositiveAppend(a: seq<int>, b: seq<int>)
    ensures Positive(a + b) == Positive(a) + Positive(b)
    decreases |b|
  {
    if b == [] {
      assert a + b == a;
    } else {
      var init := b[..|b| - 1];
      assert (a + b)[..|a + b| - 1] == a + init;
      assert (a + b)[|a + b| - 1] == b[|b| - 1];
      PositiveAppend(a, init);
    }
  }

  /** One score is kept exactly when it is positive. */
  lemma PositiveSingleton(x: int)
    ensures Positive([x]) == if x > 0 then [x] else []
  {
    assert [x][..0] == [];
  }

  /**
   * The object given to `setStats` for a non-empty list of records;
   * `today` is `new Date().toLocaleDateString()`.
   */
  function StatsOf(rs: seq<Resume>, today: string): (u: UserStats)
    requires rs != []
    ensures u.totalResumes == |rs| && u.lastActivity == today
    ensures u.improvementTrend == (if |rs| > 1 then 5 else 0)
    ensures Positive(Scores(rs)) == [] ==> u.averageScore == 0 && u.bestScore == 0
    ensures Positive(Scores(rs)) != [] ==>
      var ps := Positive(Scores(rs));
      2 * (|ps| * u.averageScore) - |ps| <= 2 * Sum(ps) < 2 * (|ps| * u.averageScore) + |ps|
    ensures Positive(Scores(rs)) != [] ==>
      (exists i :: 0 <= i < |rs| && OverallScore(rs[i]) == u.bestScore)
      && forall i :: 0 <= i < |rs| && OverallScore(rs[i]) > 0 ==> OverallScore(rs[i]) <= u.bestScore
  {
    var ps := Positive(Scores(rs));
    var average := if |ps| > 0 then RoundedMean(Sum(ps), |ps|) else 0;
    var best := if |ps| > 0 then Max(ps) else 0;
    assert |ps| > 0 ==> exists i :: 0 <= i < |rs| && Scores(rs)[i] == best;
    UserStats(|rs|, average, best, today, if |rs| > 1 then 5 else 0)
  }

  /** With some scored record, both figures are positive and the average is at most the best. */
  lemma FiguresOrdered(rs: seq<Resume>, today: string)
    requires rs != [] && exists i :: 0 <= i < |rs| && OverallScore(rs[i]) > 0
    ensures 1 <= StatsOf(rs, today).averageScore <= StatsOf(rs, today).bestScore
  {
    var ps := Positive(Scores(rs));
    var u := StatsOf(rs, today);
    assert ps != [] by {
      var i :| 0 <= i < |rs| && OverallScore(rs[i]) > 0;
      assert Scores(rs)[i] > 0;
    }
    assert u.bestScore == Max(ps);
    assert forall k :: 0 <= k < |ps| ==> 1 <= ps[k] <= u.bestScore by {
      forall k | 0 <= k < |ps| ensures 1 <= ps[k] <= u.bestScore {
      }
    }
    MeanWithin(ps, 1, u.bestScore);
  }

  /**
   * A record without a positive score (pending, or scored 0) adds to the
   * total but changes neither the average nor the best score.
   */
  lemma UnscoredOnlyCounts(rs: seq<Resume>, r: Resume, today: string)
    requires rs != [] && OverallScore(r) <= 0
    ensures StatsOf(rs + [r], today).totalResumes == StatsOf(rs, today).totalResumes + 1
    ensures StatsOf(rs + [r], today).averageScore == StatsOf(rs, today).averageScore
    ensures StatsOf(rs + [r], today).bestScore == StatsOf(rs, today).bestScore
  {
    var xs := Scores(rs + [r]);
    assert xs == Scores(rs) + [OverallScore(r)];
    assert xs[..|xs| - 1] == Scores(rs);
    assert Positive(xs) == Positive(Scores(rs));
  }

  /**
   * The stats after `load`: unchanged when the listing throws, is empty,
   * or a record does not parse; otherwise computed from the records.
   */
  function Loaded(stats: UserStats, listing: Result<seq<string>>, parse: string -> Option<Resume>, today: string)
    : (u: UserStats)
    ensures listing.Err? ==> u == stats
    ensures listing.Ok? && listing.value == [] ==> u == stats
    ensures listing.Ok? && listing.value != [] && ParseAll(listing.value, parse).None? ==> u == stats
    ensures listing.Ok? && listing.value != [] && ParseAll(listing.value, parse).Some? ==>
      u == StatsOf(ParseAll(listing.value, parse).value, today)
  {
    match listing
    case Err(_) => stats
    case Ok(values) =>
      if |values| == 0 then stats
      else
        match ParseAll(values, parse)
        case None => stats
        case Some(rs) => StatsOf(rs, today)
  }

  /** `navigate("/auth?next=/profile")` once loading is over and the user is signed out. */
  function SignInRedirect(isLoading: bool, isAuthenticated: bool): (r: Option<string>)
    ensures r.Some? <==> !isLoading && !isAuthenticated
    ensures r.Some? ==> Auth.RedirectTarget(Auth.LocationSearch(r.value)) == "/profile"
  {
    Auth.LoginReturnsTo("/profile");
    if !isLoading && !isAuthenticated then Some(Auth.LoginUrl("/profile")) else None
  }

  class ProfilePage {
    var stats: UserStats
    var loadingStats: bool

    constructor ()
      ensures stats == InitialStats && loadingStats
    {
      stats := InitialStats;
      loadingStats := true;
    }

    /** `load`: nothing when signed out; otherwise the new stats, and loading is over. */
    method Load(isAuthenticated: bool, listing: Result<seq<string>>, parse: string -> Option<Resume>, today: string)
      modifies this
      ensures !isAuthenticated ==> stats == old(stats) && loadingStats == old(loadingStats)
      ensures isAuthenticated ==> stats == Loaded(old(stats), listing, parse, today) && !loadingStats
    {
      if !isAuthenticated {
        return;
      }
      loadingStats := true;
      if listing.Ok? && |listing.value| > 0 {
        var parsed := ParseAll(listing.value, parse);
        if parsed.Some? {
          stats := StatsOf(parsed.value, today);
        }
      }
      loadingStats := false;
    }
  }
}
