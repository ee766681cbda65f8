/**
 * The three-tier score classification the résumé components share: a score
 * at least `high` is in the top tier, one below `middle` in the bottom tier,
 * anything between in the middle tier. Each component has its own
 * thresholds and its own texts for the tiers.
 */
module Tiers {
  datatype Tier = Low | Middle | High

  /** Low < Middle < High. */
  function Rank(t: Tier): (n: nat)
    ensures n <= 2
  {
    match t
    case Low => 0
    case Middle => 1
    case High => 2
  }

  function TierOf(score: int, high: int, middle: int): (t: Tier)
    requires middle <= high
    ensures t == High <==> score >= high
    ensures t == Low <==> score < middle
  {
    if score >= high then High else if score >= middle then Middle else Low
  }

  /** The text a component shows for each tier. */
  function Pick(t: Tier, high: string, middle: string, low: string): string {
    match t
    case High => high
    case Middle => middle
    case Low => low
  }

  /** A higher score never lands in a lower tier. */
  lemma TierMonotone(a: int, b: int, high: int, middle: int)
    requires middle <= high && a <= b
    ensures Rank(TierOf(a, high, middle)) <= Rank(TierOf(b, high, middle))
  {
  }
}
