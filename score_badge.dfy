/** app/components/ui/ScoreBadge.tsx: the badge's text and colour for a score. */
module ScoreBadge {
  import opened Tiers

  datatype Badge = Badge(color: string, text: string)

  /** Excellent from 75, good from 50, else needs improvement; colour and text from one branch. */
  function BadgeFor(score: int): (r: Badge)
    ensures r.text == Pick(TierOf(score, 75, 50), "Excellent", "Good", "Needs Improvement")
    ensures r.color == Pick(TierOf(score, 75, 50), "bg-green-100 text-green-800", "bg-yellow-100 text-yellow-800",
      "bg-red-100 text-red-800")
  {
    if score >= 75 then Badge("bg-green-100 text-green-800", "Excellent")
    else if score >= 50 then Badge("bg-yellow-100 text-yellow-800", "Good")
    else Badge("bg-red-100 text-red-800", "Needs Improvement")
  }

  /** The tier a badge text names. */
  function TierOfText(text: string): Tier {
    if text == "Excellent" then High else if text == "Good" then Middle else Low
  }

  /** A higher score never gets a lesser badge. */
  lemma BadgeMonotone(a: int, b: int)
    requires a <= b
    ensures Rank(TierOfText(BadgeFor(a).text)) <= Rank(TierOfText(BadgeFor(b).text))
  {
    assert "Excellent" != "Good" && "Excellent"[0] != "Needs Improvement"[0] && "Good"[0] != "Needs Improvement"[0];
    TierMonotone(a, b, 75, 50);
  }
}
