/**
 * app/components/resume/Summary.tsx: the five score categories under the
 * overall score, and each category's colours.
 */
module Summary {
  import opened Wrappers
  import opened Types
  import opened Tiers
  import ScoreBadge

  /** A category's text, background and bar colours. */
  datatype CategoryColors = CategoryColors(text: string, background: string, bar: string)

  /** Green from 75, yellow from 50, else red, for all three colours. */
  function ColorsFor(score: int): (r: CategoryColors)
    ensures r.text == Pick(TierOf(score, 75, 50), "text-green-500", "text-yellow-500", "text-red-500")
    ensures r.background == Pick(TierOf(score, 75, 50), "bg-green-50", "bg-yellow-50", "bg-red-50")
    ensures r.bar == Pick(TierOf(score, 75, 50), "bg-green-500", "bg-yellow-500", "bg-red-500")
  {
    var text := if score >= 75 then "text-green-500" else if score >= 50 then "text-yellow-500" else "text-red-500";
    var background := if score >= 75 then "bg-green-50" else if score >= 50 then "bg-yellow-50" else "bg-red-50";
    var bar := if score >= 75 then "bg-green-500" else if score >= 50 then "bg-yellow-500" else "bg-red-500";
    CategoryColors(text, background, bar)
  }

  /** A category's colours and its badge (a `ScoreBadge`) agree: green with Excellent, red with Needs Improvement. */
  lemma ColorsMatchBadge(score: int)
    ensures ColorsFor(score).bar == "bg-green-500" <==> ScoreBadge.BadgeFor(score).text == "Excellent"
    ensures ColorsFor(score).bar == "bg-red-500" <==> ScoreBadge.BadgeFor(score).text == "Needs Improvement"
  {
    assert "bg-green-500"[3] != "bg-yellow-500"[3] && "bg-green-500"[3] != "bg-red-500"[3];
    assert "bg-red-500"[3] != "bg-yellow-500"[3];
    assert "Excellent"[0] != "Good"[0] && "Excellent"[0] != "Needs Improvement"[0];
    assert "Good"[0] != "Needs Improvement"[0];
  }

  /** A listed category: its title and score. */
  datatype Category = Category(title: string, score: int)

  /** `feedback.ATS?.score || 0`. */
  function AtsScore(f: Feedback): (s: int)
    ensures f.ats.None? ==> s == 0
    ensures f.ats.Some? ==> s == f.ats.value.score
  {
    match f.ats
    case None => 0
    case Some(section) => section.score
  }

  /** The category breakdown: ATS (0 when absent), tone, content, structure, skills, in that order. */
  function Categories(f: Feedback): (r: seq<Category>)
    ensures |r| == 5
    ensures r[0] == Category("ATS Compatibility", AtsScore(f))
    ensures r[1 ..] == [Category("Tone and Style", f.toneAndStyle.score), Category("Content Quality", f.content.score),
      Category("Structure", f.structure.score), Category("Skills Match", f.skills.score)]
  {
    [Category("ATS Compatibility", AtsScore(f)),
     Category("Tone and Style", f.toneAndStyle.score),
     Category("Content Quality", f.content.score),
     Category("Structure", f.structure.score),
     Category("Skills Match", f.skills.score)]
  }
}
