/**
 * app/components/resume/Details.tsx: the colour of a section's score and
 * bar, and which of the four sections are open.
 */
module Details {
  import opened Tiers
  import Ats

  /** `getScoreColor`: green from 80, yellow from 60, else red. */
  function ScoreColor(score: int): (r: string)
    ensures r == Pick(TierOf(score, 80, 60), "text-green-600 bg-green-50", "text-yellow-600 bg-yellow-50",
      "text-red-600 bg-red-50")
  {
    if score >= 80 then "text-green-600 bg-green-50"
    else if score >= 60 then "text-yellow-600 bg-yellow-50"
    else "text-red-600 bg-red-50"
  }

  /** `getScoreBgColor`: the bar, on the same thresholds. */
  function ScoreBgColor(score: int): (r: string)
    ensures r == Pick(TierOf(score, 80, 60), "bg-green-500", "bg-yellow-500", "bg-red-500")
  {
    if score >= 80 then "bg-green-500"
    else if score >= 60 then "bg-yellow-500"
    else "bg-red-500"
  }

  /** A section's bar has the colour of the ATS bar for the same score. */
  lemma BarLikeAtsBar(score: int)
    ensures ScoreBgColor(score) == Ats.BarColor(score)
  {
  }

  /** A section's score text and its bar always show the same tier. */
  lemma TextMatchesBar(score: int)
    ensures ScoreColor(score) == "text-green-600 bg-green-50" <==> ScoreBgColor(score) == "bg-green-500"
    ensures ScoreColor(score) == "text-red-600 bg-red-50" <==> ScoreBgColor(score) == "bg-red-500"
  {
    assert "bg-green-500"[3] != "bg-yellow-500"[3] && "bg-green-500"[3] != "bg-red-500"[3];
    assert "bg-red-500"[3] != "bg-yellow-500"[3];
    assert "text-green-600 bg-green-50"[5] != "text-yellow-600 bg-yellow-50"[5];
    assert "text-green-600 bg-green-50"[5] != "text-red-600 bg-red-50"[5];
    assert "text-red-600 bg-red-50"[5] != "text-yellow-600 bg-yellow-50"[5];
  }

  /** `openSections`' initial value: only tone and style is open. */
  const InitialSections := map["toneAndStyle" := true, "content" := false, "structure" := false, "skills" := false]

  /** `prev[section]`, where a missing member reads as `undefined`, which is falsy. */
  function IsOpen(m: map<string, bool>, section: string): bool {
    section in m && m[section]
  }

  /** `Object.values(openSections).every(v => v)`. */
  predicate AllOpen(m: map<string, bool>) {
    forall k :: k in m ==> m[k]
  }

  /** Every section set to `open`. */
  function AllSetTo(open: bool): (m: map<string, bool>)
    ensures m.Keys == {"toneAndStyle", "content", "structure", "skills"}
    ensures forall k :: k in m ==> m[k] == open
  {
    map["toneAndStyle" := open, "content" := open, "structure" := open, "skills" := open]
  }

  /** The button's text. */
  function ToggleAllLabel(m: map<string, bool>): (r: string)
    ensures r == "Collapse All" <==> AllOpen(m)
  {
    if AllOpen(m) then "Collapse All" else "Expand All"
  }

  /** After expanding or collapsing, the button offers the opposite. */
  lemma ToggleAllFlipsLabel(m: map<string, bool>)
    ensures AllOpen(AllSetTo(!AllOpen(m))) <==> !AllOpen(m)
  {
    var n := AllSetTo(!AllOpen(m));
    assert "skills" in n;
  }

  lemma InitiallyPartlyOpen()
    ensures IsOpen(InitialSections, "toneAndStyle") && !AllOpen(InitialSections)
    ensures forall k :: k in InitialSections && k != "toneAndStyle" ==> !IsOpen(InitialSections, k)
  {
    assert "content" in InitialSections;
  }

  class DetailsState {
    var openSections: map<string, bool>

    constructor ()
      ensures openSections == InitialSections
    {
      openSections := InitialSections;
    }

    /** `toggleSection(section)`: that section flips; no other changes. */
    method ToggleSection(section: string)
      modifies this
      ensures openSections == old(openSections)[section := !IsOpen(old(openSections), section)]
      ensures IsOpen(openSections, section) == !IsOpen(old(openSections), section)
      ensures forall k :: k != section ==> IsOpen(openSections, k) == IsOpen(old(openSections), k)
    {
      openSections := openSections[section := !IsOpen(openSections, section)];
    }

    /** The expand/collapse-all button: all four closed if all were open, else all open. */
    method ToggleAll()
      modifies this
      ensures openSections == AllSetTo(!AllOpen(old(openSections)))
    {
      var allOpen := AllOpen(openSections);
      openSections := AllSetTo(!allOpen);
    }
  }
}
