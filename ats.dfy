/**
 * app/components/resume/ATS.tsx: the status shown for the ATS score, the
 * bar's colour, and the suggestions list.
 */
module Ats {
  import opened Types
  import opened Tiers

  /** What `getATSStatus` returns (`label` is `labelText` here). */
  datatype AtsStatus = AtsStatus(labelText: string, color: string, bgColor: string, icon: string)

  const Friendly := AtsStatus("ATS Friendly", "text-green-600", "bg-green-50", "/icons/ats-good.svg")
  const NeedsOptimization := AtsStatus("Needs Optimization", "text-yellow-600", "bg-yellow-50", "/icons/ats-warning.svg")
  const NotFriendly := AtsStatus("Not ATS Friendly", "text-red-600", "bg-red-50", "/icons/ats-bad.svg")

  /** `getATSStatus`: friendly from 80, needs optimisation from 60, else not friendly. */
  function Status(score: int): (r: AtsStatus)
    ensures r == (match TierOf(score, 80, 60) case High => Friendly case Middle => NeedsOptimization case Low => NotFriendly)
  {
    if score >= 80 then Friendly
    else if score >= 60 then NeedsOptimization
    else NotFriendly
  }

  /** The progress bar's colour. */
  function BarColor(score: int): (r: string)
    ensures r == Pick(TierOf(score, 80, 60), "bg-green-500", "bg-yellow-500", "bg-red-500")
  {
    if score >= 80 then "bg-green-500"
    else if score >= 60 then "bg-yellow-500"
    else "bg-red-500"
  }

  /** The bar and the status always show the same tier: green bar with the friendly status, and so on. */
  lemma BarMatchesStatus(score: int)
    ensures BarColor(score) == "bg-green-500" <==> Status(score) == Friendly
    ensures BarColor(score) == "bg-red-500" <==> Status(score) == NotFriendly
  {
    assert "bg-green-500"[3] != "bg-yellow-500"[3] && "bg-green-500"[3] != "bg-red-500"[3];
    assert "bg-red-500"[3] != "bg-yellow-500"[3];
  }

  /** The heading over the suggestions. */
  function SuggestionsHeading(suggestions: seq<Tip>): (r: string)
    ensures r == "Suggestions" <==> |suggestions| > 0
  {
    if |suggestions| > 0 then "Suggestions" else "No Suggestions Available"
  }

  /** The placeholder instead of the tips: the list is empty. */
  predicate ShowsPlaceholder(suggestions: seq<Tip>) {
    !(|suggestions| > 0)
  }

  /** The heading says there are suggestions exactly when the tips, not the placeholder, are shown. */
  lemma HeadingMatchesList(suggestions: seq<Tip>)
    ensures SuggestionsHeading(suggestions) == "Suggestions" <==> !ShowsPlaceholder(suggestions)
  {
  }

  /** A tip's icon: the check mark for `good`, the warning for anything else. */
  function TipIcon(kind: string): (r: string)
    ensures kind == "good" ==> r == "/icons/check.svg"
    ensures kind != "good" ==> r == "/icons/warning.svg"
  {
    if kind == "good" then "/icons/check.svg" else "/icons/warning.svg"
  }
}
