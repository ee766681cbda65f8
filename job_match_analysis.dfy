/**
 * app/components/JobMatchAnalysis.tsx: the colours of the match score, of
 * a missing skill's importance and of an experience's match level, and which
 * parts of the analysis are shown.
 */
module JobMatchAnalysis {
  import opened Wrappers
  import opened Types
  import opened Tiers

  /** `!score`: an absent score or 0. */
  predicate NoScore(score: Option<int>) {
    score.None? || score.value == 0
  }

  /** `getMatchScoreColor`: grey without a score, then green from 80, yellow from 60, else red. */
  function MatchScoreColor(score: Option<int>): (r: string)
    ensures NoScore(score) ==> r == "text-gray-600"
    ensures !NoScore(score) ==> r == Pick(TierOf(score.value, 80, 60), "text-green-600", "text-yellow-600", "text-red-600")
  {
    if NoScore(score) then "text-gray-600"
    else if score.value >= 80 then "text-green-600"
    else if score.value >= 60 then "text-yellow-600"
    else "text-red-600"
  }

  /** `getMatchScoreBg`: the same tiers for the background. */
  function MatchScoreBg(score: Option<int>): (r: string)
    ensures NoScore(score) ==> r == "bg-gray-100"
    ensures !NoScore(score) ==> r == Pick(TierOf(score.value, 80, 60), "bg-green-100", "bg-yellow-100", "bg-red-100")
  {
    if NoScore(score) then "bg-gray-100"
    else if score.value >= 80 then "bg-green-100"
    else if score.value >= 60 then "bg-yellow-100"
    else "bg-red-100"
  }

  /** The score's text and its background always show the same tier, grey included. */
  lemma BgMatchesColor(score: Option<int>)
    ensures MatchScoreColor(score) == "text-gray-600" <==> MatchScoreBg(score) == "bg-gray-100"
    ensures MatchScoreColor(score) == "text-green-600" <==> MatchScoreBg(score) == "bg-green-100"
    ensures MatchScoreColor(score) == "text-red-600" <==> MatchScoreBg(score) == "bg-red-100"
  {
    assert "text-gray-600"[7] != "text-green-600"[7];
    assert "text-gray-600"[5] != "text-yellow-600"[5] && "text-gray-600"[5] != "text-red-600"[5];
    assert "text-green-600"[5] != "text-yellow-600"[5] && "text-green-600"[5] != "text-red-600"[5];
    assert "text-red-600"[5] != "text-yellow-600"[5];
    assert "bg-gray-100"[5] != "bg-green-100"[5];
    assert "bg-gray-100"[3] != "bg-yellow-100"[3] && "bg-gray-100"[3] != "bg-red-100"[3];
    assert "bg-green-100"[3] != "bg-yellow-100"[3] && "bg-green-100"[3] != "bg-red-100"[3];
    assert "bg-red-100"[3] != "bg-yellow-100"[3];
  }

  /** `getImportanceColor`. */
  function ImportanceColor(importance: string): (r: string)
    ensures importance == "critical" ==> r == "bg-red-100 text-red-800 border-red-300"
    ensures importance == "important" ==> r == "bg-orange-100 text-orange-800 border-orange-300"
    ensures importance == "nice-to-have" ==> r == "bg-blue-100 text-blue-800 border-blue-300"
    ensures importance !in {"critical", "important", "nice-to-have"} ==> r == "bg-gray-100 text-gray-800 border-gray-300"
  {
    if importance == "critical" then "bg-red-100 text-red-800 border-red-300"
    else if importance == "important" then "bg-orange-100 text-orange-800 border-orange-300"
    else if importance == "nice-to-have" then "bg-blue-100 text-blue-800 border-blue-300"
    else "bg-gray-100 text-gray-800 border-gray-300"
  }

  /** The four match levels, and the fallback for any other text. */
  datatype Level = Excellent | Good | Partial | NoMatch | Other

  function LevelOf(level: string): (l: Level)
    ensures l == Other <==> level !in {"excellent", "good", "partial", "none"}
  {
    if level == "excellent" then Excellent
    else if level == "good" then Good
    else if level == "partial" then Partial
    else if level == "none" then NoMatch
    else Other
  }

  /** `getMatchLevelIcon`: one icon per level, `•` for any other text. */
  function MatchLevelIcon(level: string): (r: string)
    ensures level == "excellent" ==> r == "🎯"
    ensures level == "good" ==> r == "✅"
    ensures level == "partial" ==> r == "⚠️"
    ensures level == "none" ==> r == "❌"
    ensures level !in {"excellent", "good", "partial", "none"} ==> r == "•"
  {
    match LevelOf(level)
    case Excellent => "🎯"
    case Good => "✅"
    case Partial => "⚠️"
    case NoMatch => "❌"
    case Other => "•"
  }

  /** `getMatchLevelColor`: one colour set per level, grey for any other text. */
  function MatchLevelColor(level: string): (r: string)
    ensures level == "excellent" ==> r == "text-green-700 bg-green-50 border-green-300"
    ensures level == "good" ==> r == "text-blue-700 bg-blue-50 border-blue-300"
    ensures level == "partial" ==> r == "text-yellow-700 bg-yellow-50 border-yellow-300"
    ensures level == "none" ==> r == "text-red-700 bg-red-50 border-red-300"
    ensures level !in {"excellent", "good", "partial", "none"} ==> r == "text-gray-700 bg-gray-50 border-gray-300"
  {
    match LevelOf(level)
    case Excellent => "text-green-700 bg-green-50 border-green-300"
    case Good => "text-blue-700 bg-blue-50 border-blue-300"
    case Partial => "text-yellow-700 bg-yellow-50 border-yellow-300"
    case NoMatch => "text-red-700 bg-red-50 border-red-300"
    case Other => "text-gray-700 bg-gray-50 border-gray-300"
  }

  /** Texts of different levels get different icons. */
  lemma IconsDistinct(a: string, b: string)
    requires LevelOf(a) != LevelOf(b)
    ensures MatchLevelIcon(a) != MatchLevelIcon(b)
  {
    assert MatchLevelIcon(a)[0] != MatchLevelIcon(b)[0];
  }

  /** Texts of different levels get different colours: the colour words end in different letters. */
  lemma ColorsDistinct(a: string, b: string)
    requires LevelOf(a) != LevelOf(b)
    ensures MatchLevelColor(a) != MatchLevelColor(b)
  {
    ColorLetter(a);
    ColorLetter(b);
  }

  /** The last letter of the colour word, just before `-300`: `n`, `e`, `w`, `d` and `y` for green, blue, yellow, red and gray. */
  lemma ColorLetter(level: string)
    ensures |MatchLevelColor(level)| > 5
    ensures MatchLevelColor(level)[|MatchLevelColor(level)| - 5] == match LevelOf(level)
      case Excellent => 'n' case Good => 'e' case Partial => 'w' case NoMatch => 'd' case Other => 'y'
  {
  }

  /** An item's icon and its colours always tell the same level apart: equal icons exactly when equal colours. */
  lemma IconAgreesWithColor(a: string, b: string)
    ensures MatchLevelIcon(a) == MatchLevelIcon(b) <==> MatchLevelColor(a) == MatchLevelColor(b)
  {
    if LevelOf(a) != LevelOf(b) {
      IconsDistinct(a, b);
      ColorsDistinct(a, b);
    }
  }

  /** The fallback icon is shown exactly for a text that names no level. */
  lemma FallbackIconOnlyForOthers(level: string)
    ensures MatchLevelIcon(level) == "•" <==> level !in {"excellent", "good", "partial", "none"}
  {
    if LevelOf(level) != Other {
      IconsDistinct(level, "");
    }
  }

  /** Which parts of the analysis are rendered. */
  datatype Visible = Visible(
    scoreBadge: bool, position: bool, company: bool,
    matchingSkills: bool, missingSkills: bool, experience: bool, nextSteps: bool)

  /**
   * The badge for any defined score, 0 included; the position line with a
   * truthy title, and the company inside it; each list and the next steps
   * only when non-empty.
   */
  function VisibleParts(jobMatch: JobMatch, matchScore: Option<int>, jobTitle: Option<string>, companyName: Option<string>)
    : (v: Visible)
    ensures v.scoreBadge <==> matchScore.Some?
    ensures v.position <==> jobTitle.Some? && jobTitle.value != ""
    ensures v.company <==> v.position && companyName.Some? && companyName.value != ""
    ensures v.matchingSkills <==> |jobMatch.matchingSkills| > 0
    ensures v.missingSkills <==> |jobMatch.missingSkills| > 0
    ensures v.experience <==> |jobMatch.matchingExperience| > 0
    ensures v.nextSteps <==> v.missingSkills
  {
    var position := jobTitle.Some? && jobTitle.value != "";
    Visible(
      matchScore.Some?,
      position,
      position && companyName.Some? && companyName.value != "",
      |jobMatch.matchingSkills| > 0,
      |jobMatch.missingSkills| > 0,
      |jobMatch.matchingExperience| > 0,
      |jobMatch.missingSkills| > 0)
  }

  /** A score of 0 shows the badge, in grey. */
  lemma ZeroScoreShownGrey(jobMatch: JobMatch, jobTitle: Option<string>, companyName: Option<string>)
    ensures VisibleParts(jobMatch, Some(0), jobTitle, companyName).scoreBadge
    ensures MatchScoreColor(Some(0)) == "text-gray-600" && MatchScoreBg(Some(0)) == "bg-gray-100"
  {
  }
}
