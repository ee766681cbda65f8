/**
 * The records the application stores and renders (type/index.d.ts).
 * Optional TypeScript members become `Option`; string unions that arrive
 * from the AI as free text (`type`, `importance`, `matchLevel`) stay strings,
 * because the rendering code compares them against literals and has a
 * fallback for anything else.
 */
module Types {
  import opened Wrappers

  /** One piece of advice; ATS tips carry no explanation. */
  datatype Tip = Tip(kind: string, tip: string, explanation: Option<string>)

  /** A scored category with its tips. */
  datatype Section = Section(score: int, tips: seq<Tip>)

  datatype CandidateInfo = CandidateInfo(
    name: Option<string>, email: Option<string>, phone: Option<string>, currentTitle: Option<string>)

  datatype MatchingSkill = MatchingSkill(skill: string, evidence: string)
  datatype MissingSkill = MissingSkill(skill: string, importance: string, suggestion: string)
  datatype ExperienceMatch = ExperienceMatch(requirement: string, evidence: string, matchLevel: string)

  datatype JobMatch = JobMatch(
    matchingSkills: seq<MatchingSkill>,
    missingSkills: seq<MissingSkill>,
    matchingExperience: seq<ExperienceMatch>,
    overallAssessment: string)

  /**
   * The AI's analysis of a résumé. `ats` is optional although the declared
   * type requires it: the pages read it through `?.` and fall back to 0.
   */
  datatype Feedback = Feedback(
    overallScore: int,
    matchScore: Option<int>,
    candidateInfo: Option<CandidateInfo>,
    ats: Option<Section>,
    jobMatch: Option<JobMatch>,
    toneAndStyle: Section,
    content: Section,
    structure: Section,
    skills: Section)

  /** The `feedback` member of a stored record: `''` until the AI has answered. */
  datatype FeedbackField = Pending | Parsed(feedback: Feedback)

  /**
   * A stored résumé. The general analysis stores no company, title or
   * description; the job-match analysis stores all three.
   */
  datatype Resume = Resume(
    id: string,
    resumePath: string,
    imagePath: string,
    companyName: Option<string>,
    jobTitle: Option<string>,
    jobDescription: Option<string>,
    feedback: FeedbackField)

  /** A job created by an administrator. */
  datatype Job = Job(id: string, title: string, company: string, description: string)

  /** `resume.feedback?.overallScore || 0`: a pending record scores 0. */
  function OverallScore(r: Resume): (s: int)
    ensures r.feedback.Pending? ==> s == 0
    ensures r.feedback.Parsed? ==> s == r.feedback.feedback.overallScore
  {
    match r.feedback
    case Pending => 0
    case Parsed(f) => f.overallScore
  }

  /** The KV key of a résumé record. */
  function ResumeKey(id: string): (k: string)
    ensures |k| == |id| + 7 && k[..7] == "resume-" && k[7..] == id
  {
    "resume-" + id
  }

  lemma ResumeKeyInjective(a: string, b: string)
    requires ResumeKey(a) == ResumeKey(b)
    ensures a == b
  {
    assert a == ResumeKey(a)[7..];
  }
}
