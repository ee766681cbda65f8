/**
 * app/lib/prompts.ts: the three prompt templates. Each template literal is a
 * list of pieces (fixed text and interpolated values) written one after
 * another; a `${cond ? `...` : ''}` section becomes a piece that is empty
 * when the condition is falsy. The cover-letter and chat prompts are trimmed.
 */
module Prompts {
  import opened Wrappers
  import opened Text

  /** The fixed text of `JOB_SUGGESTION_PROMPT` before the skills. */
  const JobSuggestionHead: string :=
      "\n" +
      "        You " + "are an AI " + "recruitment " + "specialist.\n" +
      "        Here " + "are the " + "skills of a " + "candidate:\n" +
      "        ---CV " + "SKILLS---\n" +
      "        "

  /** Between the skills and the jobs. */
  const JobSuggestionMiddle: string :=
      "\n" +
      "        ---\n" +
      "        Here " + "is a list of " + "real jobs:\n" +
      "        ---JOBS---\n" +
      "        "

  /** After the jobs. */
  const JobSuggestionTail: string :=
      "\n" +
      "        ---\n" +
      "        Based " + "on the " + "candidate's " + "skills, " + "select the 3 " + "most suitable " + "jobs.\n" +
      "        Return " + "ONE JSON " + "ARRAY " + "containing " + "only the IDs " + "of those 3 " + "jobs.\n" +
      "        Example: " + "[\"job-id-1\", " + "\"job-id-2\", " + "\"job-id-3\"]\n"

  function JobSuggestionPieces(cvSkills: string, jobsJson: string): seq<string> {
    [JobSuggestionHead, cvSkills, JobSuggestionMiddle, jobsJson, JobSuggestionTail]
  }

  /** `JOB_SUGGESTION_PROMPT(cvSkills, jobsJson)` (not trimmed). */
  function JobSuggestionPrompt(cvSkills: string, jobsJson: string): string {
    Concat(JobSuggestionPieces(cvSkills, jobsJson))
  }

  /** The skills and the jobs JSON are embedded verbatim. */
  lemma JobSuggestionPromptEmbeds(cvSkills: string, jobsJson: string)
    ensures IsInfix(cvSkills, JobSuggestionPrompt(cvSkills, jobsJson))
    ensures IsInfix(jobsJson, JobSuggestionPrompt(cvSkills, jobsJson))
  {
    ConcatHoldsPiece(JobSuggestionPieces(cvSkills, jobsJson), 1);
    ConcatHoldsPiece(JobSuggestionPieces(cvSkills, jobsJson), 3);
  }

  /** The arguments of `COVER_LETTER_PROMPT`; `matchScore` and `overallAssessment` may be undefined. */
  datatype CoverLetterInput = CoverLetterInput(
    candidateName: string,
    candidateEmail: string,
    candidatePhone: string,
    currentTitle: string,
    companyName: string,
    jobTitle: string,
    jobDescription: string,
    matchScore: Option<int>,
    matchedSkills: string,
    missingSkills: string,
    overallAssessment: Option<string>,
    overallScore: int,
    atsScore: int)

  /** A number is truthy unless it is 0 (scores are integers, so NaN does not arise). */
  predicate ScoreTruthy(n: Option<int>) {
    n.Some? && n.value != 0
  }

  /** The whitespace the trimmed templates open and close with. */
  const Indent := "\n    "

  /** The cover-letter prompt up to the candidate's name, without the leading whitespace. */
  const CoverOpening: string :=
      "You are a " + (
      "professional " + "career coach " + "writing a " + "cover letter.\n" +
      "\n" +
      "    Write a " + "professional, " + "compelling " + "cover letter " + "for the " + "following:\n" +
      "\n" +
      "    **CANDIDATE " + "INFORMATION:**\n" +
      "    - Name: ")

  /** From after the role line to the company name. */
  const CoverPosition: string :=
      "\n" +
      "\n" +
      "    **POSITION " + "APPLYING " + "FOR:**\n" +
      "    - Company " + "Name: "

  /** From after the job-description line to the match-score line. */
  const CoverQualifications: string :=
      "\n" +
      "\n" +
      "    **CANDIDATE'S " + "QUALIFICATIONS:**\n" +
      "    "

  /** From after the match-score line to the matched skills. */
  const CoverStrengths: string :=
      "\n" +
      "\n" +
      "    The " + "candidate has " + "the following " + "strengths " + "based on " + "their CV " + "analysis:\n" +
      "    "

  /** From after the ATS score to the end, without the trailing whitespace. */
  const CoverClosing: string :=
      "/100\n" +
      "\n" +
      "    **REQUIREMENTS:**\n" +
      "    1. **Use " + "proper " + "business " + "letter " + "format:**\n" +
      "      - " + "Include " + "candidate's " + "contact " + "information " + "at the top\n" +
      "      - " + "Include date\n" +
      "      - " + "Include " + "hiring " + "manager " + "address " + "placeholder\n" +
      "      - " + "Professional " + "greeting " + "(Dear Hiring " + "Manager, or " + "Dear " + "[Company] " + "Team,)\n" +
      "      - " + "Professional " + "closing " + "(Sincerely, " + "[Candidate " + "Name])\n" +
      "\n" +
      "    2. Write " + "in a " + "professional " + "but warm tone\n" +
      "    3. " + "Highlight the " + "candidate's " + "matching " + "skills " + "prominently " + "with specific " + "examples\n" +
      "    4. " + "Address areas " + "to improve " + "subtly by " + "showing " + "eagerness to " + "learn and " + "grow\n" +
      "    5. Show " + "genuine " + "enthusiasm " + "for the role " + "and company\n" +
      "    6. Keep " + "it concise " + "(250-350 " + "words for the " + "body)\n" +
      "    7. Make " + "it personal " + "and " + "authentic, " + "not generic\n" +
      "    8. " + "Reference the " + "candidate's " + "current role " + "if applicable\n" +
      "\n" +
      "    **IMPORTANT: " + "Write the " + "cover letter " + "in ENGLISH " + "ONLY.**\n" +
      "    Even if " + "the company " + "name or job " + "title is in " + "Vietnamese, " + "write the " + "cover letter " + "in English.\n" +
      "\n" +
      "    Format " + "the letter " + "properly " + "with:\n" +
      "    [Candidate " + "Name]\n" +
      "    [Email] | " + "[Phone]\n" +
      "\n" +
      "    [Date]\n" +
      "\n" +
      "    [Company " + "Name]\n" +
      "    [Address " + "- to be " + "filled]\n" +
      "\n" +
      "    Dear " + "Hiring " + "Manager,\n" +
      "\n" +
      "    [Body " + "paragraphs]\n" +
      "\n" +
      "    Sincerely,\n" +
      "    [Candidate " + "Name]"

  /**
   * The fixed text of `COVER_LETTER_PROMPT` between its interpolations. The
   * template is defined over any such texts, so that what is proved about
   * its sections does not depend on the wording of the fixed prose.
   */
  datatype CoverTexts = CoverTexts(opening: string, position: string, qualifications: string,
    strengths: string, closing: string)

  const CoverFixed := CoverTexts(CoverOpening, CoverPosition, CoverQualifications, CoverStrengths, CoverClosing)

  /** The fixed text opens and closes with a visible character. */
  predicate Framed(t: CoverTexts) {
    t.opening != [] && !IsSpace(t.opening[0]) && t.closing != [] && !IsSpace(t.closing[|t.closing| - 1])
  }

  lemma ClosingEnd()
    ensures CoverClosing != [] && CoverClosing[|CoverClosing| - 1] == ']'
  {
  }

  lemma CoverFixedFramed()
    ensures Framed(CoverFixed)
  {
    assert CoverOpening[0] == 'Y';
    ClosingEnd();
  }

  function CoverRoleLine(currentTitle: string): string {
    if currentTitle != "" then "- Current Role: " + currentTitle else ""
  }

  function CoverDescriptionLine(jobDescription: string): string {
    if jobDescription != "" then "- Job Description: " + jobDescription else ""
  }

  function CoverMatchScoreLine(matchScore: Option<int>): string {
    if ScoreTruthy(matchScore) then "Match Score: " + IntToString(matchScore.value) + "/100" else ""
  }

  function CoverMissingSkills(missingSkills: string): string {
    if missingSkills != "" then "Areas the candidate is working to improve:\n" + missingSkills else ""
  }

  function CoverFitLine(overallAssessment: Option<string>): string {
    if Truthy(overallAssessment) then "Overall Job Fit: " + overallAssessment.value else ""
  }

  /** The template's pieces; the five conditional sections sit at positions 1, 3, 5, 7 and 9. */
  function CoverLetterPieces(t: CoverTexts, i: CoverLetterInput): seq<string> {
    [ t.opening + i.candidateName + "\n    - Email: " + i.candidateEmail + "\n    - Phone: " + i.candidatePhone + Indent,
      CoverRoleLine(i.currentTitle),
      t.position + i.companyName + "\n    - Job Title: " + i.jobTitle + Indent,
      CoverDescriptionLine(i.jobDescription),
      t.qualifications,
      CoverMatchScoreLine(i.matchScore),
      t.strengths + i.matchedSkills + "\n\n    ",
      CoverMissingSkills(i.missingSkills),
      "\n\n    ",
      CoverFitLine(i.overallAssessment),
      "\n\n    Overall CV Score: " + IntToString(i.overallScore) + "/100\n    ATS Score: " + IntToString(i.atsScore)
      + t.closing ]
  }

  function CoverLetterPromptWith(t: CoverTexts, i: CoverLetterInput): string {
    Trim(Indent + Concat(CoverLetterPieces(t, i)) + Indent)
  }

  /** `COVER_LETTER_PROMPT(...)`, trimmed. */
  function CoverLetterPrompt(i: CoverLetterInput): string {
    CoverLetterPromptWith(CoverFixed, i)
  }

  lemma {:induction false} BodyOpens(t: CoverTexts, i: CoverLetterInput)
    requires Framed(t)
    ensures Concat(CoverLetterPieces(t, i)) != [] && Concat(CoverLetterPieces(t, i))[0] == t.opening[0]
  {
    var p := CoverLetterPieces(t, i);
    assert Concat(p) == p[0] + Concat(p[1..]);
  }

  lemma BodyCloses(t: CoverTexts, i: CoverLetterInput)
    requires Framed(t)
    ensures var b := Concat(CoverLetterPieces(t, i)); b != [] && b[|b| - 1] == t.closing[|t.closing| - 1]
  {
    var p := CoverLetterPieces(t, i);
    ConcatAround(p, 10);
    assert p[11..] == [];
    assert Concat(p) == Concat(p[..10]) + p[10] + "";
  }

  lemma UnfoldCoverLetterPrompt(i: CoverLetterInput)
    ensures CoverLetterPrompt(i) == CoverLetterPromptWith(CoverFixed, i)
  {
  }

  /**
   * The fixed text opens and closes with visible characters, so trimming
   * removes exactly the surrounding indentation and no piece of it.
   */
  lemma CoverLetterPromptIsBody(t: CoverTexts, i: CoverLetterInput)
    requires Framed(t)
    ensures CoverLetterPromptWith(t, i) == Concat(CoverLetterPieces(t, i))
  {
    BodyOpens(t, i);
    BodyCloses(t, i);
    assert Blank(Indent);
    TrimFramed(Indent, Concat(CoverLetterPieces(t, i)), Indent);
  }

  /**
   * Two inputs whose pieces differ only at position `k`, where the second
   * has an empty piece: the first prompt is the second with `s` inserted.
   */
  lemma CoverLetterSection(t: CoverTexts, i: CoverLetterInput, i0: CoverLetterInput, k: nat, s: string)
    requires Framed(t)
    requires k < |CoverLetterPieces(t, i)| && CoverLetterPieces(t, i)[k] == s
    requires CoverLetterPieces(t, i0) == CoverLetterPieces(t, i)[k := ""]
    ensures exists x, y :: CoverLetterPromptWith(t, i) == x + s + y && CoverLetterPromptWith(t, i0) == x + y
  {
    CoverLetterPromptIsBody(t, i);
    CoverLetterPromptIsBody(t, i0);
    ConcatInsert(CoverLetterPieces(t, i), k, s);
  }

  lemma RoleLineWith(t: CoverTexts, i: CoverLetterInput)
    requires Framed(t) && i.currentTitle != ""
    ensures exists x, y ::
      CoverLetterPromptWith(t, i) == x + ("- Current Role: " + i.currentTitle) + y
      && CoverLetterPromptWith(t, i.(currentTitle := "")) == x + y
  {
    CoverLetterSection(t, i, i.(currentTitle := ""), 1, "- Current Role: " + i.currentTitle);
  }

  /** The 'Current Role' line is present exactly when `currentTitle` is non-empty. */
  lemma CurrentRoleLine(i: CoverLetterInput)
    requires i.currentTitle != ""
    ensures exists x, y ::
      CoverLetterPrompt(i) == x + ("- Current Role: " + i.currentTitle) + y
      && CoverLetterPrompt(i.(currentTitle := "")) == x + y
  {
    UnfoldCoverLetterPrompt(i);
    UnfoldCoverLetterPrompt(i.(currentTitle := ""));
    CoverFixedFramed();
    RoleLineWith(CoverFixed, i);
  }

  lemma DescriptionLineWith(t: CoverTexts, i: CoverLetterInput)
    requires Framed(t) && i.jobDescription != ""
    ensures exists x, y ::
      CoverLetterPromptWith(t, i) == x + ("- Job Description: " + i.jobDescription) + y
      && CoverLetterPromptWith(t, i.(jobDescription := "")) == x + y
  {
    CoverLetterSection(t, i, i.(jobDescription := ""), 3, "- Job Description: " + i.jobDescription);
  }

  /** The job-description line is present exactly when `jobDescription` is non-empty. */
  lemma JobDescriptionLine(i: CoverLetterInput)
    requires i.jobDescription != ""
    ensures exists x, y ::
      CoverLetterPrompt(i) == x + ("- Job Description: " + i.jobDescription) + y
      && CoverLetterPrompt(i.(jobDescription := "")) == x + y
  {
    UnfoldCoverLetterPrompt(i);
    UnfoldCoverLetterPrompt(i.(jobDescription := ""));
    CoverFixedFramed();
    DescriptionLineWith(CoverFixed, i);
  }

  lemma MatchScoreLineWith(t: CoverTexts, i: CoverLetterInput)
    requires Framed(t) && ScoreTruthy(i.matchScore)
    ensures exists x, y ::
      CoverLetterPromptWith(t, i) == x + ("Match Score: " + IntToString(i.matchScore.value) + "/100") + y
      && CoverLetterPromptWith(t, i.(matchScore := None)) == x + y
  {
    CoverLetterSection(t, i, i.(matchScore := None), 5, "Match Score: " + IntToString(i.matchScore.value) + "/100");
  }

  /** The match-score line is present exactly when the score is truthy. */
  lemma MatchScoreLine(i: CoverLetterInput)
    requires ScoreTruthy(i.matchScore)
    ensures exists x, y ::
      CoverLetterPrompt(i) == x + ("Match Score: " + IntToString(i.matchScore.value) + "/100") + y
      && CoverLetterPrompt(i.(matchScore := None)) == x + y
  {
    UnfoldCoverLetterPrompt(i);
    UnfoldCoverLetterPrompt(i.(matchScore := None));
    CoverFixedFramed();
    MatchScoreLineWith(CoverFixed, i);
  }

  lemma MissingSkillsWith(t: CoverTexts, i: CoverLetterInput)
    requires Framed(t) && i.missingSkills != ""
    ensures exists x, y ::
      CoverLetterPromptWith(t, i) == x + ("Areas the candidate is working to improve:\n" + i.missingSkills) + y
      && CoverLetterPromptWith(t, i.(missingSkills := "")) == x + y
  {
    CoverLetterSection(t, i, i.(missingSkills := ""), 7, "Areas the candidate is working to improve:\n" + i.missingSkills);
  }

  /** The missing-skills section is present exactly when `missingSkills` is non-empty. */
  lemma MissingSkillsSection(i: CoverLetterInput)
    requires i.missingSkills != ""
    ensures exists x, y ::
      CoverLetterPrompt(i) == x + ("Areas the candidate is working to improve:\n" + i.missingSkills) + y
      && CoverLetterPrompt(i.(missingSkills := "")) == x + y
  {
    UnfoldCoverLetterPrompt(i);
    UnfoldCoverLetterPrompt(i.(missingSkills := ""));
    CoverFixedFramed();
    MissingSkillsWith(CoverFixed, i);
  }

  lemma OverallFitWith(t: CoverTexts, i: CoverLetterInput)
    requires Framed(t) && Truthy(i.overallAssessment)
    ensures exists x, y ::
      CoverLetterPromptWith(t, i) == x + ("Overall Job Fit: " + i.overallAssessment.value) + y
      && CoverLetterPromptWith(t, i.(overallAssessment := None)) == x + y
  {
    CoverLetterSection(t, i, i.(overallAssessment := None), 9, "Overall Job Fit: " + i.overallAssessment.value);
  }

  /** The overall-fit line is present exactly when `overallAssessment` is truthy. */
  lemma OverallFitLine(i: CoverLetterInput)
    requires Truthy(i.overallAssessment)
    ensures exists x, y ::
      CoverLetterPrompt(i) == x + ("Overall Job Fit: " + i.overallAssessment.value) + y
      && CoverLetterPrompt(i.(overallAssessment := None)) == x + y
  {
    UnfoldCoverLetterPrompt(i);
    UnfoldCoverLetterPrompt(i.(overallAssessment := None));
    CoverFixedFramed();
    OverallFitWith(CoverFixed, i);
  }

  /** A match score of 0 is falsy: the prompt is the one for an undefined score. */
  lemma ZeroMatchScoreOmitted(i: CoverLetterInput)
    requires i.matchScore == Some(0)
    ensures CoverLetterPrompt(i) == CoverLetterPrompt(i.(matchScore := None))
  {
    assert CoverMatchScoreLine(i.matchScore) == CoverMatchScoreLine(None);
  }
  /** The fixed text of `RESUME_CHAT_PROMPT` before the context, without the leading newline. */
  const ChatOpening: string :=
      "You are an " + (
      "expert " + "CV/Resume " + "consultant " + "and career " + "advisor.\n" +
      "Your goal is " + "to assist the " + "user " + "specifically " + "with their " + "Resume/CV.\n" +
      "\n" +
      "**CRITICAL " + "INSTRUCTION**:\n" +
      "1. You MUST " + "only answer " + "questions " + "directly " + "related to " + "the provided " + "CV, resume " + "writing, " + "career " + "advice, or " + "job interview " + "preparation " + "based on this " + "CV.\n" +
      "2. If the " + "user asks " + "about " + "unrelated " + "topics (e.g., " + "\"What is the " + "capital of " + "France?\", " + "\"Write me a " + "poem about " + "cats\"), " + "politely " + "refuse and " + "redirect them " + "to discuss " + "the CV.\n" +
      "3. First, " + "analyze the " + "\"Resume Full " + "Text\" " + "provided " + "below to " + "understand " + "the " + "candidate's " + "background, " + "skills, and " + "experience.\n" +
      "4. Use the " + "\"Context " + "about the " + "resume\" " + "(scores, " + "tips) to " + "support your " + "advice.\n" +
      "5. tailored " + "your answer " + "specifically " + "to THIS " + "candidate. " + "Use phrases " + "like \"Based " + "on your " + "experience at " + "[Company]...\" " + "or \"Since you " + "have skills " + "in " + "[Skill]...\"\n" +
      "\n" +
      "Context about " + "the resume:\n")

  /** After the question, without the trailing whitespace. */
  const ChatClosing: string :=
      "\n" +
      "\n" +
      "Response " + "Guidelines:\n" +
      "- Be helpful, " + "specific, and " + "actionable.\n" +
      "- If " + "suggesting " + "improvements, " + "give concrete " + "examples " + "based on the " + "actual CV " + "content.\n" +
      "- Be " + "professional " + "but friendly.\n" +
      "\n" +
      "**IMPORTANT: " + "Answer in " + "ENGLISH ONLY, " + "regardless of " + "the " + "question's " + "language.**\n" +
      "Even if the " + "user asks in " + "Vietnamese or " + "another " + "language, " + "respond in " + "English."

  /** The fixed text of `RESUME_CHAT_PROMPT` around its interpolations. */
  datatype ChatTexts = ChatTexts(opening: string, closing: string)

  const ChatFixed := ChatTexts(ChatOpening, ChatClosing)

  predicate ChatFramed(t: ChatTexts) {
    t.opening != [] && !IsSpace(t.opening[0]) && t.closing != [] && !IsSpace(t.closing[|t.closing| - 1])
  }

  lemma ChatClosingEnd()
    ensures ChatClosing != [] && ChatClosing[|ChatClosing| - 1] == '.'
  {
  }

  lemma ChatFixedFramed()
    ensures ChatFramed(ChatFixed)
  {
    assert ChatOpening[0] == 'Y';
    ChatClosingEnd();
  }

  function ChatResumeSection(resumeText: string): string {
    if resumeText != "" then "Resume Full Text:\n" + resumeText + "\n" else ""
  }

  function ChatBefore(t: ChatTexts, context: string): string {
    t.opening + context + "\n\n"
  }

  function ChatAfter(t: ChatTexts, userMessage: string): string {
    "\n\nUser Question: " + userMessage + t.closing
  }

  /** The chat prompt before trimming, without its surrounding whitespace. */
  function ChatBody(t: ChatTexts, context: string, resumeText: string, userMessage: string): string {
    ChatBefore(t, context) + ChatResumeSection(resumeText) + ChatAfter(t, userMessage)
  }

  function ResumeChatPromptWith(t: ChatTexts, context: string, resumeText: string, userMessage: string): string {
    Trim("\n" + ChatBody(t, context, resumeText, userMessage) + Indent)
  }

  /** `RESUME_CHAT_PROMPT(context, resumeText, userMessage)`, trimmed. */
  function ResumeChatPrompt(context: string, resumeText: string, userMessage: string): string {
    ResumeChatPromptWith(ChatFixed, context, resumeText, userMessage)
  }

  lemma UnfoldResumeChatPrompt(context: string, resumeText: string, userMessage: string)
    ensures ResumeChatPrompt(context, resumeText, userMessage)
      == ResumeChatPromptWith(ChatFixed, context, resumeText, userMessage)
  {
  }

  lemma ChatPromptIsBody(t: ChatTexts, context: string, resumeText: string, userMessage: string)
    requires ChatFramed(t)
    ensures ResumeChatPromptWith(t, context, resumeText, userMessage) == ChatBody(t, context, resumeText, userMessage)
  {
    var body := ChatBody(t, context, resumeText, userMessage);
    assert body[0] == t.opening[0];
    assert body[|body| - 1] == t.closing[|t.closing| - 1];
    assert Blank("\n") && Blank(Indent);
    TrimFramed("\n", body, Indent);
  }

  lemma ChatEmbedsWith(t: ChatTexts, context: string, resumeText: string, userMessage: string)
    requires ChatFramed(t)
    ensures IsInfix(context, ResumeChatPromptWith(t, context, resumeText, userMessage))
    ensures IsInfix(userMessage, ResumeChatPromptWith(t, context, resumeText, userMessage))
  {
    ChatPromptIsBody(t, context, resumeText, userMessage);
    var before, section, after := ChatBefore(t, context), ChatResumeSection(resumeText), ChatAfter(t, userMessage);
    InfixOfConcat(t.opening, context, "\n\n");
    InfixLeft(context, before, section);
    InfixLeft(context, before + section, after);
    InfixOfConcat("\n\nUser Question: ", userMessage, t.closing);
    InfixRight(userMessage, before + section, after);
  }

  /** The chat prompt embeds the context and the user's question verbatim. */
  lemma ChatPromptEmbeds(context: string, resumeText: string, userMessage: string)
    ensures IsInfix(context, ResumeChatPrompt(context, resumeText, userMessage))
    ensures IsInfix(userMessage, ResumeChatPrompt(context, resumeText, userMessage))
  {
    UnfoldResumeChatPrompt(context, resumeText, userMessage);
    ChatFixedFramed();
    ChatEmbedsWith(ChatFixed, context, resumeText, userMessage);
  }

  lemma ResumeTextWith(t: ChatTexts, context: string, resumeText: string, userMessage: string)
    requires ChatFramed(t) && resumeText != ""
    ensures exists x, y ::
      ResumeChatPromptWith(t, context, resumeText, userMessage) == x + ("Resume Full Text:\n" + resumeText + "\n") + y
      && ResumeChatPromptWith(t, context, "", userMessage) == x + y
  {
    ChatPromptIsBody(t, context, resumeText, userMessage);
    ChatPromptIsBody(t, context, "", userMessage);
    var x, y := ChatBefore(t, context), ChatAfter(t, userMessage);
    assert x + "" == x;
  }

  /** The résumé-text section is present exactly when `resumeText` is non-empty. */
  lemma ResumeTextSection(context: string, resumeText: string, userMessage: string)
    requires resumeText != ""
    ensures exists x, y ::
      ResumeChatPrompt(context, resumeText, userMessage) == x + ("Resume Full Text:\n" + resumeText + "\n") + y
      && ResumeChatPrompt(context, "", userMessage) == x + y
  {
    UnfoldResumeChatPrompt(context, resumeText, userMessage);
    UnfoldResumeChatPrompt(context, "", userMessage);
    ChatFixedFramed();
    ResumeTextWith(ChatFixed, context, resumeText, userMessage);
  }
}
