/**
 * app/constants/index.ts: the instruction texts sent with a résumé to the
 * AI, and the three sample résumés. The texts are kept character for
 * character; `${…}` interpolations become concatenation.
 */
module Constants {
  import opened Wrappers
  import opened Text
  import opened Types


  /** `AIResponseFormat`: the JSON shape the AI is asked to answer in. */
  const ResponseFormat: string :=
    "\n" +
    "      interface " + "Feedback {\n" +
    "      overallScore: " + "number; \n" +
    "      matchScore?: " + "number;\n" +
    "      candidateInfo?: " + "{\n" +
    "        // " + "ALWAYS " + "extract this " + "information " + "from CV\n" +
    "        name?: " + "string; \n" +
    "        email?: " + "string; \n" +
    "        phone?: " + "string; \n" +
    "        currentTitle?: " + "string; \n" +
    "      };\n" +
    "      ATS: {\n" +
    "        score: " + "number; \n" +
    "        tips: " + "{\n" +
    "          type: " + "\"good\" | " + "\"improve\";\n" +
    "          tip: " + "string; \n" +
    "        }[];\n" +
    "      };\n" +
    "      jobMatch?: " + "{\n" +
    "        // " + "ONLY include " + "this section " + "when Job " + "Description " + "is provided\n" +
    "        matchingSkills: " + "{\n" +
    "          skill: " + "string; \n" +
    "          evidence: " + "string; \n" +
    "        }[]; \n" +
    "        missingSkills: " + "{\n" +
    "          skill: " + "string; \n" +
    "          importance: " + "\"critical\" | " + "\"important\" | " + "\"nice-to-have\";\n" +
    "          suggestion: " + "string; \n" +
    "        }[]; \n" +
    "        matchingExperience: " + "{\n" +
    "          requirement: " + "string; \n" +
    "          match: " + "string; \n" +
    "          matchLevel: " + "\"excellent\" | " + "\"good\" | " + "\"partial\" | " + "\"none\";\n" +
    "        }[]; " + "// Analyze " + "ALL " + "experience " + "requirements\n" +
    "        overallAssessment: " + "string; // " + "2-3 sentences " + "summary: Is " + "this a good " + "fit? Why or " + "why not?\n" +
    "      };\n" +
    "      toneAndStyle: " + "{\n" +
    "        score: " + "number;\n" +
    "        tips: " + "{\n" +
    "          type: " + "\"good\" | " + "\"improve\";\n" +
    "          tip: " + "string; \n" +
    "          explanation: " + "string; \n" +
    "        }[]; \n" +
    "      };\n" +
    "      content: " + "{\n" +
    "        score: " + "number;\n" +
    "        tips: " + "{\n" +
    "          type: " + "\"good\" | " + "\"improve\";\n" +
    "          tip: " + "string; \n" +
    "          explanation: " + "string; \n" +
    "        }[]; \n" +
    "      };\n" +
    "      structure: " + "{\n" +
    "        score: " + "number;\n" +
    "        tips: " + "{\n" +
    "          type: " + "\"good\" | " + "\"improve\";\n" +
    "          tip: " + "string; \n" +
    "          explanation: " + "string; \n" +
    "        }[]; \n" +
    "      };\n" +
    "      skills: " + "{\n" +
    "        score: " + "number;\n" +
    "        tips: " + "{\n" +
    "          type: " + "\"good\" | " + "\"improve\";\n" +
    "          tip: " + "string; \n" +
    "          explanation: " + "string; \n" +
    "        }[]; \n" +
    "      };\n" +
    "    }"

  /** The job-match instructions up to the job title. */
  const JobMatchHead: string :=
    "You are an " + "expert in ATS " + "(Applicant " + "Tracking " + "System) and " + "resume " + "analysis with " + "10+ years of " + "recruiting " + "experience.\n" +
    "\n" +
    "**PRIMARY " + "TASK: " + "DETAILED JOB " + "MATCH " + "ANALYSIS**\n" +
    "\n" +
    "You are " + "analyzing " + "this resume " + "for the " + "position: **"

  /** Between the job title and the job description. */
  const JobMatchBeforeDescription: string :=
    "**\n" +
    "\n" +
    "Job " + "Description:\n" +
    "\"\"\"\n"

  /** Between the job description and the response format. */
  const JobMatchBeforeFormat: string :=
    "\n" +
    "\"\"\"\n" +
    "\n" +
    "**CRITICAL " + "INSTRUCTIONS:**\n" +
    "\n" +
    "1. **EXTRACT " + "CANDIDATE " + "INFORMATION**\n" +
    "   - Find " + "candidate's " + "full name " + "(usually at " + "the top of " + "CV)\n" +
    "   - Extract " + "email address " + "if visible\n" +
    "   - Extract " + "phone number " + "if visible\n" +
    "   - Note " + "current job " + "title if " + "mentioned\n" +
    "   - Include " + "in " + "candidateInfo " + "section\n" +
    "\n" +
    "2. **READ THE " + "ENTIRE JOB " + "DESCRIPTION " + "CAREFULLY**\n" +
    "   - Extract " + "ALL required " + "skills " + "(technical, " + "soft skills, " + "tools, " + "technologies)\n" +
    "   - Extract " + "ALL " + "experience " + "requirements " + "(years, " + "specific " + "roles, " + "projects)\n" +
    "   - Extract " + "ALL " + "qualifications " + "(education, " + "certifications)\n" +
    "   - Note " + "\"must-have\" " + "vs " + "\"nice-to-have\" " + "requirements\n" +
    "\n" +
    "3. **ANALYZE " + "THE RESUME " + "AGAINST EACH " + "REQUIREMENT**\n" +
    "   - For EACH " + "skill in JD: " + "Does the " + "candidate " + "have it? " + "Where is the " + "evidence in " + "CV?\n" +
    "   - For EACH " + "experience " + "requirement: " + "Does the " + "candidate " + "meet it? " + "Provide " + "specific " + "examples from " + "CV\n" +
    "   - " + "Calculate a " + "matchScore " + "(0-100) based " + "on how well " + "the CV " + "matches the " + "JD\n" +
    "\n" +
    "4. **BE " + "SPECIFIC AND " + "DETAILED IN " + "jobMatch " + "SECTION**\n" +
    "   - " + "matchingSkills: " + "List EVERY " + "skill from JD " + "that " + "candidate " + "has, with " + "evidence from " + "CV\n" +
    "   - " + "missingSkills: " + "List EVERY " + "required " + "skill from JD " + "that " + "candidate " + "lacks\n" +
    "   - " + "matchingExperience: " + "Compare EACH " + "experience " + "requirement " + "from JD with " + "candidate's " + "experience\n" +
    "   - " + "overallAssessment: " + "Clear verdict " + "- is this " + "candidate a " + "good fit? Why " + "or why not?\n" +
    "\n" +
    "5. **GENERAL " + "RESUME " + "ANALYSIS**\n" +
    "   - Rate ATS " + "compatibility, " + "tone, " + "content, " + "structure, " + "and skills " + "presentation\n" +
    "   - Be " + "thorough and " + "detailed - " + "don't be " + "afraid to " + "give low " + "scores if " + "deserved\n" +
    "   - Provide " + "actionable " + "improvement " + "tips\n" +
    "\n" +
    "6. **OUTPUT " + "FORMAT**\n" +
    "   - Return " + "ONLY valid " + "JSON matching " + "this format: "

  /** After the response format. */
  const JobMatchTail: string :=
    "\n" +
    "   - NO " + "markdown, NO " + "backticks, NO " + "extra text\n" +
    "   - Include " + "the jobMatch " + "section with " + "detailed " + "analysis\n" +
    "   - Set " + "matchScore " + "based on " + "overall fit\n" +
    "\n" +
    "**SCORING " + "GUIDELINES:**\n" +
    "- matchScore " + "90-100: " + "Excellent " + "fit, meets " + "all/most " + "requirements\n" +
    "- matchScore " + "70-89: Good " + "fit, meets " + "most " + "requirements, " + "minor gaps\n" +
    "- matchScore " + "50-69: " + "Moderate fit, " + "significant " + "gaps in key " + "areas\n" +
    "- matchScore " + "30-49: Poor " + "fit, many " + "missing " + "requirements\n" +
    "- matchScore " + "0-29: Not " + "qualified, " + "lacks most " + "requirements\n" +
    "\n" +
    "**LANGUAGE " + "REQUIREMENT:**\n" +
    "⚠️ " + "**IMPORTANT: " + "Write ALL " + "feedback, " + "tips, " + "explanations, " + "and " + "assessments " + "in ENGLISH " + "ONLY.**\n" +
    "⚠️ **DO NOT " + "use " + "Vietnamese or " + "any other " + "language. " + "Everything " + "must be in " + "English.**\n" +
    "\n" +
    "Be honest and " + "specific. " + "This analysis " + "will help the " + "candidate " + "understand " + "their fit and " + "improve their " + "chances."

  /** The general instructions up to the response format. */
  const GeneralHead: string :=
    "You are an " + "expert in " + "resume " + "analysis.\n" +
    "  \n" +
    "  **CRITICAL:**\n" +
    "  1. " + "**EXTRACT " + "candidate " + "information** " + "(name, email, " + "phone, " + "current " + "title) from " + "CV\n" +
    "  2. Include " + "in " + "candidateInfo " + "section of " + "the response\n" +
    "  \n" +
    "  Please " + "analyze and " + "rate this " + "resume " + "*generally*. " + "Do not focus " + "on any " + "specific job.\n" +
    "  Identify " + "the user's " + "strongest " + "skills, " + "experience " + "level, and " + "potential job " + "titles.\n" +
    "  Be thorough " + "and detailed.\n" +
    "  \n" +
    "  **LANGUAGE " + "REQUIREMENT:**\n" +
    "  ⚠️ " + "**IMPORTANT: " + "Write ALL " + "feedback, " + "tips, " + "explanations " + "in ENGLISH " + "ONLY.**\n" +
    "  ⚠️ **DO NOT " + "use " + "Vietnamese or " + "any other " + "language. " + "Everything " + "must be in " + "English.**\n" +
    "  \n" +
    "  Provide the " + "feedback " + "using the " + "following " + "format: "

  /** After the response format. */
  const GeneralTail: string :=
    "\n" +
    "  Return the " + "analysis as a " + "JSON object, " + "without any " + "other text " + "and without " + "the " + "backticks.\n" +
    "  Do not " + "include any " + "other text or " + "comments."

  /**
   * The instructions the pages send with a résumé, as the call that builds
   * them: the rest of the model passes these values around, and `InstructionText`
   * gives the string each stands for.
   */
  datatype Instructions = JobMatchInstructions(jobTitle: string, jobDescription: string) | GeneralInstructions

  /** The instruction string of a call. */
  function InstructionText(i: Instructions): string {
    match i
    case JobMatchInstructions(t, d) => PrepareInstructions(t, d)
    case GeneralInstructions => PrepareGeneralInstructions()
  }

  /** The job-match instructions after the job title. */
  function AfterTitle(jobDescription: string): string {
    JobMatchBeforeDescription + jobDescription + (JobMatchBeforeFormat + ResponseFormat + JobMatchTail)
  }

  /** `prepareInstructions({jobTitle, jobDescription})`. */
  function PrepareInstructions(jobTitle: string, jobDescription: string): string {
    JobMatchHead + jobTitle + AfterTitle(jobDescription)
  }

  /** `prepareGeneralInstructions()`: no input, so always the same text. */
  function PrepareGeneralInstructions(): string {
    GeneralHead + ResponseFormat + GeneralTail
  }

  /** The job-match instructions hold the job title verbatim, right after their fixed head. */
  lemma InstructionsHoldTitle(jobTitle: string, jobDescription: string)
    ensures OccursAt(PrepareInstructions(jobTitle, jobDescription), jobTitle, |JobMatchHead|)
  {
    InfixOfConcat(JobMatchHead, jobTitle, AfterTitle(jobDescription));
  }

  /** The middle of `a + (b + x + c)`, where the instruction texts put their second input. */
  lemma OccursInMiddle(a: string, b: string, x: string, c: string)
    ensures IsInfix(x, a + (b + x + c))
  {
    var s := a + (b + x + c);
    assert s[|a| + |b|..|a| + |b| + |x|] == x;
    assert OccursAt(s, x, |a| + |b|);
  }

  /** They hold the job description verbatim. */
  lemma InstructionsHoldDescription(jobTitle: string, jobDescription: string)
    ensures IsInfix(jobDescription, PrepareInstructions(jobTitle, jobDescription))
  {
    OccursInMiddle(JobMatchHead + jobTitle, JobMatchBeforeDescription, jobDescription,
      JobMatchBeforeFormat + ResponseFormat + JobMatchTail);
  }

  /** The response format inside `a + (b + (c + x + d))`. */
  lemma OccursDeep(a: string, b: string, c: string, x: string, d: string)
    ensures IsInfix(x, a + (b + (c + x + d)))
  {
    var s := a + (b + (c + x + d));
    assert s[|a| + |b| + |c|..|a| + |b| + |c| + |x|] == x;
    assert OccursAt(s, x, |a| + |b| + |c|);
  }

  /** The job-match instructions embed the response format. */
  lemma InstructionsHoldFormat(jobTitle: string, jobDescription: string)
    ensures IsInfix(ResponseFormat, PrepareInstructions(jobTitle, jobDescription))
  {
    OccursDeep(JobMatchHead + jobTitle, JobMatchBeforeDescription + jobDescription, JobMatchBeforeFormat,
      ResponseFormat, JobMatchTail);
  }

  /** So do the general instructions. */
  lemma GeneralInstructionsHoldFormat()
    ensures IsInfix(ResponseFormat, PrepareGeneralInstructions())
  {
    InfixOfConcat(GeneralHead, ResponseFormat, GeneralTail);
  }

  function SampleSection(): (s: Section)
    ensures s.score == 90 && s.tips == []
  {
    Section(90, [])
  }

  function Sample(id: string, company: string, title: string, image: string, pdf: string, score: int): (r: Resume)
    ensures r.id == id && r.feedback.Parsed? && r.feedback.feedback.overallScore == score
  {
    Resume(id, pdf, image, Some(company), Some(title), None,
      Parsed(Feedback(score, None, None, Some(SampleSection()), None,
        SampleSection(), SampleSection(), SampleSection(), SampleSection())))
  }

  /** `resumes`: the sample records; every category scores 90 with no tips. */
  const SampleResumes: seq<Resume> := [
    Sample("1", "Google", "Frontend Developer", "/images/resume_01.png", "/resumes/resume-1.pdf", 85),
    Sample("2", "Microsoft", "Cloud Engineer", "/images/resume_02.png", "/resumes/resume-2.pdf", 55),
    Sample("3", "Apple", "iOS Developer", "/images/resume_03.png", "/resumes/resume-3.pdf", 75)
  ]

  /** The samples have distinct ids "1", "2", "3" and overall scores 85, 55, 75. */
  lemma SampleResumesFacts()
    ensures |SampleResumes| == 3
    ensures forall i, j :: 0 <= i < j < |SampleResumes| ==> SampleResumes[i].id != SampleResumes[j].id
    ensures [SampleResumes[0].id, SampleResumes[1].id, SampleResumes[2].id] == ["1", "2", "3"]
    ensures [OverallScore(SampleResumes[0]), OverallScore(SampleResumes[1]), OverallScore(SampleResumes[2])]
      == [85, 55, 75]
  {
  }
}
