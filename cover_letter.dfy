/**
 * app/components/features/CoverLetterGenerator.tsx: the one-click cover
 * letter for a record that already names its company and position. The
 * clipboard, the blob download and the alerts are left out.
 */
module CoverLetter {
  import opened Wrappers
  import opened Text
  import opened Types
  import GeneralCoverLetter

  /** `resumeData.companyName && resumeData.jobTitle`: both present and non-empty. */
  predicate HasRequiredInfo(resume: Resume) {
    Truthy(resume.companyName) && Truthy(resume.jobTitle)
  }

  /** Without the required information the component renders nothing. */
  predicate Renders(resume: Resume) {
    HasRequiredInfo(resume)
  }

  /**
   * `handleDownload`'s file name: the record's company with whitespace
   * runs dashed, or the default name when the company is missing or empty.
   */
  function DownloadName(resume: Resume): (r: string)
    ensures !Truthy(resume.companyName) ==> r == GeneralCoverLetter.DefaultFileName
    ensures Truthy(resume.companyName) ==>
      r == "cover-letter-" + ReplaceSpaceRuns(resume.companyName.value, "-") + ".txt"
  {
    GeneralCoverLetter.DownloadName(OrElse(resume.companyName, ""))
  }

  /** Both generators name a letter for the same company alike. */
  lemma SameFileNameAsForm(resume: Resume, companyName: string)
    requires Truthy(resume.companyName) && resume.companyName.value == companyName
    ensures DownloadName(resume) == GeneralCoverLetter.DownloadName(companyName)
  {
  }

  class QuickCoverLetter {
    var isGenerating: bool
    var coverLetter: string

    constructor ()
      ensures !isGenerating && coverLetter == ""
    {
      isGenerating := false;
      coverLetter := "";
    }

    /** The generate button shows while there is no letter, disabled while generating. */
    predicate ShowsGenerateButton()
      reads this
    {
      coverLetter == ""
    }

    predicate GenerateDisabled()
      reads this
    {
      isGenerating
    }

    /**
     * `handleGenerateQuick` up to the awaited call: nothing without the
     * required information; otherwise generation is in flight for the
     * record's company and position with an empty job description.
     */
    method BeginQuick(resume: Resume) returns (request: Option<GeneralCoverLetter.CoverLetterRequest>)
      modifies this
      ensures !HasRequiredInfo(resume) ==> request.None? && isGenerating == old(isGenerating)
      ensures HasRequiredInfo(resume) ==>
        request == Some(GeneralCoverLetter.CoverLetterRequest(resume.companyName.value, resume.jobTitle.value, ""))
        && isGenerating
      ensures coverLetter == old(coverLetter)
    {
      if !HasRequiredInfo(resume) {
        return None;
      }
      isGenerating := true;
      request := Some(GeneralCoverLetter.CoverLetterRequest(resume.companyName.value, resume.jobTitle.value, ""));
    }

    /** After the awaited call: the letter is stored, or kept on an error; generation is over either way. */
    method CompleteQuick(letter: Option<string>)
      modifies this
      ensures !isGenerating
      ensures letter.Some? ==> coverLetter == letter.value
      ensures letter.None? ==> coverLetter == old(coverLetter)
    {
      if letter.Some? {
        coverLetter := letter.value;
      }
      isGenerating := false;
    }

    /** 'Generate New': the letter goes and the generate button is back; nothing else changes. */
    method GenerateNew()
      modifies this
      ensures coverLetter == "" && isGenerating == old(isGenerating)
      ensures ShowsGenerateButton()
    {
      coverLetter := "";
    }
  }
}
