/**
 * app/components/features/GeneralCoverLetterGenerator.tsx: the form, the
 * guard before generation, the two halves of generation (before and after
 * the awaited call), the reset, and the name of the downloaded file.
 * The clipboard, the blob download and the alerts are left out.
 */
module GeneralCoverLetter {
  import opened Wrappers
  import opened Text

  /** The three arguments passed to `onGenerate`. */
  datatype CoverLetterRequest = CoverLetterRequest(companyName: string, jobTitle: string, jobDescription: string)

  const DefaultFileName := "cover-letter.txt"

  /**
   * `companyName ? `cover-letter-${companyName.replace(/\s+/g, '-')}.txt` : 'cover-letter.txt'`.
   */
  function DownloadName(companyName: string): (r: string)
    ensures companyName == "" ==> r == DefaultFileName
    ensures companyName != "" ==> r == "cover-letter-" + ReplaceSpaceRuns(companyName, "-") + ".txt"
  {
    if companyName != "" then "cover-letter-" + ReplaceSpaceRuns(companyName, "-") + ".txt"
    else DefaultFileName
  }

  /** The file name never holds whitespace, whatever the company name holds. */
  lemma DownloadNameHasNoSpace(companyName: string)
    ensures NoSpace(DownloadName(companyName))
  {
    if companyName != "" {
      var dashed := ReplaceSpaceRuns(companyName, "-");
      assert NoSpace("-");
      ReplaceSpaceRunsNoSpace(companyName, "-");
      NoSpaceConcat("cover-letter-", dashed);
      NoSpaceConcat("cover-letter-" + dashed, ".txt");
    }
  }

  /**
   * A company name whose words are separated by whitespace runs of any
   * length names its file with one dash between those words.
   */
  lemma DownloadNameDashesWords(word: string, ws: string, rest: string)
    requires word != [] && NoSpace(word) && ws != [] && Blank(ws) && (rest == [] || !IsSpace(rest[0]))
    ensures DownloadName(word + ws + rest) == "cover-letter-" + word + "-" + ReplaceSpaceRuns(rest, "-") + ".txt"
  {
    var name := word + ws + rest;
    assert name == word + (ws + rest);
    assert !IsSpace(word[|word| - 1]);
    ReplaceSpaceRunsKeepsWords(word, "-");
    ReplaceSpaceRunsAppend(word, ws + rest, "-");
    SpaceRunBecomesOne(ws, rest, "-");
    var tail := ReplaceSpaceRuns(rest, "-");
    assert ReplaceSpaceRuns(name, "-") == word + ("-" + tail);
    assert name != "";
    assert DownloadName(name) == "cover-letter-" + (word + ("-" + tail)) + ".txt";
    AppendAssoc("cover-letter-", word, "-", tail);
  }

  /** `!companyName.trim() || !jobTitle.trim()` fails: both fields hold something other than whitespace. */
  predicate CanGenerate(companyName: string, jobTitle: string) {
    !Blank(companyName) && !Blank(jobTitle)
  }

  /** The guard is the JavaScript `trim` test. */
  lemma CanGenerateIsTrimTest(companyName: string, jobTitle: string)
    ensures CanGenerate(companyName, jobTitle) <==> Trim(companyName) != "" && Trim(jobTitle) != ""
  {
  }

  class CoverLetterForm {
    var showForm: bool
    var isGenerating: bool
    var coverLetter: string
    var companyName: string
    var jobTitle: string
    var jobDescription: string

    constructor ()
      ensures !showForm && !isGenerating && coverLetter == ""
      ensures companyName == "" && jobTitle == "" && jobDescription == ""
    {
      showForm := false;
      isGenerating := false;
      coverLetter := "";
      companyName := "";
      jobTitle := "";
      jobDescription := "";
    }

    /** The Create button shows while the form is closed and there is no letter. */
    predicate ShowsCreateButton()
      reads this
    {
      !showForm && coverLetter == ""
    }

    /** The form shows while it is open and there is no letter. */
    predicate ShowsForm()
      reads this
    {
      showForm && coverLetter == ""
    }

    /** The letter, with its copy, download and reset buttons. */
    predicate ShowsLetter()
      reads this
    {
      coverLetter != ""
    }

    /** The Create button (`true`) and the Cancel button (`false`). */
    method SetShowForm(open: bool)
      modifies this
      ensures showForm == open
      ensures isGenerating == old(isGenerating) && coverLetter == old(coverLetter)
      ensures companyName == old(companyName) && jobTitle == old(jobTitle) && jobDescription == old(jobDescription)
    {
      showForm := open;
    }

    /** The three inputs' `onChange`: one field changes, the others are kept. */
    method SetFields(company: string, title: string, description: string)
      modifies this
      ensures companyName == company && jobTitle == title && jobDescription == description
      ensures showForm == old(showForm) && isGenerating == old(isGenerating) && coverLetter == old(coverLetter)
    {
      companyName, jobTitle, jobDescription := company, title, description;
    }

    /**
     * `handleGenerate` up to the awaited call: nothing changes when the
     * company or the title is blank; otherwise generation is in flight and
     * the fields go out as typed, untrimmed.
     */
    method BeginGenerate() returns (request: Option<CoverLetterRequest>)
      modifies this
      ensures !CanGenerate(old(companyName), old(jobTitle)) ==> request.None? && isGenerating == old(isGenerating)
      ensures CanGenerate(old(companyName), old(jobTitle)) ==>
        request == Some(CoverLetterRequest(companyName, jobTitle, jobDescription)) && isGenerating
      ensures showForm == old(showForm) && coverLetter == old(coverLetter)
      ensures companyName == old(companyName) && jobTitle == old(jobTitle) && jobDescription == old(jobDescription)
    {
      if !CanGenerate(companyName, jobTitle) {
        return None;
      }
      isGenerating := true;
      request := Some(CoverLetterRequest(companyName, jobTitle, jobDescription));
    }

    /**
     * `handleGenerate` after the awaited call: a letter is stored and the
     * form closes; on an error nothing but the flag changes. Either way
     * generation is over.
     */
    method CompleteGenerate(letter: Option<string>)
      modifies this
      ensures !isGenerating
      ensures letter.Some? ==> coverLetter == letter.value && !showForm
      ensures letter.None? ==> coverLetter == old(coverLetter) && showForm == old(showForm)
      ensures companyName == old(companyName) && jobTitle == old(jobTitle) && jobDescription == old(jobDescription)
    {
      if letter.Some? {
        coverLetter := letter.value;
        showForm := false;
      }
      isGenerating := false;
    }

    /** `handleReset`: no letter, empty fields, and the form open. */
    method Reset()
      modifies this
      ensures coverLetter == "" && companyName == "" && jobTitle == "" && jobDescription == "" && showForm
      ensures isGenerating == old(isGenerating)
      ensures ShowsForm() && !ShowsCreateButton()
    {
      coverLetter := "";
      companyName, jobTitle, jobDescription := "", "", "";
      showForm := true;
    }

    /** `handleDownload`'s file name. */
    function FileName(): string
      reads this
    {
      DownloadName(companyName)
    }
  }

  /** At most one of the Create button, the form and the letter is on screen. */
  lemma OneViewAtATime(form: CoverLetterForm)
    ensures !(form.ShowsCreateButton() && form.ShowsForm())
    ensures form.ShowsLetter() ==> !form.ShowsCreateButton() && !form.ShowsForm()
  {
  }
}
