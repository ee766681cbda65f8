/**
 * app/routes/analyze-cv.tsx: the general upload page. It runs the same
 * pipeline as the job-match page, without job fields and with the general
 * instructions.
 */
module AnalyzeCv {
  import opened Wrappers
  import opened Types
  import opened AiResponse
  import opened Ingestion

  /**
   * `handleAnalyze`: each awaited call takes its outcome from `c`, and every
   * early `return setStatusText(...)` ends the run as `Halted`. The page's
   * log, store and status line end up as `Analysis` says.
   */
  method HandleAnalyze(page: UploadPage, file: PdfFile, c: Collaborators) returns (ending: Ending)
    modifies page
    ensures var r := Analysis(GeneralAnalysis, file, c);
      page.log == old(page.log) + r.effects
      && page.kv == Store(old(page.kv), r.effects)
      && page.statusText == Shown(old(page.statusText), r.effects)
      && ending == r.ending
    ensures page.isProcessing && page.file == old(page.file)
  {
    ghost var kv0, status0, log0 := page.kv, page.statusText, page.log;
    page.isProcessing := true;
    assert page.Tracks(kv0, status0, log0, []);
    var uploaded := page.UploadAndConvert(file, c, kv0, status0, log0);
    if uploaded.None? {
      return Halted;
    }
    var (uploaderFile, uploaderImage) := uploaded.value;
    ghost var trace := UploadEffects(file, c);
    page.Perform(SetStatus(Generating), kv0, status0, log0, trace);
    trace := trace + [SetStatus(Generating)];
    var uuid := c.uuid;
    var data := Resume(uuid, uploaderFile, uploaderImage, None, None, None, Pending);
    page.Perform(KvSet("resume-" + uuid, data), kv0, status0, log0, trace);
    trace := trace + [KvSet("resume-" + uuid, data)];
    page.Perform(SetStatus(Complete), kv0, status0, log0, trace);
    trace := trace + [SetStatus(Complete)];
    page.Perform(AskFeedback(uploaderFile, Constants.GeneralInstructions), kv0, status0, log0, trace);
    trace := trace + [AskFeedback(uploaderFile, Constants.GeneralInstructions)];
    if c.reply.None? {
      page.Perform(SetStatus(AiFailed), kv0, status0, log0, trace);
      trace := trace + [SetStatus(AiFailed)];
      return Halted;
    }
    var feedbackText := ContentText(c.reply.value);
    match c.parse(feedbackText)
    case Err(m) =>
      return Threw(m);
    case Ok(feedback) =>
      data := data.(feedback := Parsed(feedback));
      page.Perform(KvSet("resume-" + uuid, data), kv0, status0, log0, trace);
      trace := trace + [KvSet("resume-" + uuid, data)];
      page.Perform(SetStatus(Redirecting), kv0, status0, log0, trace);
      trace := trace + [SetStatus(Redirecting)];
      page.Perform(Navigate("/resume/" + uuid), kv0, status0, log0, trace);
      trace := trace + [Navigate("/resume/" + uuid)];
      return Navigated;
  }

  /** `handleSubmit`: a no-op without a selected file. */
  method HandleSubmit(page: UploadPage, c: Collaborators) returns (ending: Option<Ending>)
    modifies page
    ensures old(page.file).None? ==> ending.None? && unchanged(page)
    ensures old(page.file).Some? ==>
      var r := Analysis(GeneralAnalysis, old(page.file).value, c);
      ending == Some(r.ending) && page.log == old(page.log) + r.effects
      && page.kv == Store(old(page.kv), r.effects) && page.isProcessing
  {
    if page.file.None? {
      return None;
    }
    var e := HandleAnalyze(page, page.file.value, c);
    return Some(e);
  }
}
