/**
 * The résumé ingestion pipeline shared by app/routes/match-jd.tsx (the
 * job-match variant) and app/routes/analyze-cv.tsx (the general variant).
 *
 * `handleAnalyze` is a sequence of awaited calls with an early return after
 * each failure. The collaborators (Puter's `fs`, `kv` and `ai`, the PDF
 * conversion, `generateUUID`, `JSON.parse`) are given by their outcomes.
 * `Analysis` is the reference definition: the effects one run has on the
 * outside world, in order, and how it ends. The page state and the part of
 * the world the run touches are the class `UploadPage`; the handlers of the
 * two pages (modules `MatchJd` and `AnalyzeCv`) are proved to produce
 * exactly `Analysis`.
 */
module Ingestion {
  import opened Wrappers
  import opened Types
  import opened AiResponse
  import Pdf2Img
  import Constants

  /** The PDF the user dropped on the uploader (its content is not modelled). */
  datatype PdfFile = PdfFile(name: string)

  /** What the form supplies to `handleAnalyze`. */
  datatype Variant =
    | JobMatchAnalysis(companyName: string, jobTitle: string, jobDescription: string)
    | GeneralAnalysis

  /**
   * The outcome of each awaited call: the path `fs.upload` returns for the PDF
   * and for the preview image (`None` when it comes back empty), the
   * conversion result, the fresh id, the AI response's `message.content`
   * (`None` when `ai.feedback` returns nothing), and `JSON.parse`.
   */
  datatype Collaborators = Collaborators(
    pdfUpload: Option<string>,
    conversion: Pdf2Img.ConversionResult,
    imageUpload: Option<string>,
    uuid: string,
    reply: Option<Content>,
    parse: string -> Result<Feedback>)

  datatype Upload = ResumePdf(file: PdfFile) | PreviewImage(image: Pdf2Img.ImageFile)

  /** Everything a run does that is visible outside `handleAnalyze`. */
  datatype Effect =
    | SetStatus(text: string)
    | UploadFile(upload: Upload)
    | ConvertPdf(file: PdfFile)
    | KvSet(key: string, record: Resume)
    | AskFeedback(path: string, instructions: Constants.Instructions)
    | Navigate(to: string)

  /** A run halts on an early return, ends with the `JSON.parse` exception, or navigates. */
  datatype Ending = Halted | Threw(message: string) | Navigated

  datatype Run = Run(effects: seq<Effect>, ending: Ending)

  const Uploading := "Uploading your resume..."
  const UploadFailed := "Failed to upload file."
  const Converting := "Converting resume to text..."
  const ConversionFailed := "Failed to convert PDF to image."
  const Analyzing := "Analyzing your resume..."
  const ImageUploadFailed := "Failed to upload image file."
  const Generating := "Generating feedback..."
  const Complete := "Analysis complete! Redirecting..."
  const AiFailed := "Failed to get feedback from AI."
  const Redirecting := "Redirecting to results page..."

  /**
   * The `data` object written before the AI call: the job-match page stores
   * company, title and description, the general page none of them.
   */
  function Provisional(v: Variant, uuid: string, resumePath: string, imagePath: string): (r: Resume)
    ensures r.id == uuid && r.resumePath == resumePath && r.imagePath == imagePath && r.feedback == Pending
    ensures v.GeneralAnalysis? ==> r.companyName.None? && r.jobTitle.None? && r.jobDescription.None?
    ensures v.JobMatchAnalysis? ==>
      (r.companyName == Some(v.companyName) && r.jobTitle == Some(v.jobTitle)
       && r.jobDescription == Some(v.jobDescription))
  {
    match v
    case JobMatchAnalysis(company, title, description) =>
      Resume(uuid, resumePath, imagePath, Some(company), Some(title), Some(description), Pending)
    case GeneralAnalysis =>
      Resume(uuid, resumePath, imagePath, None, None, None, Pending)
  }

  /** `prepareInstructions({jobTitle, jobDescription})` or `prepareGeneralInstructions()`. */
  function InstructionsFor(v: Variant): (i: Constants.Instructions)
    ensures v.GeneralAnalysis? <==> i.GeneralInstructions?
    ensures v.JobMatchAnalysis? ==> i == Constants.JobMatchInstructions(v.jobTitle, v.jobDescription)
  {
    match v
    case JobMatchAnalysis(_, title, description) => Constants.JobMatchInstructions(title, description)
    case GeneralAnalysis => Constants.GeneralInstructions
  }

  function ResultPath(uuid: string): string {
    "/resume/" + uuid
  }

  /**
   * The effects of the first three steps (upload the PDF, convert it, upload
   * the preview image), one appended per statement, up to the first failure.
   */
  function UploadEffects(file: PdfFile, c: Collaborators): seq<Effect> {
    var e0 := [SetStatus(Uploading)] + [UploadFile(ResumePdf(file))];
    match c.pdfUpload
    case None => e0 + [SetStatus(UploadFailed)]
    case Some(_) =>
      var e1 := e0 + [SetStatus(Converting)] + [ConvertPdf(file)];
      match c.conversion.file
      case None => e1 + [SetStatus(ConversionFailed)]
      case Some(image) =>
        var e2 := e1 + [SetStatus(Analyzing)] + [UploadFile(PreviewImage(image))];
        match c.imageUpload
        case None => e2 + [SetStatus(ImageUploadFailed)]
        case Some(_) => e2
  }

  /** The run gets past both uploads and the conversion. */
  predicate Uploaded(c: Collaborators) {
    c.pdfUpload.Some? && c.conversion.file.Some? && c.imageUpload.Some?
  }

  /**
   * The reference definition of one run of `handleAnalyze`: its effects and
   * how it ends.
   */
  function Analysis(v: Variant, file: PdfFile, c: Collaborators): Run {
    var e2 := UploadEffects(file, c);
    if !Uploaded(c) then Run(e2, Halted)
    else
      var pdfPath := c.pdfUpload.value;
      var key := ResumeKey(c.uuid);
      var data := Provisional(v, c.uuid, pdfPath, c.imageUpload.value);
      var e3 := e2 + [SetStatus(Generating)] + [KvSet(key, data)] + [SetStatus(Complete)]
        + [AskFeedback(pdfPath, InstructionsFor(v))];
      match c.reply
      case None => Run(e3 + [SetStatus(AiFailed)], Halted)
      case Some(content) =>
        match c.parse(ContentText(content))
        case Err(m) => Run(e3, Threw(m))
        case Ok(feedback) =>
          Run(e3 + [KvSet(key, data.(feedback := Parsed(feedback)))] + [SetStatus(Redirecting)]
            + [Navigate(ResultPath(c.uuid))], Navigated)
  }

  /** The key-value store after a sequence of effects: each `KvSet` overwrites its key. */
  function Store(kv: map<string, Resume>, effects: seq<Effect>): map<string, Resume>
    decreases |effects|
  {
    if effects == [] then kv
    else
      var before := Store(kv, effects[..|effects| - 1]);
      match effects[|effects| - 1]
      case KvSet(key, record) => before[key := record]
      case _ => before
  }

  /** The status line after a sequence of effects: the last text set, if any. */
  function Shown(status: string, effects: seq<Effect>): string
    decreases |effects|
  {
    if effects == [] then status
    else
      match effects[|effects| - 1]
      case SetStatus(text) => text
      case _ => Shown(status, effects[..|effects| - 1])
  }

  lemma FoldsSnoc(kv: map<string, Resume>, status: string, effects: seq<Effect>, e: Effect)
    ensures Store(kv, effects + [e]) == (if e.KvSet? then Store(kv, effects)[e.key := e.record] else Store(kv, effects))
    ensures Shown(status, effects + [e]) == (if e.SetStatus? then e.text else Shown(status, effects))
  {
    assert (effects + [e])[..|effects|] == effects;
  }

  /** No effect of the sequence satisfies `p`. */
  predicate NoneOf(effects: seq<Effect>, p: Effect -> bool) {
    forall k :: 0 <= k < |effects| ==> !p(effects[k])
  }

  predicate IsStoreWrite(e: Effect) { e.KvSet? }
  predicate IsAiCall(e: Effect) { e.AskFeedback? }
  predicate IsConversion(e: Effect) { e.ConvertPdf? }
  predicate IsNavigation(e: Effect) { e.Navigate? }

  /** A sequence without `KvSet` leaves the store as it is. */
  lemma {:induction false} StoreSkips(kv: map<string, Resume>, effects: seq<Effect>)
    requires NoneOf(effects, IsStoreWrite)
    ensures Store(kv, effects) == kv
    decreases |effects|
  {
    if effects != [] {
      var init := effects[..|effects| - 1];
      assert forall k :: 0 <= k < |init| ==> init[k] == effects[k];
      StoreSkips(kv, init);
    }
  }

  /** The store after `a + b` is the store after `a`, then `b`. */
  lemma {:induction false} StoreAppend(kv: map<string, Resume>, a: seq<Effect>, b: seq<Effect>)
    ensures Store(kv, a + b) == Store(Store(kv, a), b)
    decreases |b|
  {
    if b == [] {
      assert a + b == a;
    } else {
      var init := b[..|b| - 1];
      assert (a + b)[..|a + b| - 1] == a + init;
      StoreAppend(kv, a, init);
    }
  }

  /**
   * A failed PDF upload halts with its status: no conversion, store write or
   * AI call follows.
   */
  lemma UploadFailureHalts(v: Variant, file: PdfFile, c: Collaborators)
    requires c.pdfUpload.None?
    ensures var r := Analysis(v, file, c);
      r.ending == Halted && Shown("", r.effects) == UploadFailed
      && NoneOf(r.effects, IsConversion) && NoneOf(r.effects, IsStoreWrite) && NoneOf(r.effects, IsAiCall)
  {
    var r := Analysis(v, file, c);
    FoldsSnoc(map[], "", r.effects[..2], r.effects[2]);
    assert r.effects[..2] + [r.effects[2]] == r.effects;
  }

  /** A conversion without a file halts with its status, before any image upload or store write. */
  lemma ConversionFailureHalts(v: Variant, file: PdfFile, c: Collaborators)
    requires c.pdfUpload.Some? && c.conversion.file.None?
    ensures var r := Analysis(v, file, c);
      r.ending == Halted && Shown("", r.effects) == ConversionFailed
      && |r.effects| == 5 && NoneOf(r.effects, IsStoreWrite) && NoneOf(r.effects, IsAiCall)
  {
    var r := Analysis(v, file, c);
    FoldsSnoc(map[], "", r.effects[..4], r.effects[4]);
    assert r.effects[..4] + [r.effects[4]] == r.effects;
  }

  /** A failed image upload halts with its status and the store is untouched. */
  lemma ImageUploadFailureHalts(v: Variant, file: PdfFile, c: Collaborators, kv: map<string, Resume>)
    requires c.pdfUpload.Some? && c.conversion.file.Some? && c.imageUpload.None?
    ensures var r := Analysis(v, file, c);
      r.ending == Halted && Shown("", r.effects) == ImageUploadFailed
      && NoneOf(r.effects, IsStoreWrite) && NoneOf(r.effects, IsAiCall)
      && Store(kv, r.effects) == kv
  {
    var r := Analysis(v, file, c);
    var es := r.effects;
    FoldsSnoc(kv, "", es[..6], es[6]);
    assert es[..6] + [es[6]] == es;
    StoreSkips(kv, es);
  }

  /** The provisional record of a run that got that far. */
  function ProvisionalOf(v: Variant, c: Collaborators): Resume
    requires Uploaded(c)
  {
    Provisional(v, c.uuid, c.pdfUpload.value, c.imageUpload.value)
  }

  /** Past the uploads, the first six effects. */
  lemma UploadedEffects(file: PdfFile, c: Collaborators)
    requires Uploaded(c)
    ensures UploadEffects(file, c) == [SetStatus(Uploading), UploadFile(ResumePdf(file)), SetStatus(Converting),
      ConvertPdf(file), SetStatus(Analyzing), UploadFile(PreviewImage(c.conversion.file.value))]
  {
  }

  /**
   * Past the uploads, the provisional record (with empty feedback) is
   * written under `resume-<uuid>` before the AI is called, and the AI call
   * gets the PDF's path, not the image's, with the variant's instructions.
   */
  lemma ProvisionalWriteBeforeAi(v: Variant, file: PdfFile, c: Collaborators)
    requires Uploaded(c)
    ensures var r := Analysis(v, file, c);
      |r.effects| >= 10
      && r.effects[7] == KvSet(ResumeKey(c.uuid), ProvisionalOf(v, c))
      && r.effects[9] == AskFeedback(c.pdfUpload.value, InstructionsFor(v))
      && NoneOf(r.effects[..7], IsStoreWrite) && NoneOf(r.effects[..9], IsAiCall)
      && NoneOf(r.effects[10..], IsAiCall)
  {
    UploadedEffects(file, c);
  }

  /** Through the AI call, the store has received exactly the provisional record. */
  lemma StoreOfUploadedPrefix(v: Variant, file: PdfFile, c: Collaborators, kv: map<string, Resume>)
    requires Uploaded(c)
    ensures |Analysis(v, file, c).effects| >= 10
    ensures Store(kv, Analysis(v, file, c).effects[..10]) == kv[ResumeKey(c.uuid) := ProvisionalOf(v, c)]
  {
    var es := Analysis(v, file, c).effects;
    ProvisionalWriteBeforeAi(v, file, c);
    assert NoneOf(es[8..10], IsStoreWrite) by {
      assert es[8] == SetStatus(Complete);
    }
    StoreOneWrite(kv, es[..10], 7);
  }

  /** A prefix whose only store write is at `j` leaves the store with that one record written. */
  lemma StoreOneWrite(kv: map<string, Resume>, es: seq<Effect>, j: nat)
    requires j < |es| && es[j].KvSet? && NoneOf(es[..j], IsStoreWrite) && NoneOf(es[j + 1..], IsStoreWrite)
    ensures Store(kv, es) == kv[es[j].key := es[j].record]
  {
    assert es == es[..j] + [es[j]] + es[j + 1..];
    StoreAppend(kv, es[..j] + [es[j]], es[j + 1..]);
    StoreAppend(kv, es[..j], [es[j]]);
    StoreSkips(kv, es[..j]);
    StoreSkips(kv[es[j].key := es[j].record], es[j + 1..]);
    assert [es[j]] == [] + [es[j]];
  }

  /**
   * When the AI returns nothing the run halts with its status, and the store
   * holds the provisional record: nothing overwrites it.
   */
  lemma AiFailureKeepsProvisional(v: Variant, file: PdfFile, c: Collaborators, kv: map<string, Resume>)
    requires Uploaded(c) && c.reply.None?
    ensures var r := Analysis(v, file, c);
      r.ending == Halted && Shown("", r.effects) == AiFailed
      && Store(kv, r.effects) == kv[ResumeKey(c.uuid) := ProvisionalOf(v, c)]
  {
    var r := Analysis(v, file, c);
    StoreOfUploadedPrefix(v, file, c, kv);
    var es := r.effects;
    FoldsSnoc(kv, "", es[..10], es[10]);
    assert es[..10] + [es[10]] == es;
  }

  /**
   * When `JSON.parse` throws, the run ends with that exception: the store
   * keeps the provisional record and there is no navigation.
   */
  lemma ParseFailureKeepsProvisional(v: Variant, file: PdfFile, c: Collaborators, kv: map<string, Resume>)
    requires Uploaded(c) && c.reply.Some? && c.parse(ContentText(c.reply.value)).Err?
    ensures var r := Analysis(v, file, c);
      r.ending == Threw(c.parse(ContentText(c.reply.value)).message)
      && Shown("", r.effects) == Complete
      && Store(kv, r.effects) == kv[ResumeKey(c.uuid) := ProvisionalOf(v, c)]
      && NoneOf(r.effects, IsNavigation)
  {
    var r := Analysis(v, file, c);
    StoreOfUploadedPrefix(v, file, c, kv);
    var es := r.effects;
    assert es[..10] == es;
    FoldsSnoc(kv, "", es[..9], es[9]);
    FoldsSnoc(kv, "", es[..8], es[8]);
    assert es[..9] + [es[9]] == es;
    assert es[..8] + [es[8]] == es[..9];
  }

  /** The effects of a successful run: the prefix through the AI call, then the final write, status and navigation. */
  lemma SuccessEffects(v: Variant, file: PdfFile, c: Collaborators)
    requires Uploaded(c) && c.reply.Some? && c.parse(ContentText(c.reply.value)).Ok?
    ensures var r := Analysis(v, file, c);
      var f := c.parse(ContentText(c.reply.value)).value;
      |r.effects| == 13 && r.ending == Navigated
      && r.effects[10..] == [KvSet(ResumeKey(c.uuid), ProvisionalOf(v, c).(feedback := Parsed(f))),
        SetStatus(Redirecting), Navigate("/resume/" + c.uuid)]
  {
    UploadedEffects(file, c);
  }

  /**
   * On success the same key is rewritten with only `feedback` replaced by the
   * parsed reply.
   */
  lemma SuccessRewritesFeedbackOnly(v: Variant, file: PdfFile, c: Collaborators, kv: map<string, Resume>)
    requires Uploaded(c) && c.reply.Some? && c.parse(ContentText(c.reply.value)).Ok?
    ensures var f := c.parse(ContentText(c.reply.value)).value;
      Store(kv, Analysis(v, file, c).effects) == kv[ResumeKey(c.uuid) := ProvisionalOf(v, c).(feedback := Parsed(f))]
  {
    StoreOfUploadedPrefix(v, file, c, kv);
    SuccessEffects(v, file, c);
    var es := Analysis(v, file, c).effects;
    assert es == es[..10] + ([es[10]] + es[11..]);
    StoreAppend(kv, es[..10], [es[10]] + es[11..]);
    var kv1 := kv[ResumeKey(c.uuid) := ProvisionalOf(v, c)];
    StoreAppend(kv1, [es[10]], es[11..]);
    assert [es[10]] == [] + [es[10]];
    StoreSkips(Store(kv1, [es[10]]), es[11..]);
  }

  /** A successful run navigates to `/resume/<uuid>` as its last effect, and only there. */
  lemma SuccessNavigatesLast(v: Variant, file: PdfFile, c: Collaborators)
    requires Uploaded(c) && c.reply.Some? && c.parse(ContentText(c.reply.value)).Ok?
    ensures var r := Analysis(v, file, c);
      r.ending == Navigated
      && r.effects[|r.effects| - 1] == Navigate("/resume/" + c.uuid)
      && NoneOf(r.effects[..|r.effects| - 1], IsNavigation)
      && Shown("", r.effects) == Redirecting
  {
    var es := Analysis(v, file, c).effects;
    SuccessEffects(v, file, c);
    assert es[11] == SetStatus(Redirecting) && es[12] == Navigate("/resume/" + c.uuid) by {
      assert es[11] == es[10..][1] && es[12] == es[10..][2];
    }
    assert Shown("", es) == Redirecting by {
      ShownBeforeLast("", es);
    }
    assert NoneOf(es[..12], IsNavigation) by {
      UploadedEffects(file, c);
      assert es[..12] == UploadEffects(file, c) + es[6..12];
    }
  }

  /** A status set just before a last effect that is not a status is the one shown. */
  lemma ShownBeforeLast(status: string, es: seq<Effect>)
    requires |es| >= 2 && es[|es| - 2].SetStatus? && !es[|es| - 1].SetStatus?
    ensures Shown(status, es) == es[|es| - 2].text
  {
    var n := |es|;
    assert es[..n - 1][..n - 2] == es[..n - 2];
    FoldsSnoc(map[], status, es[..n - 1], es[n - 1]);
    FoldsSnoc(map[], status, es[..n - 2], es[n - 2]);
    assert es[..n - 1] + [es[n - 1]] == es;
    assert es[..n - 2] + [es[n - 2]] == es[..n - 1];
  }

  /** The instructions never depend on the form in the general variant. */
  lemma GeneralInstructionsIgnoreInput(file: PdfFile, c: Collaborators)
    requires Uploaded(c)
    ensures Analysis(GeneralAnalysis, file, c).effects[9].instructions == Constants.GeneralInstructions
  {
  }

  /** Both variants run through the same steps; they differ only in the record's job fields and the instructions. */
  lemma VariantsAgreeBeforeTheRecord(v: Variant, w: Variant, file: PdfFile, c: Collaborators)
    ensures Analysis(v, file, c).ending == Analysis(w, file, c).ending
    ensures |Analysis(v, file, c).effects| == |Analysis(w, file, c).effects|
    ensures Uploaded(c) ==> Analysis(v, file, c).effects[..7] == Analysis(w, file, c).effects[..7]
    ensures !Uploaded(c) ==> Analysis(v, file, c) == Analysis(w, file, c)
  {
  }

  /**
   * The state of an upload page and the part of the world `handleAnalyze`
   * touches: React's `isProcessing`, `statusText` and `file`, the Puter KV
   * store, and the log of effects.
   */
  class UploadPage {
    var isProcessing: bool
    var statusText: string
    var file: Option<PdfFile>
    var kv: map<string, Resume>
    var log: seq<Effect>

    /** The page mounts with nothing selected, over a given store. */
    constructor (store: map<string, Resume>)
      ensures !isProcessing && statusText == "" && file == None && kv == store && log == []
    {
      isProcessing := false;
      statusText := "";
      file := None;
      kv := store;
      log := [];
    }

    /**
     * Since the log stood at `log0`, the effects `trace` have been logged,
     * and the store and the status line are what they make of `kv0` and `status0`.
     */
    ghost predicate Tracks(kv0: map<string, Resume>, status0: string, log0: seq<Effect>, trace: seq<Effect>)
      reads this
    {
      log == log0 + trace && kv == Store(kv0, trace) && statusText == Shown(status0, trace)
    }

    /**
     * The first half of `handleAnalyze`, the same on both pages: the PDF
     * upload, the conversion and the image upload, each followed by an early
     * return on failure. It answers the two uploaded paths when all three
     * succeed.
     */
    method UploadAndConvert(pdf: PdfFile, c: Collaborators, ghost kv0: map<string, Resume>,
      ghost status0: string, ghost log0: seq<Effect>) returns (paths: Option<(string, string)>)
      requires Tracks(kv0, status0, log0, [])
      modifies this
      ensures Tracks(kv0, status0, log0, UploadEffects(pdf, c))
      ensures paths.Some? <==> Uploaded(c)
      ensures Uploaded(c) ==> paths.value == (c.pdfUpload.value, c.imageUpload.value)
      ensures isProcessing == old(isProcessing) && file == old(file)
    {
      Perform(SetStatus(Uploading), kv0, status0, log0, []);
      ghost var trace := [SetStatus(Uploading)];
      Perform(UploadFile(ResumePdf(pdf)), kv0, status0, log0, trace);
      trace := trace + [UploadFile(ResumePdf(pdf))];
      if c.pdfUpload.None? {
        Perform(SetStatus(UploadFailed), kv0, status0, log0, trace);
        return None;
      }
      var uploaderFile := c.pdfUpload.value;
      Perform(SetStatus(Converting), kv0, status0, log0, trace);
      trace := trace + [SetStatus(Converting)];
      Perform(ConvertPdf(pdf), kv0, status0, log0, trace);
      trace := trace + [ConvertPdf(pdf)];
      var imageFile := c.conversion;
      if imageFile.file.None? {
        Perform(SetStatus(ConversionFailed), kv0, status0, log0, trace);
        return None;
      }
      Perform(SetStatus(Analyzing), kv0, status0, log0, trace);
      trace := trace + [SetStatus(Analyzing)];
      Perform(UploadFile(PreviewImage(imageFile.file.value)), kv0, status0, log0, trace);
      if c.imageUpload.None? {
        trace := trace + [UploadFile(PreviewImage(imageFile.file.value))];
        Perform(SetStatus(ImageUploadFailed), kv0, status0, log0, trace);
        return None;
      }
      return Some((uploaderFile, c.imageUpload.value));
    }

    /** `handleFileSelect(file)`. */
    method HandleFileSelect(f: Option<PdfFile>)
      modifies this
      ensures file == f
      ensures isProcessing == old(isProcessing) && statusText == old(statusText)
      ensures kv == old(kv) && log == old(log)
    {
      file := f;
    }

    /** One effect: `setStatusText`, or a call that reaches the outside, logged; `kv.set` writes the store. */
    method Perform(e: Effect, ghost kv0: map<string, Resume>, ghost status0: string, ghost log0: seq<Effect>,
      ghost trace: seq<Effect>)
      requires Tracks(kv0, status0, log0, trace)
      modifies this
      ensures Tracks(kv0, status0, log0, trace + [e])
      ensures isProcessing == old(isProcessing) && file == old(file)
    {
      FoldsSnoc(kv0, status0, trace, e);
      log := log + [e];
      match e
      case SetStatus(text) =>
        statusText := text;
      case KvSet(key, record) =>
        kv := kv[key := record];
      case _ =>
    }
  }
}
