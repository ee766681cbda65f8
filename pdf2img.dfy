/**
 * app/lib/pdf2img.ts: the module-level pdf.js loader cache and the
 * conversion of a PDF's first page into a PNG file.
 *
 * The loader is a class over the two module variables `pdfjsLib` and
 * `loadPromise`, proved against a pure transition function `Step`; the
 * dynamic `import()` is an event that starts and later settles. The
 * conversion is a function over the outcomes of the browser and pdf.js
 * calls it makes.
 */
module Pdf2Img {
  import opened Wrappers

  /** The library handle once the import has resolved (its content is not modelled). */
  datatype PdfLib = PdfLib

  /** The state of the promise stored in `loadPromise`. */
  datatype PromiseStatus = Pending | Fulfilled | Rejected

  /** The loader's abstract state: nothing yet, an import in flight, loaded, or a rejected import. */
  datatype LoaderState = Empty | Loading | Loaded | Failed

  /** Something the program does to the loader: a call of `loadPdfJs`, or the import settling. */
  datatype LoaderEvent = Call(inBrowser: bool) | Settle(ok: bool)

  /** What a call of `loadPdfJs` does. */
  datatype LoadOutcome =
    | CachedLibrary            // returns `pdfjsLib`
    | SharedPromise            // returns the stored `loadPromise`
    | StartedImport            // calls `import()` and returns the new promise
    | Threw(message: string)   // rejects before any import
    | Settled                  // the event was the import settling, not a call

  const NoBrowserMessage := "PDF.js can only be used in a browser environment"

  /** One event, in the order of the tests in `loadPdfJs` and of the `then` callback. */
  function Step(s: LoaderState, e: LoaderEvent): (r: (LoaderState, LoadOutcome))
    ensures e.Call? && s == Loaded ==> r == (Loaded, CachedLibrary)
    ensures e.Call? && (s == Loading || s == Failed) ==> r == (s, SharedPromise)
    ensures e.Call? && s == Empty && !e.inBrowser ==> r == (Empty, Threw(NoBrowserMessage))
    ensures e.Call? && s == Empty && e.inBrowser ==> r == (Loading, StartedImport)
    ensures e.Settle? ==>
      (r.1 == Settled && r.0 == (if s == Loading then (if e.ok then Loaded else Failed) else s))
  {
    match e
    case Call(inBrowser) =>
      if s == Loaded then (s, CachedLibrary)
      else if s != Empty then (s, SharedPromise)
      else if !inBrowser then (s, Threw(NoBrowserMessage))
      else (Loading, StartedImport)
    case Settle(ok) =>
      if s == Loading then (if ok then Loaded else Failed, Settled) else (s, Settled)
  }

  /** The outcomes of a sequence of events, and the final state. */
  function Run(s: LoaderState, events: seq<LoaderEvent>): (r: (LoaderState, seq<LoadOutcome>))
    ensures |r.1| == |events|
    decreases |events|
  {
    if events == [] then (s, [])
    else
      var (s1, o) := Step(s, events[0]);
      var (s2, os) := Run(s1, events[1..]);
      (s2, [o] + os)
  }

  function ImportsStarted(outcomes: seq<LoadOutcome>): nat {
    if outcomes == [] then 0
    else (if outcomes[0] == StartedImport then 1 else 0) + ImportsStarted(outcomes[1..])
  }

  /**
   * `loadPromise` is assigned at most once and never reset: over any
   * sequence of calls and settlements, at most one import is started, and
   * none once a promise is stored.
   */
  lemma {:induction false} AtMostOneImport(s: LoaderState, events: seq<LoaderEvent>)
    ensures ImportsStarted(Run(s, events).1) <= (if s == Empty then 1 else 0)
    ensures s != Empty ==> Run(s, events).0 != Empty
    decreases |events|
  {
    if events != [] {
      var (s1, o) := Step(s, events[0]);
      AtMostOneImport(s1, events[1..]);
      var os := Run(s1, events[1..]).1;
      assert Run(s, events).1 == [o] + os;
      assert ([o] + os)[1..] == os;
    }
  }

  /** Once loaded, every later call returns the cached library. */
  lemma {:induction false} LoadedStaysCached(events: seq<LoaderEvent>)
    ensures Run(Loaded, events).0 == Loaded
    ensures forall k :: 0 <= k < |events| && events[k].Call? ==> Run(Loaded, events).1[k] == CachedLibrary
  {
    if events != [] {
      LoadedStaysCached(events[1..]);
      var os := Run(Loaded, events[1..]).1;
      assert Run(Loaded, events).1 == [Step(Loaded, events[0]).1] + os;
      forall k | 1 <= k < |events| && events[k].Call?
        ensures Run(Loaded, events).1[k] == CachedLibrary
      {
        assert events[1..][k - 1] == events[k];
      }
    }
  }

  /** The two module variables. */
  class PdfJsLoader {
    var pdfjsLib: Option<PdfLib>
    var loadPromise: Option<PromiseStatus>

    /** `pdfjsLib` is set exactly when the stored promise has fulfilled. */
    ghost predicate Valid()
      reads this
    {
      pdfjsLib.Some? <==> loadPromise == Some(Fulfilled)
    }

    function State(): (s: LoaderState)
      reads this
      requires Valid()
    {
      match loadPromise
      case None => Empty
      case Some(Pending) => Loading
      case Some(Fulfilled) => Loaded
      case Some(Rejected) => Failed
    }

    /** Both variables start `null`. */
    constructor ()
      ensures Valid() && pdfjsLib == None && loadPromise == None && State() == Empty
    {
      pdfjsLib := None;
      loadPromise := None;
    }

    /** `loadPdfJs()`, up to the point where it returns a promise or throws. */
    method LoadPdfJs(inBrowser: bool) returns (outcome: LoadOutcome)
      requires Valid()
      modifies this
      ensures Valid()
      ensures (State(), outcome) == Step(old(State()), Call(inBrowser))
      ensures outcome != StartedImport ==> unchanged(this)
    {
      if pdfjsLib.Some? {
        return CachedLibrary;
      }
      if loadPromise.Some? {
        return SharedPromise;
      }
      if !inBrowser {
        return Threw(NoBrowserMessage);
      }
      loadPromise := Some(Pending);
      return StartedImport;
    }

    /** The `import()` settles: on success the `then` callback stores the library. */
    method ImportSettles(ok: bool)
      requires Valid()
      modifies this
      ensures Valid()
      ensures State() == Step(old(State()), Settle(ok)).0
    {
      if loadPromise == Some(Pending) {
        if ok {
          pdfjsLib := Some(PdfLib);
          loadPromise := Some(Fulfilled);
        } else {
          loadPromise := Some(Rejected);
        }
      }
    }
  }

  /** The rendered page as PNG data (its bytes are not modelled). */
  datatype Blob = Blob(data: seq<int>)

  datatype Viewport = Viewport(width: int, height: int)

  /** A page of the document: the viewport it reports for a given scale. */
  datatype Page = Page(viewport: real -> Viewport)

  /** A canvas of the given size, drawn with one page. */
  datatype Canvas = Canvas(width: int, height: int, page: Page)

  datatype ImageFile = ImageFile(name: string, mimeType: string, blob: Blob)

  /** `PdfConversionResult`: `error` is absent on success. */
  datatype ConversionResult = ConversionResult(imageUrl: string, file: Option<ImageFile>, error: Option<string>)

  /**
   * The outcomes of the calls `convertPdfToImage` makes: awaiting the loader,
   * reading the file and opening the document (`document` maps a page
   * number to that page or to the error `getPage` rejects with), obtaining a
   * 2D context, rendering, `toBlob` and `URL.createObjectURL`.
   */
  datatype ConversionEnv = ConversionEnv(
    library: Result<PdfLib>,
    document: Result<nat -> Result<Page>>,
    hasContext: bool,
    render: Canvas -> Result<Canvas>,
    toBlob: Canvas -> Option<Blob>,
    objectUrl: Blob -> string)

  const ConversionScale: real := 2.0
  const PreviewName := "resume-preview.png"
  const PreviewType := "image/png"

  function Failure(message: string): (r: ConversionResult)
    ensures r.imageUrl == "" && r.file.None? && r.error == Some("Failed to convert PDF: " + message)
  {
    ConversionResult("", None, Some("Failed to convert PDF: " + message))
  }

  /** `convertPdfToImage(file)`: every thrown error is caught and reported in `error`. */
  function ConvertPdfToImage(env: ConversionEnv): (r: ConversionResult)
    ensures r.file.Some? <==> r.error.None?
    ensures r.file.Some? ==>
      (r.file.value.name == PreviewName && r.file.value.mimeType == PreviewType
       && r.imageUrl == env.objectUrl(r.file.value.blob))
    ensures r.file.None? ==> r.imageUrl == "" && exists m :: r.error == Some("Failed to convert PDF: " + m)
    ensures !env.hasContext ==> r.error.Some?
  {
    match env.library
    case Err(m) => Failure(m)
    case Ok(_) =>
      match env.document
      case Err(m) => Failure(m)
      case Ok(pages) =>
        match pages(1)
        case Err(m) => Failure(m)
        case Ok(page) =>
          var viewport := page.viewport(ConversionScale);
          if !env.hasContext then Failure("Failed to get canvas 2D context")
          else
            var canvas := Canvas(viewport.width, viewport.height, page);
            match env.render(canvas)
            case Err(m) => Failure(m)
            case Ok(drawn) =>
              match env.toBlob(drawn)
              case None => Failure("Failed to create image blob from canvas")
              case Some(blob) =>
                ConversionResult(env.objectUrl(blob), Some(ImageFile(PreviewName, PreviewType, blob)), None)
  }

  /**
   * Only page 1 matters, rendered at scale 2.0 on a canvas exactly the
   * viewport's size: on success the file's contents are what `toBlob`
   * makes of that canvas after rendering.
   */
  lemma PreviewIsFirstPageAtScaleTwo(env: ConversionEnv)
    requires ConvertPdfToImage(env).file.Some?
    ensures env.document.Ok? && env.document.value(1).Ok?
    ensures
      var page := env.document.value(1).value;
      var vp := page.viewport(2.0);
      var canvas := Canvas(vp.width, vp.height, page);
      env.render(canvas).Ok? && env.toBlob(env.render(canvas).value) == Some(ConvertPdfToImage(env).file.value.blob)
  {
  }

  /** Two documents that agree on their first page convert identically. */
  lemma OnlyFirstPageUsed(env: ConversionEnv, other: nat -> Result<Page>)
    requires env.document.Ok? && env.document.value(1) == other(1)
    ensures ConvertPdfToImage(env) == ConvertPdfToImage(env.(document := Ok(other)))
  {
  }
}
