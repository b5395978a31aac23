/**
 * Conversion of the first page of an uploaded PDF into a PNG file, and the
 * one-time, memoised loading of the rendering library it needs.
 *
 * The rendering library, the canvas and the encoder are abstract: a `RenderEnv`
 * says what each of them yields for one file.
 */
module PdfToImage {
  import opened Wrappers
  import opened Records

  /** The `File` handed to the converter. */
  datatype PdfFile = PdfFile(name: string, bytes: Bytes)

  /** Intrinsic size of a page, at scale 1. */
  datatype Page = Page(width: nat, height: nat)

  /** A parsed document: its first page and the pages after it. */
  datatype PdfDocument = PdfDocument(firstPage: Page, laterPages: seq<Page>)

  datatype Viewport = Viewport(width: nat, height: nat)

  datatype Canvas = Canvas(width: nat, height: nat)

  /** The encoded image: the pixel size of the canvas it was taken from, and its bytes. */
  datatype PngBlob = PngBlob(width: nat, height: nat, bytes: Bytes)

  datatype ImageFile = ImageFile(name: string, mimeType: string, blob: PngBlob)

  /** `PdfConversionResult`: `error` is absent (`None`) on success. */
  datatype ConversionResult = ConversionResult(imageUrl: string, file: Option<ImageFile>, error: Option<string>)

  const Scale: nat := 4
  const PngType: string := "image/png"
  const ContextError: string := "Failed to get canvas context"
  const BlobError: string := "Failed to create image blob"
  const CaughtPrefix: string := "Failed to convert PDF: "
  const BrowserOnly: string := "pdfjs can only run in the browser"

  // ---------------------------------------------------------------------------
  // Output file name: `file.name.replace(/\.pdf$/i, "") + ".png"`
  // ---------------------------------------------------------------------------

  /** A four-character ".pdf" in any mix of upper and lower case. */
  predicate IsPdfExtension(ext: string)
  {
    |ext| == 4 && ext[0] == '.' && ext[1] in {'p', 'P'} && ext[2] in {'d', 'D'} && ext[3] in {'f', 'F'}
  }

  predicate HasPdfSuffix(name: string)
  {
    |name| >= 4 && IsPdfExtension(name[|name| - 4..])
  }

  /** Removes one trailing ".pdf", matched case-insensitively; other names are left whole. */
  function StripPdfSuffix(name: string): (base: string)
    ensures base <= name
    ensures HasPdfSuffix(name) ==> |base| == |name| - 4
    ensures !HasPdfSuffix(name) ==> base == name
  {
    if HasPdfSuffix(name) then name[..|name| - 4] else name
  }

  /** The output file's name: the stripped name followed by ".png". */
  function PngName(name: string): (r: string)
    ensures |r| >= 4 && r[|r| - 4..] == ".png"
    ensures r[..|r| - 4] <= name
  {
    StripPdfSuffix(name) + ".png"
  }

  /** Replacing the extension: any case variant of ".pdf" after a base gives the base with ".png". */
  lemma PngNameReplacesPdf(base: string, ext: string)
    requires IsPdfExtension(ext)
    ensures PngName(base + ext) == base + ".png"
  {
  }

  /** A name without the suffix keeps its full text before ".png". */
  lemma PngNameKeepsOtherNames(name: string)
    requires !HasPdfSuffix(name)
    ensures PngName(name) == name + ".png"
  {
  }

  /** The suffix match ignores case. */
  lemma PngNameIgnoresCase()
    ensures PngName("cv.PDF") == "cv.png"
  {
  }

  /** Only one ".pdf" is removed. */
  lemma PngNameStripsOnce()
    ensures PngName("a.pdf.pdf") == "a.pdf.png"
  {
  }

  /** Another extension is kept in front of ".png". */
  lemma PngNameKeepsOtherExtension()
    ensures PngName("cv.txt") == "cv.txt.png"
  {
  }

  /** ".pdf" counts only at the very end of the name. */
  lemma PngNameNeedsSuffixAtEnd()
    ensures PngName("cv.pdfx") == "cv.pdfx.png"
  {
  }

  // ---------------------------------------------------------------------------
  // Rendering page 1 once the library is available
  // ---------------------------------------------------------------------------

  /** What the library and the browser yield for one file. */
  datatype RenderEnv = RenderEnv(
    document: Result<PdfDocument, string>,  // `file.arrayBuffer()`, `getDocument`, `getPage(1)`; a failure carries `String(err)`
    hasContext: bool,                       // `canvas.getContext("2d")` is non-null
    renderError: Option<string>,            // a rejection of `page.render(...).promise`, as `String(err)`
    encoded: Option<Bytes>,                 // the blob `canvas.toBlob` hands its callback; `None` for null
    urlToken: string)                       // what `URL.createObjectURL` appends to "blob:"

  /** `page.getViewport({ scale: 4 })`. */
  function ViewportOf(page: Page): Viewport
  {
    Viewport(Scale * page.width, Scale * page.height)
  }

  /** The canvas after `canvas.width = viewport.width; canvas.height = viewport.height`. */
  function CanvasFor(v: Viewport): Canvas
  {
    Canvas(v.width, v.height)
  }

  /** The shape every failure takes: no URL, no file, a non-empty message. */
  predicate IsFailureShape(r: ConversionResult)
  {
    r.imageUrl == "" && r.file.None? && r.error.Some? && r.error.value != ""
  }

  /** The `catch` branch: `{ imageUrl: "", file: null, error: "Failed to convert PDF: " + String(err) }`. */
  function Caught(thrown: string): (r: ConversionResult)
    ensures IsFailureShape(r) && CaughtPrefix <= r.error.value
    ensures r.error == Some(CaughtPrefix + thrown)
  {
    ConversionResult("", None, Some(CaughtPrefix + thrown))
  }

  /**
   * The part of `convertPdfToImage` after the library is loaded. It succeeds
   * exactly when every stage does; a success is a PNG file named after the
   * input, of exactly four times the first page's size; every failure has the
   * failure shape and one of the three kinds of message.
   */
  function Rasterize(file: PdfFile, env: RenderEnv): (r: ConversionResult)
    ensures r.file.Some? <==> env.document.Success? && env.hasContext && env.renderError.None? && env.encoded.Some?
    ensures r.file.None? ==> IsFailureShape(r)
    ensures r.error.Some? ==> r.error.value == ContextError || r.error.value == BlobError || CaughtPrefix <= r.error.value
    ensures r.file.Some? ==> r.error.None? && r.imageUrl != ""
    ensures r.file.Some? ==> r.imageUrl == ObjectUrl(env.urlToken)
    ensures env.document.Failure? ==> r == Caught(env.document.error)
    ensures env.document.Success? && !env.hasContext ==> r.error == Some(ContextError)
    ensures env.document.Success? && env.hasContext && env.renderError.Some? ==> r == Caught(env.renderError.value)
    ensures env.document.Success? && env.hasContext && env.renderError.None? && env.encoded.None? ==>
      r.error == Some(BlobError)
    ensures r.file.Some? ==> r.file.value.mimeType == PngType && r.file.value.name == PngName(file.name)
    ensures r.file.Some? ==>
      r.file.value.blob.width == Scale * env.document.value.firstPage.width &&
      r.file.value.blob.height == Scale * env.document.value.firstPage.height &&
      r.file.value.blob.bytes == env.encoded.value
  {
    match env.document
    case Failure(thrown) => Caught(thrown)
    case Success(doc) =>
      var canvas := CanvasFor(ViewportOf(doc.firstPage));
      if !env.hasContext then ConversionResult("", None, Some(ContextError))
      else if env.renderError.Some? then Caught(env.renderError.value)
      else if env.encoded.None? then ConversionResult("", None, Some(BlobError))
      else
        var png := PngBlob(canvas.width, canvas.height, env.encoded.value);
        ConversionResult(ObjectUrl(env.urlToken), Some(ImageFile(PngName(file.name), PngType, png)), None)
  }

  /** Only page 1 is rendered: the pages after it never change the result. */
  lemma RasterizeIgnoresLaterPages(file: PdfFile, env: RenderEnv, pages: seq<Page>)
    requires env.document.Success?
    ensures Rasterize(file, env.(document := Success(env.document.value.(laterPages := pages)))) == Rasterize(file, env)
  {
  }

  // ---------------------------------------------------------------------------
  // The memoised library loader and the converter
  // ---------------------------------------------------------------------------

  /** The imported library, with `GlobalWorkerOptions.workerSrc` set. */
  datatype PdfJs = PdfJs(workerSrc: string)

  /** How the two dynamic imports of the initialiser end. */
  datatype ImportOutcome = Imported(workerSrc: string) | ImportFailed(reason: string)

  /** The state of the shared initialisation promise. */
  datatype Promise = Pending | Fulfilled(lib: PdfJs) | Rejected(reason: string)

  /** What `loadPdfJs` gives its caller: a thrown error, the cached library, or the shared promise. */
  datatype LoadReply = Threw(message: string) | Cached(lib: PdfJs) | Shared

  /**
   * What an awaiting caller ends up with, given the cells before the call:
   * the library or the text `String(err)` of what was thrown. A pending or
   * not-yet-started initialisation ends as `outcome` says.
   */
  function Obtained(lib: Option<PdfJs>, promise: Option<Promise>, inBrowser: bool, outcome: ImportOutcome)
    : (r: Result<PdfJs, string>)
    ensures r.Success? ==> inBrowser
    ensures !inBrowser ==> r == Failure("Error: " + BrowserOnly)
    ensures inBrowser && lib.Some? ==> r == Success(lib.value)
    ensures inBrowser && lib.None? && promise.Some? && promise.value.Rejected? ==> r == Failure(promise.value.reason)
    ensures inBrowser && lib.None? && promise.Some? && promise.value.Fulfilled? ==> r == Success(promise.value.lib)
    ensures inBrowser && lib.None? && (promise.None? || promise == Some(Pending)) ==>
      (outcome.Imported? ==> r == Success(PdfJs(outcome.workerSrc))) &&
      (outcome.ImportFailed? ==> r == Failure(outcome.reason))
  {
    if !inBrowser then Failure("Error: " + BrowserOnly)
    else if lib.Some? then Success(lib.value)
    else if promise.Some? && promise.value.Rejected? then Failure(promise.value.reason)
    else if promise.Some? && promise.value.Fulfilled? then Success(promise.value.lib)
    else if outcome.Imported? then Success(PdfJs(outcome.workerSrc))
    else Failure(outcome.reason)
  }

  /** The whole converter's result, given what the caller obtained from the loader. */
  function Converted(obtained: Result<PdfJs, string>, file: PdfFile, env: RenderEnv): (r: ConversionResult)
    ensures r.file.None? ==> IsFailureShape(r)
    ensures obtained.Failure? ==> r == Caught(obtained.error)
    ensures obtained.Success? ==> r == Rasterize(file, env)
  {
    match obtained
    case Failure(thrown) => Caught(thrown)
    case Success(_) => Rasterize(file, env)
  }

  /** Once the initialisation has failed, every later call fails the same way, whatever the imports would do now. */
  lemma RejectionIsPermanent(reason: string, outcome: ImportOutcome, file: PdfFile, env: RenderEnv)
    ensures Converted(Obtained(None, Some(Rejected(reason)), true, outcome), file, env) == Caught(reason)
  {
  }

  /**
   * The module cells `pdfjsLib` and `loadPromise`, and a count of how many
   * times the initialiser's `import("pdfjs-dist")` has been started.
   */
  class PdfJsLoader {
    var pdfjsLib: Option<PdfJs>
    var loadPromise: Option<Promise>
    var importsStarted: nat

    /** The import starts once, when the promise is created; the library is cached exactly when the promise fulfilled. */
    ghost predicate Valid()
      reads this
    {
      && (loadPromise.None? ==> importsStarted == 0)
      && (loadPromise.Some? ==> importsStarted == 1)
      && (pdfjsLib.Some? <==> loadPromise.Some? && loadPromise.value.Fulfilled?)
      && (pdfjsLib.Some? ==> loadPromise.value.lib == pdfjsLib.value)
    }

    /** Both cells start as `null`. */
    constructor ()
      ensures Valid()
      ensures pdfjsLib.None? && loadPromise.None? && importsStarted == 0
    {
      pdfjsLib := None;
      loadPromise := None;
      importsStarted := 0;
    }

    /**
     * `loadPdfJs()`: outside a browser it throws before looking at the cells;
     * otherwise it returns the cached library, or the existing promise, or
     * creates the promise (starting the import) and returns it.
     */
    method LoadPdfJs(inBrowser: bool) returns (reply: LoadReply)
      requires Valid()
      modifies this
      ensures Valid() && importsStarted <= 1
      ensures !inBrowser ==> reply == Threw(BrowserOnly)
      ensures inBrowser && old(pdfjsLib).Some? ==> reply == Cached(old(pdfjsLib).value)
      ensures inBrowser && old(pdfjsLib).None? ==> reply == Shared
      ensures !inBrowser || old(loadPromise).Some? ==> unchanged(this)
      ensures inBrowser && old(loadPromise).None? ==>
        loadPromise == Some(Pending) && pdfjsLib == None && importsStarted == 1
    {
      if !inBrowser {
        return Threw(BrowserOnly);
      }
      if pdfjsLib.Some? {
        return Cached(pdfjsLib.value);
      }
      if loadPromise.Some? {
        return Shared;
      }
      loadPromise := Some(Pending);
      importsStarted := importsStarted + 1;
      reply := Shared;
    }

    /**
     * The initialiser's body runs to its end: when both imports resolve the
     * library is stored and the promise fulfils with it; when one rejects,
     * the promise rejects and `pdfjsLib` stays `null`.
     */
    method Settle(outcome: ImportOutcome)
      requires Valid() && loadPromise == Some(Pending)
      modifies this
      ensures Valid() && importsStarted == old(importsStarted)
      ensures outcome.Imported? ==>
        pdfjsLib == Some(PdfJs(outcome.workerSrc)) && loadPromise == Some(Fulfilled(PdfJs(outcome.workerSrc)))
      ensures outcome.ImportFailed? ==> pdfjsLib.None? && loadPromise == Some(Rejected(outcome.reason))
    {
      match outcome
      case Imported(workerSrc) =>
        pdfjsLib := Some(PdfJs(workerSrc));
        loadPromise := Some(Fulfilled(PdfJs(workerSrc)));
      case ImportFailed(reason) =>
        loadPromise := Some(Rejected(reason));
    }

    /**
     * `convertPdfToImage(file)`: loads the library (awaiting the shared
     * promise, which settles as `outcome` says if it is still pending), then
     * renders. It never throws: every error becomes a failure result. A
     * settled promise is never replaced, so a rejection is permanent.
     */
    method ConvertPdfToImage(file: PdfFile, inBrowser: bool, outcome: ImportOutcome, env: RenderEnv)
      returns (r: ConversionResult)
      requires Valid()
      modifies this
      ensures Valid() && importsStarted <= 1
      ensures r == Converted(Obtained(old(pdfjsLib), old(loadPromise), inBrowser, outcome), file, env)
      ensures r.file.None? ==> IsFailureShape(r)
      ensures !inBrowser ==> unchanged(this)
      ensures inBrowser ==> loadPromise.Some? && !loadPromise.value.Pending?
      ensures old(loadPromise).Some? && !old(loadPromise).value.Pending? ==>
        loadPromise == old(loadPromise) && pdfjsLib == old(pdfjsLib)
      ensures inBrowser && old(pdfjsLib).None? && (old(loadPromise).None? || old(loadPromise) == Some(Pending)) ==>
        && (outcome.Imported? ==>
              pdfjsLib == Some(PdfJs(outcome.workerSrc)) && loadPromise == Some(Fulfilled(PdfJs(outcome.workerSrc))))
        && (outcome.ImportFailed? ==> pdfjsLib.None? && loadPromise == Some(Rejected(outcome.reason)))
    {
      var reply := LoadPdfJs(inBrowser);
      var obtained: Result<PdfJs, string>;
      match reply {
        case Threw(message) =>
          obtained := Failure("Error: " + message);
        case Cached(lib) =>
          obtained := Success(lib);
        case Shared =>
          if loadPromise == Some(Pending) {
            Settle(outcome);
          }
          match loadPromise.value {
            case Fulfilled(lib) => obtained := Success(lib);
            case Rejected(reason) => obtained := Failure(reason);
          }
      }
      r := Converted(obtained, file, env);
    }
  }

  /**
   * On a fresh loader, a first conversion whose imports fail caches the
   * rejection: it and every later conversion return the same caught error,
   * whatever the imports would do by then.
   */
  method FailedImportFailsLaterConversions(first: PdfFile, second: PdfFile, reason: string,
                                          later: ImportOutcome, env1: RenderEnv, env2: RenderEnv)
    returns (r1: ConversionResult, r2: ConversionResult)
    ensures r1 == Caught(reason) && r2 == Caught(reason)
    ensures r2.error == Some(CaughtPrefix + reason)
  {
    var loader := new PdfJsLoader();
    r1 := loader.ConvertPdfToImage(first, true, ImportFailed(reason), env1);
    r2 := loader.ConvertPdfToImage(second, true, later, env2);
  }

  /**
   * Two callers that ask for the library before the initialiser has finished
   * share one promise: the import is started once, and both calls get the
   * same pending promise.
   */
  method ConcurrentFirstCallsShareImport(loader: PdfJsLoader) returns (first: LoadReply, second: LoadReply)
    requires loader.Valid() && loader.loadPromise.None?
    modifies loader
    ensures loader.Valid()
    ensures first == Shared && second == Shared
    ensures loader.importsStarted == 1 && loader.loadPromise == Some(Pending)
  {
    first := loader.LoadPdfJs(true);
    second := loader.LoadPdfJs(true);
  }
}
