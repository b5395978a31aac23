# Resume analyser: the submission pipeline and the result page, in Dafny

The application lets a signed-in user upload a PDF résumé with a job context
(company, title, description). The upload page then runs a strict pipeline:

1. upload the PDF;
2. rasterise its first page to a PNG at scale 4;
3. upload the PNG;
4. store a record `resume:<uuid>` with `feedback = ''`;
5. ask the AI collaborator for an analysis;
6. store the record again, with the parsed reply as `feedback`;
7. navigate to `/resume/<uuid>`.

The result page reads that record and both blobs back. It shows the image
linked to the PDF, and an ATS panel whose score band and tip rows follow
fixed rules. The login page redirects a signed-in user to the `next=` target
of its query string.

The model has one module per source file, plus three shared ones and
`ReviewFlow`, which joins the upload page to the result page. Each
module takes the form of its source:

- **Wrappers, JsonValues, Records** (shared):
  - `Option`/`Result`.
  - Parsed JSON values, with JavaScript's truthiness, property access and `x || d`.
  - The stored record, its key `"resume:" + id`, and `blob:` object URLs.
- **Upload** (`app/routes/upload.tsx`):
  - The page is a class. Its fields are the form, `isProcessing`, the log of
    statuses shown, the log of calls made to the collaborators, the blob
    store and the key/value store.
  - `HandleAnalyze` runs four stage methods. Each stage changes only the
    fields it names.
  - Everything is proved against specification functions: `StatusesAfter`,
    `CallsAfter`, `BlobsAfter` and `RecordsAfter`.
  - The collaborators' answers for one run are a `Collaborators` value. It
    holds the two upload results, the conversion result, the uuid, the AI
    outcome, and `JSON.parse` as a map from texts that parse to their value.
- **PdfToImage** (`app/lib/pdf2img.ts`):
  - The two module cells of `loadPdfJs` are a class with a method per entry
    point.
  - The rendering after loading is a pure function over what the library
    and browser yield.
  - The output name is a string function.
- **Resume** (`app/routes/resume.tsx`):
  - The page is a class with the two URLs, the feedback and a log of store
    reads and state updates.
  - `LoadResume` is proved against `StepsAfter` and `StateAfter`.
  - The two display conditions are view functions.
- **Ats** (`app/components/ATS.tsx`) and **Login** (`app/routes/login.tsx`):
  pure functions and lemmas.
- **ReviewFlow**: lemmas joining the two pages. What a run leaves in the
  stores is what the result page then loads and shows.

Two consequences of the code, stated as proved properties:

- **The submit button never comes back.** `isProcessing` is set and never
  cleared, so after any run (an error included) the submit button stays
  disabled (`Upload.UploadPage.HandleAnalyze` ensures `!SubmitEnabled()`,
  the condition of `app/routes/upload.tsx:255`).
- **Some result pages keep "Analyzing resume..." forever.** A run whose
  analysis was refused or threw stores `feedback = ''`. Its result page
  shows the preview with the "Analyzing resume..." placeholder for good
  (`ReviewFlow.UnanalysedRunShowsPlaceholder`).

## Model

| member | source | states |
|---|---|---|
| JsonValues.Truthy | app/routes/resume.tsx:98 | a value is falsy exactly when it is `null`, `false`, `0` or `""`; arrays and objects are truthy |
| JsonValues.Prop | app/routes/resume.tsx:100 | `v.key` is defined exactly when `v` is an object holding `key`, and is then that field's value |
| JsonValues.OrElse | app/routes/resume.tsx:100 | the JavaScript default: `x` when it is defined and truthy, `d` in every other case; a truthy default makes the result truthy |
| Records.RecordKey | app/routes/upload.tsx:92 | the key is "resume:" followed by the identifier, unchanged |
| Records.RecordKeyInjective | app/routes/upload.tsx:92 | two identifiers with the same key are equal, so runs never overwrite each other's record |
| Records.ObjectUrl | app/lib/pdf2img.ts:81 | an object URL starts with "blob:" (so it is non-empty and truthy) |
| Login.IndexOf | app/routes/login.tsx:14 | the first occurrence at or after `from`, with no occurrence before it; `None` exactly when there is none |
| Login.SecondPiece | app/routes/login.tsx:14 | `split(sep)[1]` is undefined exactly when `sep` does not occur; otherwise it is the text after the first occurrence up to the next one or the end, and no occurrence starts inside it |
| Login.OverlappingSeparatorPiece | app/routes/login.tsx:14 | a separator that overlaps itself still ends the piece at its next occurrence: `"aaXaaa".split("aa")[1]` is "X" |
| Login.NextTarget | app/routes/login.tsx:14 | the target is never empty, never contains "next=", and is "/" when the search has no "next=" |
| Login.NextTargetOfDecomposition | app/routes/login.tsx:14 | for prefix + "next=" + piece + (end or "next=..."), with no earlier marker, the target is the piece, or "/" when it is empty |
| Login.MarkedPathRoundTrip | app/routes/login.tsx:14 | "?next=" + p gives back p for every non-empty p without "next=" |
| Login.AmpersandIsKept | app/routes/login.tsx:14 | "?next=/a&b=1" redirects to "/a&b=1": later parameters are not stripped |
| Login.EmptyPieceFallsBack | app/routes/login.tsx:14 | "?next=" with nothing after it redirects to "/" |
| Login.LoginRedirect | app/routes/login.tsx:17-19 | navigation happens exactly when authenticated, and then to the non-empty target |
| Ats.ScoreBand | app/components/ATS.tsx:9 | green iff score >= 70, yellow iff 50 <= score < 70, red iff score < 50 |
| Ats.ScoreBandMonotone | app/components/ATS.tsx:9 | a higher score never lands in a worse band |
| Ats.ScoreBandThresholds | app/components/ATS.tsx:9 | 70 and 50 belong to the higher band, 69 and 49 to the lower |
| Ats.RowOf | app/components/ATS.tsx:20-23 | a 'good' tip gets check_circle in green; any other type gets warning in orange; the row shows the tip's text |
| Ats.Rows | app/components/ATS.tsx:18-25 | one row per tip, in the tips' order |
| Ats.RowsAppend | app/components/ATS.tsx:18-25 | the rows of two lists one after the other are the rows of the joined list |
| Ats.TipsSection | app/components/ATS.tsx:14-28 | the section is shown exactly when there is a tip, and then lists all rows |
| Ats.AtsPanel | app/components/ATS.tsx:1-31 | the panel shows the score as given, in green from 70, yellow from 50 and red below, and a tips section, present exactly when there is a suggestion, with one row per suggestion in order |
| PdfToImage.StripPdfSuffix | app/lib/pdf2img.ts:75 | the result is a prefix of the name, four shorter with a ".pdf" suffix in any case, the whole name otherwise |
| PdfToImage.PngName | app/lib/pdf2img.ts:75-76 | the name ends in ".png" and what precedes it is a prefix of the input name |
| PdfToImage.PngNameReplacesPdf | app/lib/pdf2img.ts:75-76 | base + any case variant of ".pdf" becomes base + ".png" |
| PdfToImage.PngNameKeepsOtherNames | app/lib/pdf2img.ts:75-76 | a name without the suffix becomes name + ".png" |
| PdfToImage.PngNameIgnoresCase | app/lib/pdf2img.ts:75-76 | "cv.PDF" becomes "cv.png" |
| PdfToImage.PngNameStripsOnce | app/lib/pdf2img.ts:75-76 | "a.pdf.pdf" becomes "a.pdf.png": only one suffix goes |
| PdfToImage.PngNameKeepsOtherExtension | app/lib/pdf2img.ts:75-76 | "cv.txt" becomes "cv.txt.png" |
| PdfToImage.PngNameNeedsSuffixAtEnd | app/lib/pdf2img.ts:75-76 | "cv.pdfx" becomes "cv.pdfx.png": the match is anchored at the end |
| PdfToImage.Caught | app/lib/pdf2img.ts:89-94 | a caught error gives the failure shape with the message "Failed to convert PDF: " followed by the error's text |
| PdfToImage.Rasterize | app/lib/pdf2img.ts:39-88 | success iff document, context, render and blob all succeed; a failed document load or render gives the caught message with its error's text, a missing context "Failed to get canvas context", a null blob "Failed to create image blob"; a success is "image/png", named by PngName, four times page 1's size, with the encoder's bytes and the blob URL of the encoded image |
| PdfToImage.RasterizeIgnoresLaterPages | app/lib/pdf2img.ts:41 | pages after the first never change the result |
| PdfToImage.Obtained | app/lib/pdf2img.ts:10-37 | outside a browser the load fails with the browser-only error; otherwise a cached library wins, then a settled promise's result, and only an unsettled initialisation ends as the import does |
| PdfToImage.Converted | app/lib/pdf2img.ts:36-95 | the converter never throws: a failed load becomes the caught shape with the load error's text, and a successful load gives exactly the result of rendering the first page |
| PdfToImage.RejectionIsPermanent | app/lib/pdf2img.ts:17-30 | once the shared promise has rejected, every later conversion fails with that reason, whatever a new import would do |
| PdfToImage.PdfJsLoader.constructor | app/lib/pdf2img.ts:7-8 | both cells start empty and no import has started |
| PdfToImage.PdfJsLoader.LoadPdfJs | app/lib/pdf2img.ts:10-31 | outside a browser it throws first; it returns the cached library, the existing promise, or a new pending one; the import starts at most once |
| PdfToImage.PdfJsLoader.Settle | app/lib/pdf2img.ts:19-28 | a resolved import caches the library and fulfils the promise with it; a failed one rejects it and leaves the library unset |
| PdfToImage.PdfJsLoader.ConvertPdfToImage | app/lib/pdf2img.ts:33-96 | the result is `Converted` of what the loader yields; a call that waits for the import leaves the library cached and the promise fulfilled, or the library unset and the promise rejected with the import's reason; a settled promise is never replaced |
| PdfToImage.FailedImportFailsLaterConversions | app/lib/pdf2img.ts:16-30 | on a fresh loader, when the first import fails, that conversion and the next both return the caught error with the same reason, whatever the second import would do |
| PdfToImage.ConcurrentFirstCallsShareImport | app/lib/pdf2img.ts:16-30 | two calls before the initialiser finishes share one pending promise and start one import |
| Upload.FeedbackText | app/routes/upload.tsx:104-106 | a string content is the text; a parts list gives its first part's text, and reading it fails exactly when the list is empty |
| Upload.AnalysisEnd | app/routes/upload.tsx:96-113 | refused iff the reply is falsy; analysed iff there is a reply whose text parses, with the parsed value; otherwise failed |
| Upload.RunExtendsLogs | app/routes/upload.tsx:66-118 | a run appends the same statuses and calls whatever the logs held before |
| Upload.ErrorTexts | app/routes/upload.tsx:69-115 | a status text starts with "Error: " exactly for the four error statuses ("Failed to analyze resume" does not) |
| Upload.SuccessfulRun | app/routes/upload.tsx:69-117 | the six progress statuses in order, and the seven calls: document and image uploads, conversion, initial write, analysis, final write with the parsed reply, navigation to "/resume/" + uuid |
| Upload.EarlyFailures | app/routes/upload.tsx:69-79 | each early failure ends with its own error; no record, analysis or navigation follows; a failed upload is not converted; the store is unchanged |
| Upload.InitialWrite | app/routes/upload.tsx:83-101 | the first write goes to "resume:" + uuid, with the uuid, both upload paths in order, the context and `feedback = ''`; the analysis of the uploaded image follows |
| Upload.RefusedAnalysis | app/routes/upload.tsx:98-102 | a falsy reply ends with the analysis error after exactly one write and no navigation; the stored feedback stays '' |
| Upload.FailedAnalysis | app/routes/upload.tsx:110-117 | a thrown call, text read or parse shows 'Failed to analyze resume', writes the unchanged record again and navigates |
| Upload.EmptyPartsFail | app/routes/upload.tsx:104-113 | an empty parts list throws at `content[0].text` and counts as a failure, not a refusal |
| Upload.ReplyShapesAgree | app/routes/upload.tsx:104-108 | a text given as a string or as the first of any parts leads to the same run |
| Upload.WritesShareKeyAndRecord | app/routes/upload.tsx:85-114 | every write goes to one key with the initial record (feedback aside); the store holds what the last write carried |
| Upload.RunOutcomes | app/routes/upload.tsx:69-117 | a run shows an error last iff it does not navigate, and navigates to its result page iff it goes past the analysis |
| Upload.FinalText | app/routes/upload.tsx:69-115 | the text left on screen starts with "Error: " iff the run stopped, and is the completion text when it navigates |
| Upload.UploadPage.StatusText | app/routes/upload.tsx:23 | the text on screen is empty exactly before the first status, and afterwards starts with "Error: " iff the last status is an error |
| Upload.UploadPage.SubmitEnabled | app/routes/upload.tsx:255 | the button is disabled without a file, without a company name or job title, or while processing, and enabled otherwise |
| Upload.StatusShownDisablesSubmit | app/routes/upload.tsx:67-69 | once a status is on screen the page is processing, so the text is non-empty and the button disabled |
| Upload.UploadPage.constructor | app/routes/upload.tsx:22-28 | the form as filled in, not processing, nothing shown or called yet |
| Upload.UploadPage.SetStatus | app/routes/upload.tsx:69 | one `setStatusText` appends its status to what has been shown |
| Upload.UploadPage.UploadDocumentStep | app/routes/upload.tsx:69-71 | shows the upload status, calls the upload, stores the document under its path or shows the error |
| Upload.UploadPage.ConvertStep | app/routes/upload.tsx:73-75 | shows the conversion status, calls the converter, shows the error when it yields no file |
| Upload.UploadPage.UploadImageStep | app/routes/upload.tsx:77-79 | shows the image status, uploads the PNG, stores it under its path or shows the error |
| Upload.UploadPage.AnalyzeStep | app/routes/upload.tsx:83-117 | the last stage's statuses, calls and store writes are exactly those of the specification functions |
| Upload.UploadPage.HandleAnalyze | app/routes/upload.tsx:66-118 | the new state follows the run: logs extended, blobs and records stored as specified, form untouched, submit disabled from then on |
| Upload.UploadPage.HandleSubmit | app/routes/upload.tsx:120-126 | nothing changes without a file; otherwise the pipeline runs on the form's values and the final text is an error iff the run stopped |
| Resume.LoadOutcome | app/routes/resume.tsx:27-41 | the load stops at a missing record, then at a missing document, then at a missing image, or loads everything |
| Resume.LoadSteps | app/routes/resume.tsx:26-47 | the exact reads and updates for each outcome: no blob read without the record, no image read without the document |
| Resume.FeedbackSetLast | app/routes/resume.tsx:38-45 | the feedback is set only as the last step, after both reads and after the document URL and then the image URL |
| Resume.MissingPiecesSetNothingLater | app/routes/resume.tsx:29-41 | without the image neither the image URL nor the feedback changes; without the record or document nothing changes; a missing image still sets the document URL |
| Resume.PreviewOf | app/routes/resume.tsx:70-86 | the preview is shown exactly when both URLs are non-empty, and then links the document URL and shows the image URL |
| Resume.AnalysisOf | app/routes/resume.tsx:98-108 | a falsy feedback shows the placeholder; a missing or null `ATS` throws; otherwise the panel gets `ATS.score` when it is truthy and 0 when it is not, and `ATS.tips` when it is truthy and an empty list when it is not |
| Resume.PreviewShownOnlyWhenLoaded | app/routes/resume.tsx:70 | a fresh page shows the preview iff both blobs were found, with their two blob URLs |
| Resume.FalsyFeedbackShowsPlaceholder | app/routes/resume.tsx:98-107 | a stored falsy feedback (such as '') or none at all shows "Analyzing resume..." |
| Resume.ResumePage.constructor | app/routes/resume.tsx:15-18 | both URLs empty, feedback null, nothing read yet |
| Resume.ResumePage.LoadResume | app/routes/resume.tsx:26-47 | the steps and the new state are exactly those of the specification functions |
| ReviewFlow.RouteCarriesId | app/routes/upload.tsx:117 | the route navigated to is "/resume/" followed by the uuid, unchanged |
| ReviewFlow.PersistedRunLoads | app/routes/resume.tsx:26-47 | after a run that wrote its record, the result page loads it and sets both URLs and the last write's feedback |
| ReviewFlow.UnanalysedRunShowsPlaceholder | app/routes/resume.tsx:98-107 | a refused or failed analysis leaves the preview with the placeholder |
| ReviewFlow.AnalysedRunShowsFeedback | app/routes/resume.tsx:98-101 | a truthy parsed reply is what the page shows, not the placeholder |
| ReviewFlow.EarlyFailureLeavesNothing | app/routes/resume.tsx:27-29 | a run that stopped before writing leaves nothing to load under its identifier |

## Left out

- Asynchrony and I/O. Every collaborator's answer for one run is an input
  value: `fs.upload`, `fs.read`, `kv.get`, `kv.set`, `ai.feedback`,
  `generateUUID`, `convertPdfToImage` as seen from the upload page, and
  `URL.createObjectURL`. The memo cells of `loadPdfJs` are modelled
  sequentially, with a pending state and an explicit settle step.
- A rejection from `fs.upload` (`app/routes/upload.tsx:70,78`). Such a
  rejection escapes `handleAnalyze` before the next status is set, so the
  page stays on 'Uploading the file...' or 'Uploading the image...' with
  `isProcessing` still true. The model's upload answers are a stored item or
  a falsy value, never a rejection. `Upload.RunOutcomes`, `Upload.FinalText`
  and `Upload.UploadPage.HandleSubmit` speak about the last status of a run,
  and they hold only on the assumption that no upload rejects.
- A rejection from `kv.set`, `fs.read` or `kv.get`. It would abort
  `handleAnalyze` or `loadResume` with an unhandled rejection; a store
  operation here always completes.
- `console.log` and `console.error`: no observable effect on the page.
- `JSON.stringify` and `JSON.parse` of the stored record. The key/value store
  holds `Record` values, which assumes the round trip is exact. The upload
  page's `JSON.parse` of the reply is a map from parseable texts to values;
  a text outside it throws.
- `prepareInstructions`: it is external code. A call is identified by the
  job title and description it is given.
- Pixel work: rendering, `imageSmoothing*` (`app/lib/pdf2img.ts:58-59`) and
  the encoder's quality. Page sizes are natural numbers, so a fractional
  viewport and the canvas's truncation of it are not modelled.
- The `application/pdf` type of the re-wrapped blob
  (`app/routes/resume.tsx:36`): object URLs are abstract tokens.
- JSON numbers are integers. Floating-point scores are not modelled.
- The authentication redirects of the upload and result pages
  (`app/routes/upload.tsx:31-39`, `app/routes/resume.tsx:21-23`) and the
  route table: they involve the auth service and the router.
- Layout, drag and drop, `Summary`, `Details` and the home page: they
  contain no logic beyond rendering.
- The ATS panel's inputs. The model takes an integer score and typed tips, as
  the TypeScript props declare. The conversion of the JSON values that
  `Resume.AnalysisOf` hands it into those types is not modelled.
- An undefined tips list. The tips section takes a list. The `undefined` that
  `suggestions?.length` allows cannot occur on the result page, which passes `tips || []`.
- A separate `statusText` field. The status text is not stored. It is
  the text of the last status in the log (or `''`), which is what every
  `setStatusText` call leaves on screen.
