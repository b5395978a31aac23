/**
 * The upload page's submission pipeline: upload the PDF, convert its first
 * page, upload the image, write the initial record, ask for the analysis,
 * write the final record and navigate to the result page.
 *
 * The collaborators (blob upload, converter, identifier generator, analysis
 * call and `JSON.parse`) are supplied as a `Collaborators` value; the page
 * records the statuses it displayed and the calls it made, in order.
 */
module Upload {
  import opened Wrappers
  import opened JsonValues
  import opened Records
  import opened PdfToImage

  /** The status lines `handleAnalyze` shows. */
  datatype Status =
    | UploadingFile | Converting | UploadingImage | PreparingData | Analyzing | Redirecting
    | UploadFileError | ConvertError | UploadImageError | AnalyzeError | AnalyzeFailed

  /** The text `setStatusText` is given for each status. */
  function Text(s: Status): string
  {
    match s
    case UploadingFile => "Uploading the file..."
    case Converting => "Converting to image..."
    case UploadingImage => "Uploading the image..."
    case PreparingData => "Preparing data..."
    case Analyzing => "Analyzing..."
    case Redirecting => "Analysis complete, redirecting..."
    case UploadFileError => "Error: Failed to upload file"
    case ConvertError => "Error: Failed to convert PDF to image"
    case UploadImageError => "Error: Failed to upload image"
    case AnalyzeError => "Error: Failed to analyze resume"
    case AnalyzeFailed => "Failed to analyze resume"
  }

  /** The statuses whose text carries the "Error: " prefix. */
  predicate IsError(s: Status)
  {
    s.UploadFileError? || s.ConvertError? || s.UploadImageError? || s.AnalyzeError?
  }

  /** The job context typed into the form. */
  datatype Context = Context(companyName: string, jobTitle: string, jobDescription: string)

  /** What `fs.upload` resolves to when it succeeds. */
  datatype FsItem = FsItem(path: string)

  /** The reply's `message.content`: a string, or a list of parts with a `text` each. */
  datatype Part = Part(text: string)
  datatype Content = TextContent(text: string) | PartsContent(parts: seq<Part>)

  /** `ai.feedback(...)`: it throws, resolves to a falsy value, or resolves to a reply. */
  datatype AiOutcome = AiThrows | AiFalsy | AiReply(content: Content)

  /** The argument of `prepareInstructions`, standing for the instructions built from it. */
  datatype Instructions = Instructions(jobTitle: string, jobDescription: string)

  /** A call the page makes to one of its collaborators. */
  datatype Call =
    | UploadDocument(doc: PdfFile)                            // fs.upload([file])
    | Convert(doc: PdfFile)                                   // convertPdfToImage(file)
    | UploadImage(image: ImageFile)                           // fs.upload([imageFile.file])
    | KvSet(key: string, value: Record)                       // kv.set(key, JSON.stringify(value))
    | Feedback(imagePath: string, instructions: Instructions) // ai.feedback(path, prepareInstructions(...))
    | Navigate(route: string)                                 // navigate(route)

  /** The outcomes of every collaborator for one run; `parse` is `JSON.parse`, `None` where it throws. */
  datatype Collaborators = Collaborators(
    docUpload: Option<FsItem>,
    conversion: ConversionResult,
    imageUpload: Option<FsItem>,
    uuid: string,
    ai: AiOutcome,
    parse: map<string, Json>)

  /** `typeof content === 'string' ? content : content[0].text`; `None` where reading the first part throws. */
  function FeedbackText(c: Content): (r: Option<string>)
    ensures c.TextContent? ==> r == Some(c.text)
    ensures c.PartsContent? ==> (r.None? <==> |c.parts| == 0)
    ensures c.PartsContent? && |c.parts| > 0 ==> r == Some(c.parts[0].text)
  {
    match c
    case TextContent(t) => Some(t)
    case PartsContent(parts) => if |parts| == 0 then None else Some(parts[0].text)
  }

  /** Where a run ends. */
  datatype End =
    | DocUploadFailed
    | ConversionFailed
    | ImageUploadFailed
    | AnalysisRefused           // the analysis call resolved to a falsy value
    | AnalysisFailed            // the call, reading the text or the parse threw
    | Analyzed(feedback: Json)  // the parsed reply

  /** How the `try` block around the analysis ends. */
  function AnalysisEnd(env: Collaborators): (e: End)
    ensures e.AnalysisRefused? <==> env.ai.AiFalsy?
    ensures e.Analyzed? <==>
      env.ai.AiReply? && FeedbackText(env.ai.content).Some? && FeedbackText(env.ai.content).value in env.parse
    ensures e.Analyzed? ==> e.feedback == env.parse[FeedbackText(env.ai.content).value]
    ensures e.AnalysisRefused? || e.AnalysisFailed? || e.Analyzed?
  {
    match env.ai
    case AiFalsy => AnalysisRefused
    case AiThrows => AnalysisFailed
    case AiReply(content) =>
      match FeedbackText(content)
      case None => AnalysisFailed
      case Some(text) =>
        if text in env.parse then Analyzed(env.parse[text]) else AnalysisFailed
  }

  /** The first stage whose collaborator fails decides where the run ends. */
  function Classify(env: Collaborators): End
  {
    if env.docUpload.None? then DocUploadFailed
    else if env.conversion.file.None? then ConversionFailed
    else if env.imageUpload.None? then ImageUploadFailed
    else AnalysisEnd(env)
  }

  /** The run got as far as writing the initial record. */
  predicate Persists(e: End)
  {
    !(e.DocUploadFailed? || e.ConversionFailed? || e.ImageUploadFailed?)
  }

  /** The run writes the final record and navigates. */
  predicate Redirects(e: End)
  {
    e.AnalysisFailed? || e.Analyzed?
  }

  function ResultRoute(uuid: string): string
  {
    "/resume/" + uuid
  }

  /** The record before analysis: the identifier, both upload paths in order, the context, and `feedback = ''`. */
  function InitialRecord(ctx: Context, uploadedFile: FsItem, uploadedImage: FsItem, uuid: string): Record
  {
    Record(uuid, uploadedFile.path, uploadedImage.path,
           ctx.companyName, ctx.jobTitle, ctx.jobDescription, JStr(""))
  }

  /** The `feedback` of the final write: the parsed reply, or still `''` when the analysis threw. */
  function FinalFeedback(e: End): Json
  {
    if e.Analyzed? then e.feedback else JStr("")
  }

  /** The status log after a run that starts from `log`, one `setStatusText` at a time. */
  function StatusesAfter(log: seq<Status>, env: Collaborators): seq<Status>
  {
    var log := log + [UploadingFile];
    if env.docUpload.None? then log + [UploadFileError]
    else
      var log := log + [Converting];
      if env.conversion.file.None? then log + [ConvertError]
      else
        var log := log + [UploadingImage];
        if env.imageUpload.None? then log + [UploadImageError]
        else AnalysisStatusesAfter(log, env)
  }

  /** The statuses of the last stage, from 'Preparing data...' on. */
  function AnalysisStatusesAfter(log: seq<Status>, env: Collaborators): seq<Status>
  {
    var log := log + [PreparingData] + [Analyzing];
    var e := AnalysisEnd(env);
    if e.AnalysisRefused? then log + [AnalyzeError]
    else if e.AnalysisFailed? then log + [AnalyzeFailed] + [Redirecting]
    else log + [Redirecting]
  }

  /** The call log after a run that starts from `log`, one call at a time. */
  function CallsAfter(log: seq<Call>, ctx: Context, file: PdfFile, env: Collaborators): seq<Call>
  {
    var log := log + [UploadDocument(file)];
    if env.docUpload.None? then log
    else
      var log := log + [Convert(file)];
      if env.conversion.file.None? then log
      else
        var log := log + [UploadImage(env.conversion.file.value)];
        if env.imageUpload.None? then log
        else AnalysisCallsAfter(log, ctx, env.docUpload.value, env.imageUpload.value, env)
  }

  /** The calls of the last stage: the initial write and the analysis, then the final write and the navigation. */
  function AnalysisCallsAfter(log: seq<Call>, ctx: Context, uploadedFile: FsItem, uploadedImage: FsItem,
                              env: Collaborators): seq<Call>
  {
    var e := AnalysisEnd(env);
    var key := RecordKey(env.uuid);
    var initial := InitialRecord(ctx, uploadedFile, uploadedImage, env.uuid);
    var log := log + [KvSet(key, initial)] + [Feedback(uploadedImage.path, Instructions(ctx.jobTitle, ctx.jobDescription))];
    if e.AnalysisRefused? then log
    else log + [KvSet(key, initial.(feedback := FinalFeedback(e)))] + [Navigate(ResultRoute(env.uuid))]
  }

  /** What a run displays and asks of its collaborators, in order. */
  datatype Trace = Trace(statuses: seq<Status>, calls: seq<Call>)

  /** The trace of `handleAnalyze`: the logs a run produces from empty ones. */
  function Run(ctx: Context, file: PdfFile, env: Collaborators): Trace
  {
    Trace(StatusesAfter([], env), CallsAfter([], ctx, file, env))
  }

  /** The blob store after a run: each uploaded file under the path its upload resolved to. */
  function BlobsAfter(fs: map<string, Bytes>, file: PdfFile, env: Collaborators): map<string, Bytes>
  {
    if env.docUpload.None? then fs
    else
      var fs := fs[env.docUpload.value.path := file.bytes];
      if env.conversion.file.None? || env.imageUpload.None? then fs
      else fs[env.imageUpload.value.path := env.conversion.file.value.blob.bytes]
  }

  /** The key/value store after the last stage: the initial record, then unless refused the final one, under one key. */
  function AnalysisRecordsAfter(kv: map<string, Record>, ctx: Context, uploadedFile: FsItem, uploadedImage: FsItem,
                                env: Collaborators): map<string, Record>
  {
    var e := AnalysisEnd(env);
    var key := RecordKey(env.uuid);
    var initial := InitialRecord(ctx, uploadedFile, uploadedImage, env.uuid);
    var kv := kv[key := initial];
    if e.AnalysisRefused? then kv else kv[key := initial.(feedback := FinalFeedback(e))]
  }

  /** The key/value store after a run. */
  function RecordsAfter(kv: map<string, Record>, ctx: Context, env: Collaborators): map<string, Record>
  {
    if !Persists(Classify(env)) then kv
    else AnalysisRecordsAfter(kv, ctx, env.docUpload.value, env.imageUpload.value, env)
  }

  /** A run appends the same statuses and calls whatever the logs held before. */
  lemma RunExtendsLogs(statuses: seq<Status>, calls: seq<Call>, ctx: Context, file: PdfFile,
                                          env: Collaborators)
    ensures StatusesAfter(statuses, env) == statuses + Run(ctx, file, env).statuses
    ensures CallsAfter(calls, ctx, file, env) == calls + Run(ctx, file, env).calls
  {
  }

  // ---------------------------------------------------------------------------
  // Properties of a run
  // ---------------------------------------------------------------------------

  /** A status's text starts with "Error: " exactly when the status is one of the four errors. */
  lemma ErrorTexts(s: Status)
    ensures IsError(s) <==> "Error: " <= Text(s)
  {
    match s
    case UploadFileError =>
    case ConvertError =>
    case UploadImageError =>
    case AnalyzeError =>
    case UploadingFile => assert Text(s)[0] == 'U';
    case Converting => assert Text(s)[0] == 'C';
    case UploadingImage => assert Text(s)[0] == 'U';
    case PreparingData => assert Text(s)[0] == 'P';
    case Analyzing => assert Text(s)[0] == 'A';
    case Redirecting => assert Text(s)[0] == 'A';
    case AnalyzeFailed => assert Text(s)[0] == 'F';
  }

  /**
   * A fully successful run shows the six statuses in order, makes the seven
   * calls in order, ending with the write of the parsed reply and the navigation
   * to its result page.
   */
  lemma SuccessfulRun(ctx: Context, file: PdfFile, env: Collaborators)
    requires Classify(env).Analyzed?
    ensures var t := Run(ctx, file, env);
      var record := InitialRecord(ctx, env.docUpload.value, env.imageUpload.value, env.uuid);
      && t.statuses == [UploadingFile, Converting, UploadingImage, PreparingData, Analyzing, Redirecting]
      && t.calls == [UploadDocument(file), Convert(file), UploadImage(env.conversion.file.value),
                     KvSet("resume:" + env.uuid, record),
                     Feedback(env.imageUpload.value.path, Instructions(ctx.jobTitle, ctx.jobDescription)),
                     KvSet("resume:" + env.uuid, record.(feedback := Classify(env).feedback)),
                     Navigate("/resume/" + env.uuid)]
  {
  }

  /**
   * The three early failures end with their own error, and write no record,
   * call no analysis and do not navigate; a failed document upload does not
   * even reach the converter, and a failed conversion uploads no image.
   */
  lemma EarlyFailures(ctx: Context, file: PdfFile, env: Collaborators)
    requires !Persists(Classify(env))
    ensures var t := Run(ctx, file, env);
      && IsError(t.statuses[|t.statuses| - 1])
      && t.statuses[|t.statuses| - 1] ==
        (if env.docUpload.None? then UploadFileError
         else if env.conversion.file.None? then ConvertError
         else UploadImageError)
      && forall i :: 0 <= i < |t.calls| ==> !t.calls[i].KvSet? && !t.calls[i].Feedback? && !t.calls[i].Navigate?
    ensures env.docUpload.None? ==> Run(ctx, file, env).calls == [UploadDocument(file)]
    ensures env.docUpload.Some? && env.conversion.file.None? ==>
      Run(ctx, file, env).calls == [UploadDocument(file), Convert(file)]
    ensures forall kv :: RecordsAfter(kv, ctx, env) == kv
  {
  }

  /**
   * The first write goes to "resume:" + uuid and carries the identifier, the
   * document path then the image path, the context strings, and `feedback = ''`;
   * the analysis is asked about the uploaded image, after that write.
   */
  lemma InitialWrite(ctx: Context, file: PdfFile, env: Collaborators)
    requires Persists(Classify(env))
    ensures var c := Run(ctx, file, env).calls;
      |c| >= 5 && c[3].KvSet? &&
      c[3].key == "resume:" + env.uuid &&
      c[3].value.id == env.uuid &&
      c[3].value.resumePath == env.docUpload.value.path &&
      c[3].value.imagePath == env.imageUpload.value.path &&
      c[3].value.companyName == ctx.companyName &&
      c[3].value.jobTitle == ctx.jobTitle &&
      c[3].value.jobDescription == ctx.jobDescription &&
      c[3].value.feedback == JStr("") &&
      c[4] == Feedback(env.imageUpload.value.path, Instructions(ctx.jobTitle, ctx.jobDescription))
  {
  }

  /**
   * A falsy analysis reply stops the run with the error last: the initial record
   * is the only write, there is no navigation, and the store keeps `feedback = ''`.
   */
  lemma RefusedAnalysis(ctx: Context, file: PdfFile, env: Collaborators, kv: map<string, Record>)
    requires Classify(env) == AnalysisRefused
    ensures var t := Run(ctx, file, env);
      && (forall i :: 0 <= i < |t.calls| && t.calls[i].KvSet? ==> i == 3)
      && (forall i :: 0 <= i < |t.calls| ==> !t.calls[i].Navigate?)
      && t.statuses[|t.statuses| - 1] == AnalyzeError
    ensures RecordsAfter(kv, ctx, env)[RecordKey(env.uuid)].feedback == JStr("")
  {
  }

  /**
   * When the call, reading its text or the parse throws, the run goes on:
   * 'Failed to analyze resume', the unchanged record written again under the
   * same key, the completion status, and the navigation.
   */
  lemma FailedAnalysis(ctx: Context, file: PdfFile, env: Collaborators)
    requires Classify(env) == AnalysisFailed
    ensures var t := Run(ctx, file, env);
      && |t.calls| == 7 && t.calls[5] == t.calls[3] && t.calls[5].value.feedback == JStr("")
      && t.statuses[|t.statuses| - 2..] == [AnalyzeFailed, Redirecting]
      && t.calls[6] == Navigate(ResultRoute(env.uuid))
  {
  }

  /** A reply whose parts list is empty counts as a thrown error, not as a refusal. */
  lemma EmptyPartsFail(env: Collaborators)
    requires Persists(Classify(env)) && env.ai == AiReply(PartsContent([]))
    ensures Classify(env) == AnalysisFailed
  {
  }

  /** A reply carrying its text as a plain string, or as the first of its parts, leads to the same run. */
  lemma ReplyShapesAgree(ctx: Context, file: PdfFile, env: Collaborators, text: string, more: seq<Part>)
    ensures Run(ctx, file, env.(ai := AiReply(TextContent(text)))) ==
            Run(ctx, file, env.(ai := AiReply(PartsContent([Part(text)] + more))))
  {
  }

  /**
   * Every write is to "resume:" + uuid, of the initial record with possibly
   * another `feedback`; the store then holds what the last write carried.
   */
  lemma WritesShareKeyAndRecord(ctx: Context, file: PdfFile, env: Collaborators, kv: map<string, Record>)
    requires Persists(Classify(env))
    ensures var c := Run(ctx, file, env).calls;
      var initial := InitialRecord(ctx, env.docUpload.value, env.imageUpload.value, env.uuid);
      && (forall i :: 0 <= i < |c| && c[i].KvSet? ==>
            c[i].key == RecordKey(env.uuid) && c[i].value == initial.(feedback := c[i].value.feedback))
      && exists i :: 0 <= i < |c| && c[i].KvSet? && RecordsAfter(kv, ctx, env)[RecordKey(env.uuid)] == c[i].value &&
           forall j :: i < j < |c| ==> !c[j].KvSet?
  {
    var c := Run(ctx, file, env).calls;
    if Classify(env).AnalysisRefused? {
      assert c[3].KvSet? && forall j :: 3 < j < |c| ==> !c[j].KvSet?;
    } else {
      assert c[5].KvSet? && forall j :: 5 < j < |c| ==> !c[j].KvSet?;
    }
  }

  /** Every run that stops early shows an error last, and every run that goes on navigates to its result page. */
  lemma RunOutcomes(ctx: Context, file: PdfFile, env: Collaborators)
    ensures var t := Run(ctx, file, env);
      var e := Classify(env);
      && (!Redirects(e) <==> IsError(t.statuses[|t.statuses| - 1]))
      && (Redirects(e) <==> t.calls[|t.calls| - 1] == Navigate(ResultRoute(env.uuid)))
  {
  }

  /**
   * The text left on screen after a run, whatever was shown before: an
   * "Error: " text exactly when the run stopped, and the completion text
   * when it went on to navigate.
   */
  lemma FinalText(log: seq<Status>, env: Collaborators)
    ensures var l := StatusesAfter(log, env);
      && l != []
      && ("Error: " <= Text(l[|l| - 1]) <==> !Redirects(Classify(env)))
      && (Redirects(Classify(env)) ==> Text(l[|l| - 1]) == "Analysis complete, redirecting...")
  {
    var l := StatusesAfter(log, env);
    ErrorTexts(l[|l| - 1]);
  }

  // ---------------------------------------------------------------------------
  // The page
  // ---------------------------------------------------------------------------

  class UploadPage {
    // The form
    var companyName: string
    var jobTitle: string
    var jobDescription: string
    var selectedFile: Option<PdfFile>
    // The page's own state
    var isProcessing: bool
    // What the page has shown and asked, and the two stores
    var statusLog: seq<Status>
    var calls: seq<Call>
    var fs: map<string, Bytes>
    var kv: map<string, Record>

    /** Statuses are only set once processing has started. */
    ghost predicate Valid()
      reads this
    {
      && (statusLog != [] ==> isProcessing)
    }

    /** `statusText`: the text of the last status set, `''` before the first. */
    function StatusText(): (t: string)
      reads this
      ensures t == "" <==> statusLog == []
      ensures statusLog != [] ==> ("Error: " <= t <==> IsError(statusLog[|statusLog| - 1]))
    {
      if statusLog == [] then ""
      else
        var last := statusLog[|statusLog| - 1];
        ErrorTexts(last);
        Text(last)
    }

    /** The submit button is enabled with a file, a company name and a job title, while not processing. */
    predicate SubmitEnabled(): (enabled: bool)
      reads this
      ensures selectedFile.None? ==> !enabled
      ensures companyName == "" || jobTitle == "" ==> !enabled
      ensures isProcessing ==> !enabled
      ensures selectedFile.Some? && companyName != "" && jobTitle != "" && !isProcessing ==> enabled
    {
      selectedFile.Some? && companyName != "" && jobTitle != "" && !isProcessing
    }

    /** The page as the form has been filled in, with the stores as they are. */
    constructor (companyName: string, jobTitle: string, jobDescription: string, selectedFile: Option<PdfFile>,
                 kv: map<string, Record>, fs: map<string, Bytes>)
      ensures Valid()
      ensures this.companyName == companyName && this.jobTitle == jobTitle
      ensures this.jobDescription == jobDescription && this.selectedFile == selectedFile
      ensures this.kv == kv && this.fs == fs
      ensures !isProcessing && statusLog == [] && calls == []
    {
      this.companyName, this.jobTitle, this.jobDescription := companyName, jobTitle, jobDescription;
      this.selectedFile := selectedFile;
      this.kv, this.fs := kv, fs;
      isProcessing, statusLog, calls := false, [], [];
    }

    /**
     * The state after one run of the pipeline: processing is on, the page has
     * shown and asked what the run does, after what it had before, the stores
     * hold what the run wrote, and the form is untouched.
     */
    twostate predicate Follows(ctx: Context, file: PdfFile, env: Collaborators)
      reads this
    {
      && isProcessing
      && statusLog == StatusesAfter(old(statusLog), env)
      && calls == CallsAfter(old(calls), ctx, file, env)
      && fs == BlobsAfter(old(fs), file, env)
      && kv == RecordsAfter(old(kv), ctx, env)
      && companyName == old(companyName) && jobTitle == old(jobTitle)
      && jobDescription == old(jobDescription) && selectedFile == old(selectedFile)
    }

    /** `setStatusText(Text(s))`. */
    method SetStatus(s: Status)
      requires Valid() && isProcessing
      modifies this`statusLog
      ensures Valid()
      ensures statusLog == old(statusLog) + [s]
    {
      statusLog := statusLog + [s];
    }

    /** The first stage of `handleAnalyze`: upload the PDF, or stop with its error. */
    method UploadDocumentStep(file: PdfFile, env: Collaborators) returns (uploaded: Option<FsItem>)
      requires Valid() && isProcessing
      modifies this`statusLog, this`calls, this`fs
      ensures Valid()
      ensures uploaded == env.docUpload
      ensures calls == old(calls) + [UploadDocument(file)]
      ensures statusLog == if uploaded.None? then old(statusLog) + [UploadingFile] + [UploadFileError]
                           else old(statusLog) + [UploadingFile]
      ensures fs == if uploaded.None? then old(fs) else old(fs)[uploaded.value.path := file.bytes]
    {
      SetStatus(UploadingFile);
      calls := calls + [UploadDocument(file)];
      uploaded := env.docUpload;
      if uploaded.None? {
        SetStatus(UploadFileError);
        return;
      }
      fs := fs[uploaded.value.path := file.bytes];
    }

    /** The second stage: convert the PDF's first page, or stop with its error. */
    method ConvertStep(file: PdfFile, env: Collaborators) returns (converted: ConversionResult)
      requires Valid() && isProcessing
      modifies this`statusLog, this`calls
      ensures Valid()
      ensures converted == env.conversion
      ensures calls == old(calls) + [Convert(file)]
      ensures statusLog == if converted.file.None? then old(statusLog) + [Converting] + [ConvertError]
                           else old(statusLog) + [Converting]
    {
      SetStatus(Converting);
      calls := calls + [Convert(file)];
      converted := env.conversion;
      if converted.file.None? {
        SetStatus(ConvertError);
      }
    }

    /** The third stage: upload the image, or stop with its error. */
    method UploadImageStep(image: ImageFile, env: Collaborators) returns (uploaded: Option<FsItem>)
      requires Valid() && isProcessing
      modifies this`statusLog, this`calls, this`fs
      ensures Valid()
      ensures uploaded == env.imageUpload
      ensures calls == old(calls) + [UploadImage(image)]
      ensures statusLog == if uploaded.None? then old(statusLog) + [UploadingImage] + [UploadImageError]
                           else old(statusLog) + [UploadingImage]
      ensures fs == if uploaded.None? then old(fs) else old(fs)[uploaded.value.path := image.blob.bytes]
    {
      SetStatus(UploadingImage);
      calls := calls + [UploadImage(image)];
      uploaded := env.imageUpload;
      if uploaded.None? {
        SetStatus(UploadImageError);
        return;
      }
      fs := fs[uploaded.value.path := image.blob.bytes];
    }

    /**
     * The last stage: write the initial record, ask for the analysis, and
     * unless the reply is falsy write the final record and navigate; a thrown
     * call, text read or parse is caught and shown, and the run goes on.
     */
    method AnalyzeStep(ctx: Context, uploadedFile: FsItem, uploadedImage: FsItem, env: Collaborators)
      requires Valid() && isProcessing
      modifies this`statusLog, this`calls, this`kv
      ensures Valid()
      ensures statusLog == AnalysisStatusesAfter(old(statusLog), env)
      ensures calls == AnalysisCallsAfter(old(calls), ctx, uploadedFile, uploadedImage, env)
      ensures kv == AnalysisRecordsAfter(old(kv), ctx, uploadedFile, uploadedImage, env)
    {
      SetStatus(PreparingData);
      var uuid := env.uuid;
      var data := Record(uuid, uploadedFile.path, uploadedImage.path,
                         ctx.companyName, ctx.jobTitle, ctx.jobDescription, JStr(""));
      var key := RecordKey(uuid);
      calls, kv := calls + [KvSet(key, data)], kv[key := data];

      SetStatus(Analyzing);
      calls := calls + [Feedback(uploadedImage.path, Instructions(ctx.jobTitle, ctx.jobDescription))];
      var outcome := AnalysisEnd(env);
      if outcome.AnalysisRefused? {
        SetStatus(AnalyzeError);
        return;
      } else if outcome.AnalysisFailed? {
        SetStatus(AnalyzeFailed);
      } else {
        data := data.(feedback := outcome.feedback);
      }
      calls, kv := calls + [KvSet(key, data)], kv[key := data];
      SetStatus(Redirecting);
      calls := calls + [Navigate(ResultRoute(uuid))];
    }

    /** `handleAnalyze`: the stages one after another, stopping at the first that fails. */
    method HandleAnalyze(ctx: Context, file: PdfFile, env: Collaborators)
      requires Valid()
      modifies this
      ensures Valid()
      ensures Follows(ctx, file, env)
      ensures !SubmitEnabled()
    {
      isProcessing := true;
      var uploadedFile := UploadDocumentStep(file, env);
      if uploadedFile.None? {
        return;
      }
      var imageFile := ConvertStep(file, env);
      if imageFile.file.None? {
        return;
      }
      var uploadedImage := UploadImageStep(imageFile.file.value, env);
      if uploadedImage.None? {
        return;
      }
      AnalyzeStep(ctx, uploadedFile.value, uploadedImage.value, env);
    }

    /** `handleSubmit`: nothing happens without a chosen file; otherwise the pipeline runs on the form's values. */
    method HandleSubmit(env: Collaborators)
      requires Valid()
      modifies this
      ensures Valid()
      ensures old(selectedFile).None? ==> unchanged(this)
      ensures old(selectedFile).Some? ==>
        Follows(Context(old(companyName), old(jobTitle), old(jobDescription)), old(selectedFile).value, env)
      ensures old(selectedFile).Some? ==> ("Error: " <= StatusText() <==> !Redirects(Classify(env)))
    {
      if selectedFile.None? {
        return;
      }
      FinalText(statusLog, env);
      HandleAnalyze(Context(companyName, jobTitle, jobDescription), selectedFile.value, env);
    }
  }

  /** Once a status is on screen the page is processing, so the submit button stays disabled. */
  lemma StatusShownDisablesSubmit(page: UploadPage)
    requires page.Valid() && page.statusLog != []
    ensures page.StatusText() != "" && !page.SubmitEnabled()
  {
  }
}
