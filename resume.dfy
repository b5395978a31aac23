/**
 * The result page: `loadResume` reads the record "resume:" + id, then the
 * document blob, then the image blob, setting the page's state as it goes and
 * stopping at the first piece that is missing; the page then shows the
 * preview and the analysis according to that state.
 */
module Resume {
  import opened Wrappers
  import opened JsonValues
  import opened Records

  /** What `URL.createObjectURL` appends to "blob:" for the document and for the image. */
  datatype UrlTokens = UrlTokens(resumeToken: string, imageToken: string)

  /** A read of one of the stores, or a call of one of the page's state setters. */
  datatype Step =
    | KvGet(key: string)          // kv.get(key)
    | FsRead(path: string)        // fs.read(path)
    | SetResumeUrl(url: string)   // setResumeUrl(url)
    | SetImageUrl(url: string)    // setImageUrl(url)
    | SetFeedback(value: Json)    // setFeedback(data.feedback)

  /** Where `loadResume` stops: the first missing piece, or after setting everything. */
  datatype Outcome =
    | RecordMissing
    | DocumentMissing(record: Record)
    | ImageMissing(record: Record)
    | Loaded(record: Record)

  /** The outcome for the stores as they are; a stored blob is truthy whatever its bytes. */
  function LoadOutcome(id: string, kv: map<string, Record>, fs: map<string, Bytes>): (o: Outcome)
    ensures o.RecordMissing? <==> RecordKey(id) !in kv
    ensures !o.RecordMissing? ==> o.record == kv[RecordKey(id)]
    ensures o.DocumentMissing? <==> RecordKey(id) in kv && kv[RecordKey(id)].resumePath !in fs
    ensures o.Loaded? <==>
      RecordKey(id) in kv && kv[RecordKey(id)].resumePath in fs && kv[RecordKey(id)].imagePath in fs
  {
    var key := RecordKey(id);
    if key !in kv then RecordMissing
    else
      var data := kv[key];
      if data.resumePath !in fs then DocumentMissing(data)
      else if data.imagePath !in fs then ImageMissing(data)
      else Loaded(data)
  }

  /** The steps after a load that starts from `log`, one at a time. */
  function StepsAfter(log: seq<Step>, id: string, kv: map<string, Record>, fs: map<string, Bytes>,
                      urls: UrlTokens): seq<Step>
  {
    var key := RecordKey(id);
    var log := log + [KvGet(key)];
    if key !in kv then log
    else
      var data := kv[key];
      var log := log + [FsRead(data.resumePath)];
      if data.resumePath !in fs then log
      else
        var log := log + [SetResumeUrl(ObjectUrl(urls.resumeToken))] + [FsRead(data.imagePath)];
        if data.imagePath !in fs then log
        else log + [SetImageUrl(ObjectUrl(urls.imageToken))] + [SetFeedback(data.feedback)]
  }

  /** The page's state: the two URLs (`''` until set) and the feedback (`None` for the initial `null`). */
  datatype PageState = PageState(resumeUrl: string, imageUrl: string, feedback: Option<Json>)

  /** The state after a load that starts from `s`. */
  function StateAfter(s: PageState, id: string, kv: map<string, Record>, fs: map<string, Bytes>,
                      urls: UrlTokens): PageState
  {
    match LoadOutcome(id, kv, fs)
    case RecordMissing => s
    case DocumentMissing(_) => s
    case ImageMissing(_) => s.(resumeUrl := ObjectUrl(urls.resumeToken))
    case Loaded(data) => PageState(ObjectUrl(urls.resumeToken), ObjectUrl(urls.imageToken), Some(data.feedback))
  }

  /** The state of a page that has not loaded anything yet. */
  const Initial := PageState("", "", None)

  // ---------------------------------------------------------------------------
  // What a load does
  // ---------------------------------------------------------------------------

  /**
   * Each outcome has its own exact sequence of steps: a missing record reads no
   * blob, a missing document sets nothing and never reads the image, a missing
   * image leaves only the document URL set, and a full load sets the document
   * URL, then the image URL, then the feedback.
   */
  lemma LoadSteps(log: seq<Step>, id: string, kv: map<string, Record>, fs: map<string, Bytes>, urls: UrlTokens)
    ensures var key := RecordKey(id);
      var steps := StepsAfter(log, id, kv, fs, urls);
      match LoadOutcome(id, kv, fs)
      case RecordMissing => steps == log + [KvGet(key)]
      case DocumentMissing(r) => steps == log + [KvGet(key), FsRead(r.resumePath)]
      case ImageMissing(r) =>
        steps == log + [KvGet(key), FsRead(r.resumePath), SetResumeUrl(ObjectUrl(urls.resumeToken)), FsRead(r.imagePath)]
      case Loaded(r) =>
        steps == log + [KvGet(key), FsRead(r.resumePath), SetResumeUrl(ObjectUrl(urls.resumeToken)),
                        FsRead(r.imagePath), SetImageUrl(ObjectUrl(urls.imageToken)), SetFeedback(r.feedback)]
  {
  }

  /**
   * The feedback is set only as the last step of a load, after both blobs have
   * been read and after the document URL and then the image URL were set.
   */
  lemma FeedbackSetLast(id: string, kv: map<string, Record>, fs: map<string, Bytes>, urls: UrlTokens)
    ensures var t := StepsAfter([], id, kv, fs, urls);
      forall i :: 0 <= i < |t| && t[i].SetFeedback? ==>
        i == |t| - 1 == 5 && t[1].FsRead? && t[2].SetResumeUrl? && t[3].FsRead? && t[4].SetImageUrl?
  {
  }

  /** A missing piece leaves what the page shows for it, and for everything after it, as it was. */
  lemma MissingPiecesSetNothingLater(s: PageState, id: string, kv: map<string, Record>, fs: map<string, Bytes>,
                                     urls: UrlTokens)
    ensures var o := LoadOutcome(id, kv, fs);
      var t := StateAfter(s, id, kv, fs, urls);
      && (!o.Loaded? ==> t.imageUrl == s.imageUrl && t.feedback == s.feedback)
      && ((o.RecordMissing? || o.DocumentMissing?) ==> t == s)
      && (o.ImageMissing? ==> t.resumeUrl != "" && t.resumeUrl[..5] == "blob:")
  {
  }

  // ---------------------------------------------------------------------------
  // What the page shows
  // ---------------------------------------------------------------------------

  /** The left column: the image linked to the document, or the loading placeholder. */
  datatype Preview = DocumentPreview(href: string, src: string) | LoadingPreview

  /** `imageUrl && resumeUrl ? <a href={resumeUrl}><img src={imageUrl}/></a> : 'Loading preview...'`. */
  function PreviewOf(s: PageState): (p: Preview)
    ensures p.DocumentPreview? <==> s.imageUrl != "" && s.resumeUrl != ""
    ensures p.DocumentPreview? ==> p.href == s.resumeUrl && p.src == s.imageUrl
  {
    if s.imageUrl != "" && s.resumeUrl != "" then DocumentPreview(s.resumeUrl, s.imageUrl) else LoadingPreview
  }

  /** The right column: the placeholder, a render that throws, or the ATS panel's two props. */
  datatype Analysis = AnalysingPlaceholder | RenderThrows | AtsProps(score: Json, tips: Json)

  /**
   * `feedback ? <ATS score={feedback.ATS.score || 0} suggestions={feedback.ATS.tips || []} /> : 'Analyzing resume...'`;
   * reading `.score` of a missing or `null` `ATS` throws.
   */
  function AnalysisOf(feedback: Option<Json>): (a: Analysis)
    ensures a.AnalysingPlaceholder? <==> feedback.None? || !Truthy(feedback.value)
    ensures a.RenderThrows? <==>
      feedback.Some? && Truthy(feedback.value) && Prop(feedback.value, "ATS") in {None, Some(JNull)}
    ensures a.AtsProps? ==> (a.score == JNum(0) || Truthy(a.score)) && Truthy(a.tips)
    ensures a.AtsProps? ==>
      var ats := Prop(feedback.value, "ATS").value;
      && (Prop(ats, "score").Some? && Truthy(Prop(ats, "score").value) ==> a.score == Prop(ats, "score").value)
      && (Prop(ats, "tips").Some? && Truthy(Prop(ats, "tips").value) ==> a.tips == Prop(ats, "tips").value)
      && (!(Prop(ats, "score").Some? && Truthy(Prop(ats, "score").value)) ==> a.score == JNum(0))
      && (!(Prop(ats, "tips").Some? && Truthy(Prop(ats, "tips").value)) ==> a.tips == JArr([]))
  {
    if feedback.None? || !Truthy(feedback.value) then AnalysingPlaceholder
    else
      match Prop(feedback.value, "ATS")
      case None => RenderThrows
      case Some(ats) =>
        if ats.JNull? then RenderThrows
        else AtsProps(OrElse(Prop(ats, "score"), JNum(0)), OrElse(Prop(ats, "tips"), JArr([])))
  }

  /** A fresh page shows the preview exactly when the load got both blobs. */
  lemma PreviewShownOnlyWhenLoaded(id: string, kv: map<string, Record>, fs: map<string, Bytes>, urls: UrlTokens)
    ensures var t := StateAfter(Initial, id, kv, fs, urls);
      PreviewOf(t).DocumentPreview? <==> LoadOutcome(id, kv, fs).Loaded?
    ensures var t := StateAfter(Initial, id, kv, fs, urls);
      PreviewOf(t).DocumentPreview? ==>
        PreviewOf(t) == DocumentPreview(ObjectUrl(urls.resumeToken), ObjectUrl(urls.imageToken))
  {
  }

  /** The `''` stored before analysis, `null`, and the initial state all show the placeholder. */
  lemma FalsyFeedbackShowsPlaceholder(id: string, kv: map<string, Record>, fs: map<string, Bytes>, urls: UrlTokens)
    requires LoadOutcome(id, kv, fs).Loaded? ==> !Truthy(kv[RecordKey(id)].feedback)
    ensures AnalysisOf(StateAfter(Initial, id, kv, fs, urls).feedback) == AnalysingPlaceholder
  {
  }

  class ResumePage {
    /** The `:id` route parameter. */
    const id: string
    var resumeUrl: string
    var imageUrl: string
    var feedback: Option<Json>
    /** The store reads and state updates the page has made, in order. */
    var steps: seq<Step>

    function State(): PageState
      reads this
    {
      PageState(resumeUrl, imageUrl, feedback)
    }

    /** A page for `/resume/<id>` before anything is loaded. */
    constructor (id: string)
      ensures this.id == id && State() == Initial && steps == []
    {
      this.id := id;
      resumeUrl, imageUrl, feedback := "", "", None;
      steps := [];
    }

    /** `loadResume`: read the record, then the document, then the image, stopping at the first missing one. */
    method LoadResume(kv: map<string, Record>, fs: map<string, Bytes>, urls: UrlTokens)
      modifies this`resumeUrl, this`imageUrl, this`feedback, this`steps
      ensures steps == StepsAfter(old(steps), id, kv, fs, urls)
      ensures State() == StateAfter(old(State()), id, kv, fs, urls)
    {
      var key := RecordKey(id);
      steps := steps + [KvGet(key)];
      if key !in kv {
        return;
      }
      var data := kv[key];

      steps := steps + [FsRead(data.resumePath)];
      if data.resumePath !in fs {
        return;
      }
      var pdfUrl := ObjectUrl(urls.resumeToken);
      resumeUrl := pdfUrl;
      steps := steps + [SetResumeUrl(pdfUrl)];

      steps := steps + [FsRead(data.imagePath)];
      if data.imagePath !in fs {
        return;
      }
      var pngUrl := ObjectUrl(urls.imageToken);
      imageUrl := pngUrl;
      steps := steps + [SetImageUrl(pngUrl)];

      feedback := Some(data.feedback);
      steps := steps + [SetFeedback(data.feedback)];
    }
  }
}
