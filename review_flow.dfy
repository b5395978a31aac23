/**
 * The upload page and the result page together: the stores a run of
 * `handleAnalyze` leaves behind, read back by `loadResume` on the page the run
 * navigates to.
 */
module ReviewFlow {
  import opened Wrappers
  import opened JsonValues
  import opened Records
  import opened PdfToImage
  import opened Upload
  import opened Resume

  const RoutePrefix: string := "/resume/"

  /** The page a run navigates to reads its `:id` as the run's identifier. */
  lemma RouteCarriesId(uuid: string)
    ensures ResultRoute(uuid)[..|RoutePrefix|] == RoutePrefix
    ensures ResultRoute(uuid)[|RoutePrefix|..] == uuid
  {
  }

  /**
   * After a run that wrote its record, the result page for its identifier
   * finds the record, the document and the image: it sets both URLs and the
   * feedback of the last write.
   */
  lemma PersistedRunLoads(ctx: Context, file: PdfFile, env: Collaborators, kv: map<string, Record>,
                          fs: map<string, Bytes>, urls: UrlTokens)
    requires Persists(Classify(env))
    ensures var stored := InitialRecord(ctx, env.docUpload.value, env.imageUpload.value, env.uuid)
                            .(feedback := FinalFeedback(Classify(env)));
      LoadOutcome(env.uuid, RecordsAfter(kv, ctx, env), BlobsAfter(fs, file, env)) == Loaded(stored)
    ensures StateAfter(Initial, env.uuid, RecordsAfter(kv, ctx, env), BlobsAfter(fs, file, env), urls) ==
      PageState(ObjectUrl(urls.resumeToken), ObjectUrl(urls.imageToken), Some(FinalFeedback(Classify(env))))
  {
  }

  /**
   * A run whose analysis was refused or threw stores `feedback = ''`, so its
   * result page shows the preview but keeps the "Analyzing resume..."
   * placeholder: nothing tells the reader the analysis ended.
   */
  lemma UnanalysedRunShowsPlaceholder(ctx: Context, file: PdfFile, env: Collaborators, kv: map<string, Record>,
                                      fs: map<string, Bytes>, urls: UrlTokens)
    requires Persists(Classify(env)) && !Classify(env).Analyzed?
    ensures var s := StateAfter(Initial, env.uuid, RecordsAfter(kv, ctx, env), BlobsAfter(fs, file, env), urls);
      PreviewOf(s).DocumentPreview? && AnalysisOf(s.feedback) == AnalysingPlaceholder
  {
  }

  /** A run that stored a truthy parsed reply shows that reply's panel, not the placeholder. */
  lemma AnalysedRunShowsFeedback(ctx: Context, file: PdfFile, env: Collaborators, kv: map<string, Record>,
                                 fs: map<string, Bytes>, urls: UrlTokens)
    requires Classify(env).Analyzed? && Truthy(Classify(env).feedback)
    ensures var s := StateAfter(Initial, env.uuid, RecordsAfter(kv, ctx, env), BlobsAfter(fs, file, env), urls);
      PreviewOf(s).DocumentPreview? && s.feedback == Some(Classify(env).feedback) &&
      AnalysisOf(s.feedback) != AnalysingPlaceholder
  {
  }

  /** A run that stopped before writing leaves the result page for its identifier with nothing to load. */
  lemma EarlyFailureLeavesNothing(ctx: Context, file: PdfFile, env: Collaborators, kv: map<string, Record>,
                                  fs: map<string, Bytes>, urls: UrlTokens)
    requires !Persists(Classify(env)) && RecordKey(env.uuid) !in kv
    ensures LoadOutcome(env.uuid, RecordsAfter(kv, ctx, env), BlobsAfter(fs, file, env)) == RecordMissing
    ensures StateAfter(Initial, env.uuid, RecordsAfter(kv, ctx, env), BlobsAfter(fs, file, env), urls) == Initial
  {
  }
}
