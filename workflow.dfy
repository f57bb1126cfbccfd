/**
 * workflow.py: the sequential graph `ingest_data -> extract_topics ->
 * consolidate_topics -> generate_report -> END`, entered at `ingest_data`.
 * Every node receives the state the previous node returned; no edge is
 * conditional, so a failing stage does not stop the later ones.
 */
module Workflow {
  import opened Wrappers
  import opened Dicts
  import opened AnalysisState
  import Ingestion
  import Extraction
  import Consolidation
  import Report
  import ModelReply
  import Text

  /**
   * What the stages consult outside the state: the date parser, the Play-Store
   * client, whether the model is configured, and the model and reply decoder
   * of each model-calling stage.
   */
  datatype Services = Services(
    parseDate: Ingestion.DateParser,
    fetch: Ingestion.Fetch,
    configured: bool,
    extractLlm: Extraction.Llm,
    extractDecode: Extraction.Decoder,
    consolidateLlm: Consolidation.Llm,
    consolidateDecode: Consolidation.Decoder)

  /**
   * The dictionaries the stages iterate over are well formed, as every Python
   * dict is: each lists its keys once and holds a value for exactly those keys.
   */
  ghost predicate Ready(s: State) {
    && WellFormed(s.rawReviews)
    && Consolidation.Iterable(s.extractedTopics)
    && WellFormed(s.extractedTopics)
    && Consolidation.DaysWellFormed(s.extractedTopics)
    && WellFormed(s.dailyFrequencies)
  }

  /** The state built by app.py is ready. */
  lemma InitialReady(analysisId: int, appUrl: string, targetDate: string)
    ensures Ready(Initial(analysisId, appUrl, targetDate))
  {
    var s := Initial(analysisId, appUrl, targetDate);
    assert s.extractedTopics.order == [];
  }

  // ----------------------------------------------------------- ready stages

  lemma IngestionReady(s: State, parseDate: Ingestion.DateParser, fetch: Ingestion.Fetch)
    requires Ready(s)
    ensures Ready(Ingestion.Ingestion(s, parseDate, fetch))
  {
    IngestionKeeps(s, parseDate, fetch);
  }

  /** Ingestion stores a well-formed window or keeps `raw_reviews`, and leaves the later stages' tables alone. */
  lemma IngestionKeeps(s: State, parseDate: Ingestion.DateParser, fetch: Ingestion.Fetch)
    ensures var r := Ingestion.Ingestion(s, parseDate, fetch);
      && r.extractedTopics == s.extractedTopics
      && r.dailyFrequencies == s.dailyFrequencies
      && (r.rawReviews == s.rawReviews || WellFormed(r.rawReviews))
  {
    var r := Ingestion.Ingestion(s, parseDate, fetch);
    match parseDate(s.targetDate) {
      case Err(m) =>
        assert r == Failed(s, Ingestion.ErrorPrefix, m, IngestionFailed);
      case Ok(target) =>
        if target - Ingestion.LookBack < Ingestion.MinDay {
          assert r == Failed(s, Ingestion.ErrorPrefix, Ingestion.OutOfRange, IngestionFailed);
        } else {
          var scrape := Ingestion.SourceFor(s.appUrl, fetch);
          var window := Ingestion.CollectWindow(scrape, target - Ingestion.LookBack, target + 1);
          if window.Err? {
            assert r == Failed(s, Ingestion.ErrorPrefix, window.message, IngestionFailed);
          } else if target == Ingestion.MaxDay {
            assert r == Failed(s, Ingestion.ErrorPrefix, Ingestion.OutOfRange, IngestionFailed);
          } else {
            WindowWellFormed(scrape, target - Ingestion.LookBack, target + 1);
            assert r.rawReviews == window.value;
          }
        }
    }
  }

  /** A collected window is a well-formed dictionary. */
  lemma WindowWellFormed(scrape: Ingestion.DaySource, start: Date, end: Date)
    requires start <= end && Ingestion.CollectWindow(scrape, start, end).Ok?
    ensures WellFormed(Ingestion.CollectWindow(scrape, start, end).value)
  {
    Ingestion.CollectWindowContents(scrape, start, end);
  }


  /** A day's topics, once projected, are a well-formed dictionary: a topic the object repeats is kept once. */
  lemma {:induction false} FrequenciesWellFormed(items: seq<(Topic, Extraction.TopicEntry)>)
    ensures Extraction.Frequencies(items).Ok? ==> WellFormed(Extraction.Frequencies(items).value)
  {
    if items != [] {
      var init := items[..|items| - 1];
      FrequenciesWellFormed(init);
      var prev := Extraction.Frequencies(init);
      if prev.Ok? && items[|items| - 1].1.TopicFields? {
        PutWellFormed(prev.value, items[|items| - 1].0, items[|items| - 1].1.frequency.GetOr(0));
      }
    }
  }

  lemma DayTopicsWellFormed(reviews: seq<Review>, llm: Extraction.Llm, decode: Extraction.Decoder)
    ensures Extraction.DayTopics(reviews, llm, decode).Ok? ==> WellFormed(Extraction.DayTopics(reviews, llm, decode).value)
  {
    if reviews != [] && llm(Extraction.ReviewsText(reviews)).Ok? {
      match decode(ModelReply.StripCodeFence(llm(Extraction.ReviewsText(reviews)).value)) {
        case DecodeError =>
        case NotAnObject(_) =>
        case TopicsObject(items) => FrequenciesWellFormed(items);
      }
    }
  }

  /** Storing a well-formed day keeps a table of days iterable and well formed. */
  lemma PutDay(m: Dict<Date, Dict<Topic, int>>, date: Date, day: Dict<Topic, int>)
    requires Consolidation.Iterable(m) && WellFormed(m) && Consolidation.DaysWellFormed(m) && WellFormed(day)
    ensures var r := Put(m, date, day);
      Consolidation.Iterable(r) && WellFormed(r) && Consolidation.DaysWellFormed(r)
  {
    var r := Put(m, date, day);
    PutWellFormed(m, date, day);
    forall i | 0 <= i < |r.order|
      ensures HasValues(r.at[r.order[i]]) && WellFormed(r.at[r.order[i]])
    {
      if r.order[i] != date {
        assert i < |m.order|;
      }
    }
  }

  /** The extracted table is well formed, and so is every one of its days. */
  lemma {:induction false} ExtractDaysWellFormed(raw: Dict<Date, seq<Review>>, n: nat, llm: Extraction.Llm, decode: Extraction.Decoder)
    requires HasValues(raw) && n <= |raw.order|
    ensures var r := Extraction.ExtractDays(raw, n, Extraction.ExtractorFor(llm, decode));
      r.Ok? ==> Consolidation.Iterable(r.value) && WellFormed(r.value) && Consolidation.DaysWellFormed(r.value)
  {
    if n > 0 {
      var day := Extraction.ExtractorFor(llm, decode);
      ExtractDaysWellFormed(raw, n - 1, llm, decode);
      var prev := Extraction.ExtractDays(raw, n - 1, day);
      var reviews := raw.at[raw.order[n - 1]];
      DayTopicsWellFormed(reviews, llm, decode);
      if prev.Ok? && day(reviews).Ok? {
        PutDay(prev.value, raw.order[n - 1], day(reviews).value);
      }
    }
  }

  lemma ExtractionReady(s: State, configured: bool, llm: Extraction.Llm, decode: Extraction.Decoder)
    requires Ready(s)
    ensures Ready(Extraction.Extraction(s, configured, llm, decode))
  {
    ExtractDaysWellFormed(s.rawReviews, |s.rawReviews.order|, llm, decode);
  }

  /** `consolidated_daily_frequencies` is a well-formed dictionary. */
  lemma RemapDatesWellFormed(m: Consolidation.Daily, relabel: Topic -> Topic, n: nat)
    requires Consolidation.Iterable(m) && n <= |m.order|
    ensures WellFormed(Consolidation.RemapDates(m, relabel, n))
  {
    MapValuesWellFormed(m, Consolidation.DayRemap(relabel), n);
  }

  lemma ConsolidationReady(s: State, configured: bool, llm: Consolidation.Llm, decode: Consolidation.Decoder)
    requires Ready(s)
    ensures Ready(Consolidation.Consolidation(s, configured, llm, decode))
  {
    var m := s.extractedTopics;
    forall relabel: Topic -> Topic
      ensures WellFormed(Consolidation.RemapDates(m, relabel, |m.order|))
    {
      RemapDatesWellFormed(m, relabel, |m.order|);
    }
  }

  // ------------------------------------------------------------- the graph

  /** The state after `ingest_data`, the entry point. */
  function AfterIngestion(s: State, env: Services): (r: State)
    requires Ready(s)
    ensures Ready(r)
  {
    IngestionReady(s, env.parseDate, env.fetch);
    Ingestion.Ingestion(s, env.parseDate, env.fetch)
  }

  /** The state after the edge `ingest_data -> extract_topics`. */
  function AfterExtraction(s: State, env: Services): (r: State)
    requires Ready(s)
    ensures Ready(r)
  {
    var ingested := AfterIngestion(s, env);
    ExtractionReady(ingested, env.configured, env.extractLlm, env.extractDecode);
    Extraction.Extraction(ingested, env.configured, env.extractLlm, env.extractDecode)
  }

  /** The state after the edge `extract_topics -> consolidate_topics`. */
  function AfterConsolidation(s: State, env: Services): (r: State)
    requires Ready(s)
    ensures Ready(r)
  {
    var extracted := AfterExtraction(s, env);
    ConsolidationReady(extracted, env.configured, env.consolidateLlm, env.consolidateDecode);
    Consolidation.Consolidation(extracted, env.configured, env.consolidateLlm, env.consolidateDecode)
  }

  /** `workflow.ainvoke(state)`: the state `generate_report` hands to END. */
  function Pipeline(s: State, env: Services): State
    requires Ready(s)
  {
    Report.ReviewReport(AfterConsolidation(s, env))
  }

  // ------------------------------------------------------------ stage outcomes

  /** A stage either reports `done` and adds no error, or records one error starting with `prefix` and reports `failed`. */
  ghost predicate StageOutcome(s: State, r: State, prefix: string, done: Status, failed: Status) {
    || (r.processingStatus == done && r.errors == s.errors)
    || RecordsFailure(s, r, prefix, failed)
  }

  lemma IngestionOutcome(s: State, parseDate: Ingestion.DateParser, fetch: Ingestion.Fetch)
    ensures StageOutcome(s, Ingestion.Ingestion(s, parseDate, fetch), Ingestion.ErrorPrefix, IngestionComplete, IngestionFailed)
  {
    if Ingestion.WindowAvailable(s, parseDate, fetch) {
      Ingestion.IngestionSucceeds(s, parseDate, fetch);
    } else {
      Ingestion.IngestionFails(s, parseDate, fetch);
    }
  }

  lemma ExtractionOutcome(s: State, configured: bool, llm: Extraction.Llm, decode: Extraction.Decoder)
    requires HasValues(s.rawReviews)
    ensures StageOutcome(s, Extraction.Extraction(s, configured, llm, decode), Extraction.ErrorPrefix, ExtractionComplete, ExtractionFailed)
  {
    var extracted := Extraction.ExtractDays(s.rawReviews, |s.rawReviews.order|, Extraction.ExtractorFor(llm, decode));
    if !configured {
      FailedRecordsFailure(s, Extraction.ErrorPrefix, NotConfigured, ExtractionFailed);
    } else if extracted.Err? {
      FailedRecordsFailure(s, Extraction.ErrorPrefix, extracted.message, ExtractionFailed);
    }
  }

  lemma ConsolidationOutcome(s: State, configured: bool, llm: Consolidation.Llm, decode: Consolidation.Decoder)
    requires Consolidation.Iterable(s.extractedTopics)
    ensures StageOutcome(s, Consolidation.Consolidation(s, configured, llm, decode), Consolidation.ErrorPrefix,
                         ConsolidationComplete, ConsolidationFailed)
  {
    var m := s.extractedTopics;
    var totals := Consolidation.Totals(m);
    if Consolidation.FallsBack(s, configured, llm, decode) {
      var identity := Consolidation.IdentityOn(totals, |totals.order|);
      var daily := Consolidation.RemapDates(m, Consolidation.LabelOf(identity), |m.order|);
      assert Consolidation.Consolidation(s, configured, llm, decode)
          == Consolidation.Consolidated(s, Consolidation.KeepPositive(totals, |totals.order|), identity, daily);
    } else if Consolidation.UsesReply(s, configured, llm, decode) {
      var reply := Consolidation.Reply(s, configured, llm, decode);
      var mapping := reply.topicMapping.value;
      var daily := Consolidation.RemapDates(m, Consolidation.LabelOf(mapping), |m.order|);
      assert Consolidation.Consolidation(s, configured, llm, decode)
          == Consolidation.Consolidated(s, reply.consolidatedTopics.value, mapping, daily);
    } else {
      Consolidation.ConsolidationFails(s, configured, llm, decode);
    }
  }

  /** `e` is an error one of the three failing stages records. */
  predicate StageError(e: string) {
    || Text.StartsWith(e, Ingestion.ErrorPrefix)
    || Text.StartsWith(e, Extraction.ErrorPrefix)
    || Text.StartsWith(e, Consolidation.ErrorPrefix)
  }

  /** One stage step keeps the earlier errors and adds at most one, a stage error. */
  lemma StepErrors(s: State, r: State, prefix: string, done: Status, failed: Status)
    requires StageOutcome(s, r, prefix, done, failed) && done != failed
    requires prefix in {Ingestion.ErrorPrefix, Extraction.ErrorPrefix, Consolidation.ErrorPrefix}
    ensures |s.errors| <= |r.errors| <= |s.errors| + 1
    ensures r.errors[..|s.errors|] == s.errors
    ensures forall i :: |s.errors| <= i < |r.errors| ==> StageError(r.errors[i])
    ensures r.errors == s.errors <==> r.processingStatus == done
  {
    if r.errors != s.errors {
      assert Text.StartsWith(r.errors[|s.errors|], prefix);
    }
  }

  /**
   * A run always ends "completed" at step "trend_analysis_completed", whatever
   * failed on the way: every node runs on the previous node's output, and the
   * report node adds no error.
   */
  lemma PipelineCompletes(s: State, env: Services)
    requires Ready(s)
    ensures var r := Pipeline(s, env);
      && r.processingStatus.Tag() == "completed"
      && r.currentStep.Label() == "trend_analysis_completed"
      && r.errors == AfterConsolidation(s, env).errors
  {
  }

  /**
   * The errors the run started with stay first; each failing stage adds one
   * error with its own prefix, so at most three are added, and none is added
   * exactly when ingestion, extraction and consolidation all succeed.
   */
  lemma PipelineErrors(s: State, env: Services)
    requires Ready(s)
    ensures var errors := AfterConsolidation(s, env).errors;
      && |s.errors| <= |errors| <= |s.errors| + 3
      && errors[..|s.errors|] == s.errors
      && (forall i :: |s.errors| <= i < |errors| ==> StageError(errors[i]))
      && (errors == s.errors <==>
            && AfterIngestion(s, env).processingStatus == IngestionComplete
            && AfterExtraction(s, env).processingStatus == ExtractionComplete
            && AfterConsolidation(s, env).processingStatus == ConsolidationComplete)
  {
    StagesOutcome(s, env);
    ChainErrors(s, AfterIngestion(s, env), AfterExtraction(s, env), AfterConsolidation(s, env));
  }

  /** Each of the first three nodes either succeeds without an error or records its own failure. */
  lemma StagesOutcome(s: State, env: Services)
    requires Ready(s)
    ensures StageOutcome(s, AfterIngestion(s, env), Ingestion.ErrorPrefix, IngestionComplete, IngestionFailed)
    ensures StageOutcome(AfterIngestion(s, env), AfterExtraction(s, env), Extraction.ErrorPrefix, ExtractionComplete, ExtractionFailed)
    ensures StageOutcome(AfterExtraction(s, env), AfterConsolidation(s, env), Consolidation.ErrorPrefix,
                         ConsolidationComplete, ConsolidationFailed)
  {
    var s1 := AfterIngestion(s, env);
    var s2 := AfterExtraction(s, env);
    IngestionOutcome(s, env.parseDate, env.fetch);
    ExtractionOutcome(s1, env.configured, env.extractLlm, env.extractDecode);
    ConsolidationOutcome(s2, env.configured, env.consolidateLlm, env.consolidateDecode);
  }

  /** Three stage steps in a row keep the earlier errors and add at most three stage errors. */
  lemma ChainErrors(s: State, s1: State, s2: State, s3: State)
    requires StageOutcome(s, s1, Ingestion.ErrorPrefix, IngestionComplete, IngestionFailed)
    requires StageOutcome(s1, s2, Extraction.ErrorPrefix, ExtractionComplete, ExtractionFailed)
    requires StageOutcome(s2, s3, Consolidation.ErrorPrefix, ConsolidationComplete, ConsolidationFailed)
    ensures |s.errors| <= |s3.errors| <= |s.errors| + 3
    ensures s3.errors[..|s.errors|] == s.errors
    ensures forall i :: |s.errors| <= i < |s3.errors| ==> StageError(s3.errors[i])
    ensures s3.errors == s.errors <==>
      s1.processingStatus == IngestionComplete && s2.processingStatus == ExtractionComplete && s3.processingStatus == ConsolidationComplete
  {
    StepErrors(s, s1, Ingestion.ErrorPrefix, IngestionComplete, IngestionFailed);
    StepErrors(s1, s2, Extraction.ErrorPrefix, ExtractionComplete, ExtractionFailed);
    StepErrors(s2, s3, Consolidation.ErrorPrefix, ConsolidationComplete, ConsolidationFailed);
    assert s2.errors[..|s.errors|] == s1.errors[..|s.errors|];
    assert s3.errors[..|s.errors|] == s2.errors[..|s.errors|];
  }

  /** The graph run as written: each node's method on the previous node's output. */
  method RunWorkflow(s: State, env: Services) returns (r: State, csv: Dict<string, Report.CsvColumn>)
    requires Ready(s)
    ensures r == Pipeline(s, env)
    ensures csv == Report.CsvAsWritten(r.trendAnalysis)
  {
    var ingested: State;
    ghost var days: seq<Date>;
    ingested, days := Ingestion.IngestData(s, env.parseDate, env.fetch);
    IngestionReady(s, env.parseDate, env.fetch);
    var extracted: State;
    ghost var prompted: seq<Date>;
    extracted, prompted := Extraction.ExtractTopics(ingested, env.configured, env.extractLlm, env.extractDecode);
    ExtractionReady(ingested, env.configured, env.extractLlm, env.extractDecode);
    assert ingested == AfterIngestion(s, env);
    assert extracted == AfterExtraction(s, env);
    var consolidated := Consolidation.ConsolidateTopics(extracted, env.configured, env.consolidateLlm, env.consolidateDecode);
    assert consolidated == AfterConsolidation(s, env);
    r, csv := Report.GenerateReport(consolidated);
  }
}
