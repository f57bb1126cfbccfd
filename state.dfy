/**
 * The record every stage of the review-analysis pipeline receives and returns
 * (agents/state_types.py). A stage never changes its input: it returns a copy
 * with the fields it owns replaced, as `{**state, ...}` does.
 */
module AnalysisState {
  import opened Wrappers
  import opened Dicts

  /** A calendar day as a day number; formatting days as "%Y-%m-%d" keeps their order. */
  type Date = int
  type Topic = string

  /**
   * One stored review. `rating` and `content` are `None` when the record lacks
   * that key (the extraction prompt then shows "N/A" and "").
   */
  datatype Review = Review(user: string, rating: Option<int>, content: Option<string>, at: Date, reply: Option<string>)

  /** One `{'date': ..., 'frequency': ...}` entry of a topic's trend. */
  datatype DailyPoint = DailyPoint(date: Date, frequency: int)

  /** `{'daily_data': [...]}`: a topic's entry in `trend_analysis`. */
  datatype TopicTrend = TopicTrend(dailyData: seq<DailyPoint>)

  /** `processing_status` */
  datatype Status =
    | Started
    | IngestionComplete | IngestionFailed
    | ExtractionComplete | ExtractionFailed
    | ConsolidationComplete | ConsolidationFailed
    | Completed | AnalysisFailed
  {
    function Tag(): string {
      match this
      case Started => "started"
      case IngestionComplete => "ingestion_complete"
      case IngestionFailed => "ingestion_failed"
      case ExtractionComplete => "extraction_complete"
      case ExtractionFailed => "extraction_failed"
      case ConsolidationComplete => "consolidation_complete"
      case ConsolidationFailed => "consolidation_failed"
      case Completed => "completed"
      case AnalysisFailed => "analysis_failed"
    }
  }

  /** `current_step` */
  datatype Step = Init | DataIngestionCompleted | TopicExtractionCompleted | TopicConsolidationCompleted | TrendAnalysisCompleted
  {
    function Label(): string {
      match this
      case Init => "init"
      case DataIngestionCompleted => "data_ingestion_completed"
      case TopicExtractionCompleted => "topic_extraction_completed"
      case TopicConsolidationCompleted => "topic_consolidation_completed"
      case TrendAnalysisCompleted => "trend_analysis_completed"
    }
  }

  datatype State = State(
    analysisId: int,
    appUrl: string,
    targetDate: string,
    rawReviews: Dict<Date, seq<Review>>,
    extractedTopics: Dict<Date, Dict<Topic, int>>,
    consolidatedTopics: Dict<Topic, int>,
    topicMapping: Dict<Topic, Topic>,
    dailyFrequencies: Dict<Date, Dict<Topic, int>>,
    trendAnalysis: Dict<Topic, TopicTrend>,
    processingStatus: Status,
    errors: seq<string>,
    currentStep: Step)

  /** The state a run starts from: every collection empty, status "started", step "init". */
  function Initial(analysisId: int, appUrl: string, targetDate: string): (s: State)
    ensures s.rawReviews.order == [] && s.extractedTopics.order == [] && s.consolidatedTopics.order == []
    ensures s.topicMapping.order == [] && s.dailyFrequencies.order == [] && s.trendAnalysis.order == []
    ensures s.processingStatus.Tag() == "started" && s.errors == [] && s.currentStep.Label() == "init"
  {
    State(analysisId, appUrl, targetDate, Empty(), Empty(), Empty(), Empty(), Empty(), Empty(), Started, [], Init)
  }

  /** The exception both model-calling stages raise when `azure_config.is_configured()` is false. */
  const NotConfigured := "Azure OpenAI not configured. Please set AZURE_OPENAI_API_KEY, AZURE_OPENAI_ENDPOINT, and AZURE_OPENAI_DEPLOYMENT_NAME environment variables."

  /** What a stage returns from its `except` block: one error appended and a failure status. */
  function Failed(s: State, prefix: string, message: string, status: Status): State {
    s.(errors := s.errors + [prefix + message], processingStatus := status)
  }

  /**
   * `r` is `s` with exactly one error, starting with `prefix`, appended and
   * `processing_status` set to `status`; nothing else differs.
   */
  ghost predicate RecordsFailure(s: State, r: State, prefix: string, status: Status) {
    && |r.errors| == |s.errors| + 1
    && r.errors[..|s.errors|] == s.errors
    && |prefix| <= |r.errors[|s.errors|]|
    && r.errors[|s.errors|][..|prefix|] == prefix
    && r == s.(errors := r.errors, processingStatus := status)
  }

  lemma FailedRecordsFailure(s: State, prefix: string, message: string, status: Status)
    ensures RecordsFailure(s, Failed(s, prefix, message, status), prefix, status)
  {
    var e := prefix + message;
    assert (s.errors + [e])[..|s.errors|] == s.errors;
    assert (s.errors + [e])[|s.errors|] == e;
    assert e[..|prefix|] == prefix;
  }
}
