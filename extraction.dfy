/**
 * agents/topic_extraction.py: for every date of `raw_reviews`, in order, ask
 * the language model for the topics of that day's reviews and keep each
 * topic's `frequency`. A day without reviews gets `{}` without a model call; a
 * reply that is not JSON gives `{}` for that day; any other exception (model
 * not configured, the model call raising, a reply that is JSON but not an
 * object, a topic whose value is not an object) fails the whole stage.
 */
module Extraction {
  import opened Wrappers
  import opened Dicts
  import opened Text
  import opened ModelReply
  import opened AnalysisState

  const ErrorPrefix := "Extraction error: "

  /**
   * The decoded value stored under one topic name: an object with the fields
   * the prompt asks for (`frequency` is `None` when the key is missing), or a
   * JSON value of another Python type, named by that type ("list", "str", ...).
   */
  datatype TopicEntry =
    | TopicFields(frequency: Option<int>, keywords: seq<string>, sampleReviews: seq<string>)
    | NotADict(typeName: string)

  /**
   * `json.loads` of a cleaned reply: a `JSONDecodeError`, a JSON value that is
   * not an object (named by its Python type), or the object's items in order.
   */
  datatype Decoded =
    | DecodeError
    | NotAnObject(typeName: string)
    | TopicsObject(items: seq<(Topic, TopicEntry)>)

  /** The model: the reviews part of the prompt in, the reply's content out, or the exception it raised. */
  type Llm = string -> Result<string>
  type Decoder = string -> Decoded

  /** The message of the `AttributeError` raised by calling `.attr()` on a value of Python type `typeName`. */
  function NoAttribute(typeName: string, attr: string): string {
    "'" + typeName + "' object has no attribute '" + attr + "'"
  }

  /** `review.get('rating', 'N/A')` as printed. */
  function RatingText(rating: Option<int>): string {
    match rating
    case None => "N/A"
    case Some(n) => IntToString(n)
  }

  /** One line of the prompt's review list. */
  function ReviewLine(r: Review): string {
    "Rating: " + RatingText(r.rating) + " - " + r.content.GetOr("")
  }

  /** `reviews_text`: one line per review, in order. */
  function ReviewLines(reviews: seq<Review>): (lines: seq<string>)
    ensures |lines| == |reviews|
    ensures forall i :: 0 <= i < |reviews| ==> lines[i] == ReviewLine(reviews[i])
  {
    if reviews == [] then [] else ReviewLines(reviews[..|reviews| - 1]) + [ReviewLine(reviews[|reviews| - 1])]
  }

  /** The `reviews` part of the extraction prompt. */
  function ReviewsText(reviews: seq<Review>): string {
    Join("\n", ReviewLines(reviews))
  }

  /**
   * `daily_topics`: every topic of the decoded object mapped to its
   * `frequency`, 0 when the key is missing; the first topic whose value is not
   * an object raises.
   */
  function Frequencies(items: seq<(Topic, TopicEntry)>): Result<Dict<Topic, int>> {
    if items == [] then Ok(Empty())
    else
      match Frequencies(items[..|items| - 1])
      case Err(m) => Err(m)
      case Ok(daily) =>
        match items[|items| - 1].1
        case NotADict(t) => Err(NoAttribute(t, "get"))
        case TopicFields(f, _, _) => Ok(Put(daily, items[|items| - 1].0, f.GetOr(0)))
  }

  /** The topics of one day, or the exception that aborts the stage. */
  function DayTopics(reviews: seq<Review>, llm: Llm, decode: Decoder): Result<Dict<Topic, int>> {
    if reviews == [] then Ok(Empty())
    else
      match llm(ReviewsText(reviews))
      case Err(m) => Err(m)
      case Ok(reply) =>
        match decode(StripCodeFence(reply))
        case DecodeError => Ok(Empty())
        case NotAnObject(t) => Err(NoAttribute(t, "items"))
        case TopicsObject(items) => Frequencies(items)
  }

  /** A day's reviews in, that day's topics or the exception out: `DayTopics` for one model and decoder. */
  type DayExtractor = seq<Review> -> Result<Dict<Topic, int>>

  function ExtractorFor(llm: Llm, decode: Decoder): (day: DayExtractor)
    ensures forall reviews :: day(reviews) == DayTopics(reviews, llm, decode)
  {
    reviews => DayTopics(reviews, llm, decode)
  }

  /** `extracted_topics` after the first `n` dates of `raw`, or the first exception. */
  function ExtractDays(raw: Dict<Date, seq<Review>>, n: nat, day: DayExtractor): Result<Dict<Date, Dict<Topic, int>>>
    requires HasValues(raw) && n <= |raw.order|
  {
    if n == 0 then Ok(Empty())
    else
      match ExtractDays(raw, n - 1, day)
      case Err(m) => Err(m)
      case Ok(extracted) =>
        match day(raw.at[raw.order[n - 1]])
        case Err(m) => Err(m)
        case Ok(daily) => Ok(Put(extracted, raw.order[n - 1], daily))
  }

  /**
   * `topic_extraction_node`; `configured` is `azure_config.is_configured()`.
   * Every Python dict is well formed, `raw_reviews` included.
   */
  function Extraction(s: State, configured: bool, llm: Llm, decode: Decoder): State
    requires HasValues(s.rawReviews)
  {
    if !configured then Failed(s, ErrorPrefix, NotConfigured, ExtractionFailed)
    else
      match ExtractDays(s.rawReviews, |s.rawReviews.order|, ExtractorFor(llm, decode))
      case Err(m) => Failed(s, ErrorPrefix, m, ExtractionFailed)
      case Ok(extracted) => s.(extractedTopics := extracted, currentStep := TopicExtractionCompleted, processingStatus := ExtractionComplete)
  }

  /** The dates among the first `n` for which the model is asked: those with reviews, in date order. */
  ghost function Prompted(raw: Dict<Date, seq<Review>>, n: nat): seq<Date>
    requires HasValues(raw) && n <= |raw.order|
  {
    if n == 0 then []
    else Prompted(raw, n - 1) + (if raw.at[raw.order[n - 1]] == [] then [] else [raw.order[n - 1]])
  }

  /** Each review of a day is one line of its prompt, as long as no review's text holds a line break. */
  lemma PromptLines(reviews: seq<Review>)
    requires reviews != []
    requires forall i :: 0 <= i < |reviews| ==> '\n' !in ReviewLine(reviews[i])
    ensures Split(ReviewsText(reviews), '\n') == ReviewLines(reviews)
    ensures forall i :: 0 <= i < |reviews| ==> Split(ReviewsText(reviews), '\n')[i] == ReviewLine(reviews[i])
  {
    SplitJoin(ReviewLines(reviews), '\n');
  }

  /** The topic names of a decoded object, in order. */
  function Names(items: seq<(Topic, TopicEntry)>): (names: seq<Topic>)
    ensures |names| == |items| && forall i :: 0 <= i < |items| ==> names[i] == items[i].0
  {
    if items == [] then [] else Names(items[..|items| - 1]) + [items[|items| - 1].0]
  }

  /**
   * The projection keeps each topic once, in the object's order, with its
   * `frequency` or 0, and drops `keywords` and `sample_reviews`; it fails
   * exactly when some topic's value is not an object.
   */
  lemma {:induction false} FrequenciesSpec(items: seq<(Topic, TopicEntry)>)
    requires Distinct(Names(items))
    ensures Frequencies(items).Ok? <==> forall i :: 0 <= i < |items| ==> items[i].1.TopicFields?
    ensures Frequencies(items).Ok? ==>
      var daily := Frequencies(items).value;
      && HasValues(daily)
      && daily.order == Names(items)
      && (forall i :: 0 <= i < |items| ==> daily.at[items[i].0] == items[i].1.frequency.GetOr(0))
  {
    if items != [] {
      var init := items[..|items| - 1];
      assert Names(init) == Names(items)[..|items| - 1];
      FrequenciesSpec(init);
      if Frequencies(items).Ok? {
        var last := items[|items| - 1];
        assert last.0 !in Names(init) by {
          forall i | 0 <= i < |init|
            ensures Names(init)[i] != last.0
          {
            assert Names(items)[i] == Names(init)[i];
          }
        }
      }
    }
  }

  /** The stage gets through the first `n` dates exactly when no day raises. */
  lemma {:induction false} ExtractDaysOk(raw: Dict<Date, seq<Review>>, n: nat, day: DayExtractor)
    requires HasValues(raw) && n <= |raw.order|
    ensures ExtractDays(raw, n, day).Ok? <==> forall i :: 0 <= i < n ==> day(raw.at[raw.order[i]]).Ok?
  {
    if n > 0 {
      ExtractDaysOk(raw, n - 1, day);
    }
  }

  /** The dates come out in `raw_reviews` order, each holding its own day's topics. */
  lemma {:induction false} ExtractDaysContents(raw: Dict<Date, seq<Review>>, n: nat, day: DayExtractor)
    requires HasValues(raw) && Distinct(raw.order) && n <= |raw.order|
    requires ExtractDays(raw, n, day).Ok?
    ensures var extracted := ExtractDays(raw, n, day).value;
      && HasValues(extracted)
      && extracted.order == raw.order[..n]
      && (forall i :: 0 <= i < n ==>
            day(raw.at[raw.order[i]]).Ok? && extracted.at[raw.order[i]] == day(raw.at[raw.order[i]]).value)
  {
    if n > 0 {
      ExtractDaysContents(raw, n - 1, day);
      var prev := ExtractDays(raw, n - 1, day).value;
      var date := raw.order[n - 1];
      assert date !in prev.order by {
        forall i | 0 <= i < n - 1
          ensures prev.order[i] != date
        {
          assert prev.order[i] == raw.order[i];
        }
      }
      assert raw.order[..n] == raw.order[..n - 1] + [date];
    }
  }

  /** Every date of `raw` can be extracted without an exception. */
  ghost predicate AllDaysExtract(raw: Dict<Date, seq<Review>>, llm: Llm, decode: Decoder)
    requires HasValues(raw)
  {
    forall i :: 0 <= i < |raw.order| ==> DayTopics(raw.at[raw.order[i]], llm, decode).Ok?
  }

  /**
   * A configured stage whose days all extract keeps the dates of `raw_reviews`
   * in their order, each holding its own day's topics, `{}` for a day without
   * reviews. Status and step are set, and nothing else changes.
   */
  lemma ExtractionSucceeds(s: State, configured: bool, llm: Llm, decode: Decoder)
    requires HasValues(s.rawReviews) && Distinct(s.rawReviews.order)
    requires configured && AllDaysExtract(s.rawReviews, llm, decode)
    ensures var r := Extraction(s, configured, llm, decode);
      var raw := s.rawReviews;
      && HasValues(r.extractedTopics)
      && r.extractedTopics.order == raw.order
      && (forall i :: 0 <= i < |raw.order| ==>
            && r.extractedTopics.at[raw.order[i]] == DayTopics(raw.at[raw.order[i]], llm, decode).value
            && (raw.at[raw.order[i]] == [] ==> r.extractedTopics.at[raw.order[i]] == Empty()))
      && r.processingStatus.Tag() == "extraction_complete"
      && r.currentStep.Label() == "topic_extraction_completed"
      && r == s.(extractedTopics := r.extractedTopics, processingStatus := ExtractionComplete, currentStep := TopicExtractionCompleted)
  {
    var raw := s.rawReviews;
    var n := |raw.order|;
    var day := ExtractorFor(llm, decode);
    ExtractDaysOk(raw, n, day);
    var extracted := ExtractDays(raw, n, day).value;
    assert Extraction(s, configured, llm, decode)
        == s.(extractedTopics := extracted, currentStep := TopicExtractionCompleted, processingStatus := ExtractionComplete);
    ExtractDaysContents(raw, n, day);
    assert raw.order[..n] == raw.order;
  }

  /**
   * Otherwise the stage appends one "Extraction error: " entry, reports
   * "extraction_failed" and leaves `extracted_topics` as it was; when the model
   * is not configured the entry names the missing settings.
   */
  lemma ExtractionFails(s: State, configured: bool, llm: Llm, decode: Decoder)
    requires HasValues(s.rawReviews)
    requires !configured || !AllDaysExtract(s.rawReviews, llm, decode)
    ensures var r := Extraction(s, configured, llm, decode);
      && RecordsFailure(s, r, ErrorPrefix, ExtractionFailed)
      && r.processingStatus.Tag() == "extraction_failed"
      && r.extractedTopics == s.extractedTopics
      && (!configured ==> r.errors == s.errors + [ErrorPrefix + NotConfigured])
  {
    if !configured {
      FailedRecordsFailure(s, ErrorPrefix, NotConfigured, ExtractionFailed);
    } else {
      var raw := s.rawReviews;
      var day := ExtractorFor(llm, decode);
      ExtractDaysOk(raw, |raw.order|, day);
      FailedRecordsFailure(s, ErrorPrefix, ExtractDays(raw, |raw.order|, day).message, ExtractionFailed);
    }
  }

  /** The loop that builds `reviews_text`, joined by line breaks as the prompt does. */
  method BuildReviewsText(reviews: seq<Review>) returns (text: string)
    ensures text == ReviewsText(reviews)
  {
    var lines: seq<string> := [];
    for i := 0 to |reviews|
      invariant lines == ReviewLines(reviews[..i])
    {
      assert reviews[..i + 1][..i] == reviews[..i];
      lines := lines + [ReviewLine(reviews[i])];
    }
    assert reviews[..|reviews|] == reviews;
    text := Join("\n", lines);
  }

  /** The loop that builds `daily_topics` from the decoded object. */
  method ProjectFrequencies(items: seq<(Topic, TopicEntry)>) returns (res: Result<Dict<Topic, int>>)
    ensures res == Frequencies(items)
  {
    var daily: Dict<Topic, int> := Empty();
    for i := 0 to |items|
      invariant Frequencies(items[..i]) == Ok(daily)
    {
      assert items[..i + 1][..i] == items[..i];
      match items[i].1 {
        case NotADict(t) =>
          assert Frequencies(items[..i + 1]) == Err(NoAttribute(t, "get"));
          FrequenciesStaysFailed(items, i + 1);
          return Err(NoAttribute(t, "get"));
        case TopicFields(f, _, _) =>
          daily := Put(daily, items[i].0, f.GetOr(0));
      }
    }
    assert items[..|items|] == items;
    res := Ok(daily);
  }

  /** Once the projection has raised, the later topics do not change the exception. */
  lemma {:induction false} FrequenciesStaysFailed(items: seq<(Topic, TopicEntry)>, k: nat)
    requires k <= |items| && Frequencies(items[..k]).Err?
    ensures Frequencies(items) == Frequencies(items[..k])
    decreases |items| - k
  {
    if k < |items| {
      assert items[..k + 1][..k] == items[..k];
      FrequenciesStaysFailed(items, k + 1);
    } else {
      assert items[..k] == items;
    }
  }

  /** One iteration of the date loop; `prompt` is the text sent to the model, if any. */
  method ExtractDay(reviews: seq<Review>, llm: Llm, decode: Decoder) returns (res: Result<Dict<Topic, int>>, ghost prompt: seq<string>)
    ensures res == DayTopics(reviews, llm, decode)
    ensures prompt == if reviews == [] then [] else [ReviewsText(reviews)]
  {
    if reviews == [] {
      return Ok(Empty()), [];
    }
    var text := BuildReviewsText(reviews);
    prompt := [text];
    var response := llm(text);
    if response.Err? {
      return Err(response.message), prompt;
    }
    var content := StripCodeFence(response.value);
    match decode(content) {
      case DecodeError =>
        res := Ok(Empty());
      case NotAnObject(t) =>
        res := Err(NoAttribute(t, "items"));
      case TopicsObject(items) =>
        res := ProjectFrequencies(items);
    }
  }

  /** Once a day has raised, the later dates do not change the exception. */
  lemma {:induction false} ExtractDaysStaysFailed(raw: Dict<Date, seq<Review>>, k: nat, n: nat, day: DayExtractor)
    requires HasValues(raw) && k <= n <= |raw.order|
    requires ExtractDays(raw, k, day).Err?
    ensures ExtractDays(raw, n, day) == ExtractDays(raw, k, day)
    decreases n - k
  {
    if k < n {
      ExtractDaysStaysFailed(raw, k, n - 1, day);
    }
  }

  /**
   * `topic_extraction_node` as written. `prompted` lists the dates for which
   * the model was called, in order: never more than the dates with reviews,
   * and all of them when the stage succeeds.
   */
  method ExtractTopics(s: State, configured: bool, llm: Llm, decode: Decoder) returns (r: State, ghost prompted: seq<Date>)
    requires HasValues(s.rawReviews)
    ensures r == Extraction(s, configured, llm, decode)
    ensures prompted <= Prompted(s.rawReviews, |s.rawReviews.order|)
    ensures r.processingStatus == ExtractionComplete ==> prompted == Prompted(s.rawReviews, |s.rawReviews.order|)
  {
    prompted := [];
    if !configured {
      r := Failed(s, ErrorPrefix, NotConfigured, ExtractionFailed);
      return;
    }
    var raw := s.rawReviews;
    ghost var day := ExtractorFor(llm, decode);
    var extracted: Dict<Date, Dict<Topic, int>> := Empty();
    for i := 0 to |raw.order|
      invariant ExtractDays(raw, i, day) == Ok(extracted)
      invariant prompted == Prompted(raw, i)
    {
      PromptedPrefix(raw, i + 1, |raw.order|);
      var date := raw.order[i];
      var daily, prompt := ExtractDay(raw.at[date], llm, decode);
      if prompt != [] {
        prompted := prompted + [date];
      }
      if daily.Err? {
        assert ExtractDays(raw, i + 1, day) == Err(daily.message);
        ExtractDaysStaysFailed(raw, i + 1, |raw.order|, day);
        r := Failed(s, ErrorPrefix, daily.message, ExtractionFailed);
        return;
      }
      extracted := Put(extracted, date, daily.value);
    }
    r := s.(extractedTopics := extracted, currentStep := TopicExtractionCompleted, processingStatus := ExtractionComplete);
  }

  /** The dates prompted among fewer dates are a prefix of those prompted among more. */
  lemma {:induction false} PromptedPrefix(raw: Dict<Date, seq<Review>>, k: nat, n: nat)
    requires HasValues(raw) && k <= n <= |raw.order|
    ensures Prompted(raw, k) <= Prompted(raw, n)
    decreases n - k
  {
    if k < n {
      PromptedPrefix(raw, k, n - 1);
    }
  }
}
