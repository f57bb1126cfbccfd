/**
 * agents/data_ingestion.py: fetch the reviews of every day from thirty days
 * before the target date up to the target date, one call per day in
 * ascending order. The stage is all or nothing: if any step raises, none of
 * the days fetched so far reach the returned state.
 */
module Ingestion {
  import opened Wrappers
  import opened Dicts
  import opened AnalysisState
  import opened Scraper

  const ErrorPrefix := "Ingestion error: "

  /** The window starts this many days before the target date. */
  const LookBack := 30

  /** A day is its proleptic Gregorian ordinal, `date.toordinal()`: 0001-01-01 is day 1. */
  const MinDay := 1

  /** 9999-12-31, the last day a `datetime` can hold. */
  const MaxDay := 3652059

  /** A day `datetime` can represent. */
  type CalendarDay = d: Date | MinDay <= d <= MaxDay witness MinDay

  /** `strptime(target_date, '%Y-%m-%d')`: a representable day, or the exception it raised. */
  type DateParser = string -> Result<CalendarDay>

  /** `str(OverflowError)` for a `datetime` moved outside years 1 to 9999. */
  const OutOfRange := "date value out of range"

  /** The Play-Store client: package name and day in, fetched reviews out, or the exception it raised. */
  type Fetch = (string, Date) -> Result<seq<PlayReview>>

  /** One day's reviews from the review source, or the exception it raised: `ScrapeReviewsForDate` for one app. */
  type DaySource = Date -> Result<seq<Review>>

  /** The scraper bound to one app URL. */
  function SourceFor(appUrl: string, fetch: Fetch): (scrape: DaySource)
    ensures forall d :: scrape(d) == ScrapeReviewsForDate(appUrl, d, fetch)
  {
    d => ScrapeReviewsForDate(appUrl, d, fetch)
  }

  /** The reviews of the days from `start` up to, not including, `end`, fetched in ascending order; the first failure aborts. */
  function CollectWindow(scrape: DaySource, start: Date, end: Date): Result<Dict<Date, seq<Review>>>
    decreases end - start
  {
    if end <= start then Ok(Empty())
    else
      match CollectWindow(scrape, start, end - 1)
      case Err(m) => Err(m)
      case Ok(raw) =>
        match scrape(end - 1)
        case Err(m) => Err(m)
        case Ok(reviews) => Ok(Put(raw, end - 1, reviews))
  }

  /**
   * The loop of lines 19-33 from `start` to `target`: the window, except that
   * after the fetch of 9999-12-31 the step to the next day raises.
   */
  function FetchDays(scrape: DaySource, start: Date, target: CalendarDay): Result<Dict<Date, seq<Review>>> {
    match CollectWindow(scrape, start, target + 1)
    case Err(m) => Err(m)
    case Ok(raw) => if target == MaxDay then Err(OutOfRange) else Ok(raw)
  }

  /** `data_ingestion_node`; `parseDate` is `strptime(target_date, '%Y-%m-%d')`. */
  function Ingestion(s: State, parseDate: DateParser, fetch: Fetch): State {
    match parseDate(s.targetDate)
    case Err(m) => Failed(s, ErrorPrefix, m, IngestionFailed)
    case Ok(target) =>
      // `target_date - timedelta(days=30)` raises before 0001-01-01
      if target - LookBack < MinDay then Failed(s, ErrorPrefix, OutOfRange, IngestionFailed)
      else
        match FetchDays(SourceFor(s.appUrl, fetch), target - LookBack, target)
        case Err(m) => Failed(s, ErrorPrefix, m, IngestionFailed)
        case Ok(raw) => s.(rawReviews := raw, currentStep := DataIngestionCompleted, processingStatus := IngestionComplete)
  }

  /** The window succeeds exactly when every day's fetch does. */
  lemma {:induction false} CollectWindowOk(scrape: DaySource, start: Date, end: Date)
    ensures CollectWindow(scrape, start, end).Ok? <==>
            forall d :: start <= d < end ==> scrape(d).Ok?
    decreases end - start
  {
    if start < end {
      CollectWindowOk(scrape, start, end - 1);
    }
  }

  /**
   * A complete window lists the days `start`, `start + 1`, ... in order, a
   * day without reviews included, and holds each day's own reviews.
   */
  lemma CollectWindowContents(scrape: DaySource, start: Date, end: Date)
    requires start <= end
    requires CollectWindow(scrape, start, end).Ok?
    ensures var raw := CollectWindow(scrape, start, end).value;
      && WellFormed(raw)
      && |raw.order| == end - start
      && (forall i :: 0 <= i < end - start ==> raw.order[i] == start + i)
      && (forall d :: d in raw.at ==> start <= d < end)
      && (forall d :: start <= d < end ==>
            && scrape(d).Ok?
            && d in raw.at
            && raw.at[d] == scrape(d).value)
  {
    var raw := CollectWindow(scrape, start, end).value;
    CollectWindowOrder(scrape, start, end);
    CollectWindowValues(scrape, start, end);
    CollectWindowKeys(scrape, start, end);
    assert Distinct(raw.order) by {
      forall i, j | 0 <= i < j < |raw.order|
        ensures raw.order[i] != raw.order[j]
      {
      }
    }
    forall d | d in raw.at
      ensures d in raw.order
    {
      assert raw.order[d - start] == d;
    }
  }

  /** A complete window lists the days `start`, `start + 1`, ... up to `end`, in order. */
  lemma {:induction false} CollectWindowOrder(scrape: DaySource, start: Date, end: Date)
    requires start <= end
    requires CollectWindow(scrape, start, end).Ok?
    ensures |CollectWindow(scrape, start, end).value.order| == end - start
    ensures forall i :: 0 <= i < end - start ==> CollectWindow(scrape, start, end).value.order[i] == start + i
    decreases end - start
  {
    if start < end {
      CollectWindowOrder(scrape, start, end - 1);
      var prev := CollectWindow(scrape, start, end - 1).value;
      assert end - 1 !in prev.order by {
        forall i | 0 <= i < |prev.order|
          ensures prev.order[i] != end - 1
        {
        }
      }
    }
  }

  /** A complete window holds every day's own reviews, each fetch having succeeded. */
  lemma {:induction false} CollectWindowValues(scrape: DaySource, start: Date, end: Date)
    requires CollectWindow(scrape, start, end).Ok?
    ensures forall d :: start <= d < end ==>
      && scrape(d).Ok?
      && d in CollectWindow(scrape, start, end).value.at
      && CollectWindow(scrape, start, end).value.at[d] == scrape(d).value
    decreases end - start
  {
    if start < end {
      CollectWindowValues(scrape, start, end - 1);
    }
  }

  /** A complete window holds reviews for the days from `start` to `end` only. */
  lemma {:induction false} CollectWindowKeys(scrape: DaySource, start: Date, end: Date)
    requires CollectWindow(scrape, start, end).Ok?
    ensures forall d :: d in CollectWindow(scrape, start, end).value.at ==> start <= d < end
    decreases end - start
  {
    if start < end {
      CollectWindowKeys(scrape, start, end - 1);
    }
  }

  /** Once the window has failed, fetching more days keeps the same failure. */
  lemma {:induction false} CollectWindowStaysFailed(scrape: DaySource, start: Date, end: Date, later: Date)
    requires CollectWindow(scrape, start, end).Err?
    requires end <= later
    ensures CollectWindow(scrape, start, later) == CollectWindow(scrape, start, end)
    decreases later - end
  {
    if end < later {
      CollectWindowStaysFailed(scrape, start, end, later - 1);
    }
  }

  /**
   * The loop of `data_ingestion_node`: fetch the days `start` to `target` in
   * ascending order, stopping at the first failure or when the step past
   * 9999-12-31 raises. `days` records the day of every call made to the review
   * source, in order.
   */
  method FetchWindow(scrape: DaySource, start: CalendarDay, target: CalendarDay)
    returns (res: Result<Dict<Date, seq<Review>>>, ghost days: seq<Date>)
    requires start <= target
    ensures res == FetchDays(scrape, start, target)
    ensures target == MaxDay && CollectWindow(scrape, start, target + 1).Ok? ==> res == Err(OutOfRange)
    ensures 1 <= |days| <= target + 1 - start
    ensures forall i :: 0 <= i < |days| ==> days[i] == start + i
    ensures forall d :: start <= d < start + |days| - 1 ==> scrape(d).Ok?
    ensures res.Ok? <==> |days| == target + 1 - start && scrape(target).Ok? && target < MaxDay
  {
    var raw: Dict<Date, seq<Review>> := Empty();
    var current := start;
    days := [];
    while current <= target
      invariant start <= current <= target + 1
      invariant current <= MaxDay
      invariant CollectWindow(scrape, start, current) == Ok(raw)
      invariant |days| == current - start
      invariant forall i :: 0 <= i < |days| ==> days[i] == start + i
    {
      CollectWindowOk(scrape, start, current);
      days := days + [current];
      var daily := scrape(current);
      if daily.Err? {
        assert CollectWindow(scrape, start, current + 1) == Err(daily.message);
        CollectWindowStaysFailed(scrape, start, current + 1, target + 1);
        return Err(daily.message), days;
      }
      raw := Put(raw, current, daily.value);
      if current == MaxDay {
        // `current_date += timedelta(days=1)` past 9999-12-31
        CollectWindowOk(scrape, start, target + 1);
        return Err(OutOfRange), days;
      }
      current := current + 1;
    }
    CollectWindowOk(scrape, start, target + 1);
    res := Ok(raw);
  }

  /**
   * `data_ingestion_node` as written: parse the target date, fetch the window,
   * store it or record the failure. `days` lists the days the review source was
   * asked for, in order.
   */
  method IngestData(s: State, parseDate: DateParser, fetch: Fetch) returns (r: State, ghost days: seq<Date>)
    ensures r == Ingestion(s, parseDate, fetch)
    ensures parseDate(s.targetDate).Err? ==> days == []
    ensures parseDate(s.targetDate).Ok? && parseDate(s.targetDate).value - LookBack < MinDay ==> days == []
    ensures parseDate(s.targetDate).Ok? && parseDate(s.targetDate).value - LookBack >= MinDay ==>
      var start := parseDate(s.targetDate).value - LookBack;
      && 1 <= |days| <= LookBack + 1
      && (forall i :: 0 <= i < |days| ==> days[i] == start + i)
      && (forall d :: start <= d < start + |days| - 1 ==> ScrapeReviewsForDate(s.appUrl, d, fetch).Ok?)
      && (r.processingStatus == IngestionComplete <==>
            && |days| == LookBack + 1
            && ScrapeReviewsForDate(s.appUrl, start + LookBack, fetch).Ok?
            && start + LookBack < MaxDay)
  {
    var parsed := parseDate(s.targetDate);
    if parsed.Err? {
      r := Failed(s, ErrorPrefix, parsed.message, IngestionFailed);
      days := [];
    } else if parsed.value - LookBack < MinDay {
      r := Failed(s, ErrorPrefix, OutOfRange, IngestionFailed);
      days := [];
    } else {
      var target := parsed.value;
      var window;
      window, days := FetchWindow(SourceFor(s.appUrl, fetch), target - LookBack, target);
      if window.Err? {
        r := Failed(s, ErrorPrefix, window.message, IngestionFailed);
      } else {
        r := s.(rawReviews := window.value, currentStep := DataIngestionCompleted, processingStatus := IngestionComplete);
      }
    }
  }

  /**
   * The target date parses, the whole window and the day after it lie within
   * years 1 to 9999, and the review source answers for every day of the window.
   */
  ghost predicate WindowAvailable(s: State, parseDate: DateParser, fetch: Fetch) {
    && parseDate(s.targetDate).Ok?
    && MinDay <= parseDate(s.targetDate).value - LookBack
    && parseDate(s.targetDate).value < MaxDay
    && forall d :: parseDate(s.targetDate).value - LookBack <= d <= parseDate(s.targetDate).value ==>
         ScrapeReviewsForDate(s.appUrl, d, fetch).Ok?
  }

  /**
   * When the window is available the stage stores the 31 days from target - 30
   * to target, ascending, each with its own reviews, reports
   * "ingestion_complete", and changes nothing else.
   */
  lemma IngestionSucceeds(s: State, parseDate: DateParser, fetch: Fetch)
    requires WindowAvailable(s, parseDate, fetch)
    ensures var r := Ingestion(s, parseDate, fetch);
      var target := parseDate(s.targetDate).value;
      && |r.rawReviews.order| == LookBack + 1
      && (forall i :: 0 <= i <= LookBack ==> r.rawReviews.order[i] == target - LookBack + i)
      && (forall d :: target - LookBack <= d <= target ==>
            d in r.rawReviews.at && r.rawReviews.at[d] == ScrapeReviewsForDate(s.appUrl, d, fetch).value)
      && (forall d :: d in r.rawReviews.at ==> target - LookBack <= d <= target)
      && r.processingStatus.Tag() == "ingestion_complete"
      && r.currentStep.Label() == "data_ingestion_completed"
      && r == s.(rawReviews := r.rawReviews, processingStatus := IngestionComplete, currentStep := DataIngestionCompleted)
  {
    var target := parseDate(s.targetDate).value;
    var scrape := SourceFor(s.appUrl, fetch);
    CollectWindowOk(scrape, target - LookBack, target + 1);
    var raw := CollectWindow(scrape, target - LookBack, target + 1).value;
    assert Ingestion(s, parseDate, fetch) == s.(rawReviews := raw, currentStep := DataIngestionCompleted, processingStatus := IngestionComplete);
    CollectWindowContents(scrape, target - LookBack, target + 1);
  }

  /**
   * Otherwise (the target date does not parse, the window leaves years 1 to
   * 9999, or some day's fetch raises) the stage appends one "Ingestion error: "
   * entry, reports "ingestion_failed" and keeps the input's `raw_reviews`, so no
   * partial window escapes.
   */
  lemma IngestionFails(s: State, parseDate: DateParser, fetch: Fetch)
    requires !WindowAvailable(s, parseDate, fetch)
    ensures var r := Ingestion(s, parseDate, fetch);
      var parsed := parseDate(s.targetDate);
      && RecordsFailure(s, r, ErrorPrefix, IngestionFailed)
      && r.processingStatus.Tag() == "ingestion_failed"
      && r.rawReviews == s.rawReviews
      && (parsed.Err? ==> r.errors == s.errors + [ErrorPrefix + parsed.message])
      && (parsed.Ok? && parsed.value - LookBack < MinDay ==> r.errors == s.errors + [ErrorPrefix + OutOfRange])
      && (parsed.Ok? && parsed.value == MaxDay &&
          (forall d :: parsed.value - LookBack <= d <= parsed.value ==> ScrapeReviewsForDate(s.appUrl, d, fetch).Ok?) ==>
            r.errors == s.errors + [ErrorPrefix + OutOfRange])
  {
    match parseDate(s.targetDate) {
      case Err(m) =>
        FailedRecordsFailure(s, ErrorPrefix, m, IngestionFailed);
      case Ok(target) =>
        if target - LookBack < MinDay {
          FailedRecordsFailure(s, ErrorPrefix, OutOfRange, IngestionFailed);
        } else {
          var scrape := SourceFor(s.appUrl, fetch);
          CollectWindowOk(scrape, target - LookBack, target + 1);
          FailedRecordsFailure(s, ErrorPrefix, FetchDays(scrape, target - LookBack, target).message, IngestionFailed);
        }
    }
  }
}
