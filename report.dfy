/**
 * agents/review_report.py: the trend table (one series per consolidated topic,
 * one point per date of `daily_frequencies`, dates ascending) and the table
 * behind the CSV file (a `date` column and one column per topic).
 */
module Report {
  import opened Dicts
  import opened AnalysisState

  /** Topic counts per date: `daily_frequencies`. */
  type Daily = Dict<Date, Dict<Topic, int>>

  type Trend = Dict<Topic, TopicTrend>

  // ---------------------------------------------------------------- sorted()

  predicate NonDecreasing(s: seq<Date>) {
    forall i, j :: 0 <= i < j < |s| ==> s[i] <= s[j]
  }

  predicate Ascending(s: seq<Date>) {
    forall i, j :: 0 <= i < j < |s| ==> s[i] < s[j]
  }

  /** `x` placed before the first element of `s` it does not exceed. */
  function Insert(x: Date, s: seq<Date>): seq<Date> {
    if s == [] || x <= s[0] then [x] + s else [s[0]] + Insert(x, s[1..])
  }

  /** Python's `sorted` on day numbers. */
  function Sort(s: seq<Date>): seq<Date> {
    if s == [] then [] else Insert(s[0], Sort(s[1..]))
  }

  lemma {:induction false} InsertMultiset(x: Date, s: seq<Date>)
    ensures multiset(Insert(x, s)) == multiset(s) + multiset{x}
  {
    if s != [] && x > s[0] {
      InsertMultiset(x, s[1..]);
      assert s == [s[0]] + s[1..];
    }
  }

  lemma {:induction false} InsertSorted(x: Date, s: seq<Date>)
    requires NonDecreasing(s)
    ensures NonDecreasing(Insert(x, s))
  {
    if s != [] && x > s[0] {
      var rest := Insert(x, s[1..]);
      InsertSorted(x, s[1..]);
      InsertMultiset(x, s[1..]);
      forall k | 0 <= k < |rest|
        ensures s[0] <= rest[k]
      {
        assert rest[k] in multiset(rest);
        if rest[k] != x {
          assert rest[k] in s[1..];
        }
      }
      assert Insert(x, s) == [s[0]] + rest;
    }
  }

  /** `sorted` returns its input in non-decreasing order. */
  lemma {:induction false} SortSorted(s: seq<Date>)
    ensures NonDecreasing(Sort(s))
    ensures multiset(Sort(s)) == multiset(s)
  {
    if s != [] {
      SortSorted(s[1..]);
      InsertSorted(s[0], Sort(s[1..]));
      InsertMultiset(s[0], Sort(s[1..]));
      assert s == [s[0]] + s[1..];
    }
  }

  lemma {:induction false} InsertAscending(x: Date, s: seq<Date>)
    requires Ascending(s) && x !in s
    ensures Ascending(Insert(x, s))
  {
    if s != [] && x > s[0] {
      var rest := Insert(x, s[1..]);
      InsertAscending(x, s[1..]);
      InsertMultiset(x, s[1..]);
      forall k | 0 <= k < |rest|
        ensures s[0] < rest[k]
      {
        assert rest[k] in multiset(rest);
        if rest[k] != x {
          assert rest[k] in s[1..];
        }
      }
      assert Insert(x, s) == [s[0]] + rest;
    }
  }

  /** Sorting distinct dates, such as the keys of a dictionary, gives them strictly ascending. */
  lemma {:induction false} SortDistinct(s: seq<Date>)
    requires Distinct(s)
    ensures Ascending(Sort(s))
  {
    if s != [] {
      SortDistinct(s[1..]);
      SortSorted(s[1..]);
      assert s[0] !in s[1..];
      assert s[0] !in multiset(Sort(s[1..]));
      InsertAscending(s[0], Sort(s[1..]));
    }
  }

  lemma {:induction false} SortMembers(s: seq<Date>)
    ensures forall i :: 0 <= i < |Sort(s)| ==> Sort(s)[i] in s
  {
    SortSorted(s);
    forall i | 0 <= i < |Sort(s)|
      ensures Sort(s)[i] in s
    {
      assert Sort(s)[i] in multiset(Sort(s));
    }
  }

  // ---------------------------------------------------------- the trend table

  /** `topic_trend`: one point per date of `dates`, the topic's count that day or 0. */
  function TopicSeries(daily: Daily, dates: seq<Date>, topic: Topic): seq<DailyPoint>
    requires forall i :: 0 <= i < |dates| ==> dates[i] in daily.at
  {
    if dates == [] then []
    else
      var date := dates[|dates| - 1];
      TopicSeries(daily, dates[..|dates| - 1], topic) + [DailyPoint(date, Count(daily.at[date], topic))]
  }

  /** `trend_data` after the first `n` consolidated topics. */
  function TrendTable(topics: seq<Topic>, daily: Daily, n: nat): Trend
    requires HasValues(daily) && n <= |topics|
  {
    if n == 0 then Empty()
    else
      var dates := SortKeys(daily);
      Put(TrendTable(topics, daily, n - 1), topics[n - 1], TopicTrend(TopicSeries(daily, dates, topics[n - 1])))
  }

  /** `sorted(daily_frequencies.keys())` */
  function SortKeys(daily: Daily): (dates: seq<Date>)
    requires HasValues(daily)
    ensures forall i :: 0 <= i < |dates| ==> dates[i] in daily.at
  {
    SortMembers(daily.order);
    Sort(daily.order)
  }

  /**
   * `review_report_node`. Building the table cannot raise on well-typed input;
   * the CSV file is written on the side and its outcome is not part of the state.
   */
  function ReviewReport(s: State): (r: State)
    requires HasValues(s.dailyFrequencies)
    ensures HasValues(r.trendAnalysis)
  {
    TrendTableHasValues(s.consolidatedTopics.order, s.dailyFrequencies, |s.consolidatedTopics.order|);
    s.(trendAnalysis := TrendTable(s.consolidatedTopics.order, s.dailyFrequencies, |s.consolidatedTopics.order|),
       currentStep := TrendAnalysisCompleted, processingStatus := Completed)
  }

  /** The dates of a series, in order. */
  function DatesOf(points: seq<DailyPoint>): (dates: seq<Date>)
    ensures |dates| == |points|
    ensures forall i :: 0 <= i < |points| ==> dates[i] == points[i].date
  {
    if points == [] then [] else DatesOf(points[..|points| - 1]) + [points[|points| - 1].date]
  }

  /** A series has one point per date of `dates`, in that order, each holding that day's count of the topic. */
  lemma {:induction false} TopicSeriesSpec(daily: Daily, dates: seq<Date>, topic: Topic)
    requires forall i :: 0 <= i < |dates| ==> dates[i] in daily.at
    ensures var points := TopicSeries(daily, dates, topic);
      && DatesOf(points) == dates
      && forall i :: 0 <= i < |points| ==> points[i].frequency == Count(daily.at[dates[i]], topic)
  {
    if dates != [] {
      TopicSeriesSpec(daily, dates[..|dates| - 1], topic);
    }
  }

  /** The trend table has exactly the given topics as keys, each holding the series of the sorted dates. */
  lemma {:induction false} TrendTableSpec(topics: seq<Topic>, daily: Daily, n: nat)
    requires HasValues(daily) && n <= |topics|
    ensures var trend := TrendTable(topics, daily, n);
      && (forall t :: t in trend.at <==> t in topics[..n])
      && (forall t :: t in trend.at ==> trend.at[t] == TopicTrend(TopicSeries(daily, SortKeys(daily), t)))
  {
    if n > 0 {
      TrendTableSpec(topics, daily, n - 1);
      TakeLast(topics, n);
    }
  }

  /** Every topic the trend table lists has a series. */
  lemma {:induction false} TrendTableHasValues(topics: seq<Topic>, daily: Daily, n: nat)
    requires HasValues(daily) && n <= |topics|
    ensures HasValues(TrendTable(topics, daily, n))
  {
    if n > 0 {
      var prev := TrendTable(topics, daily, n - 1);
      var series := TopicTrend(TopicSeries(daily, SortKeys(daily), topics[n - 1]));
      assert TrendTable(topics, daily, n) == Put(prev, topics[n - 1], series);
      TrendTableHasValues(topics, daily, n - 1);
      PutHasValues(prev, topics[n - 1], series);
    }
  }

  /** With distinct topics the trend table lists them in their order. */
  lemma {:induction false} TrendTableOrder(topics: seq<Topic>, daily: Daily, n: nat)
    requires HasValues(daily) && Distinct(topics) && n <= |topics|
    ensures TrendTable(topics, daily, n).order == topics[..n]
  {
    if n > 0 {
      TrendTableOrder(topics, daily, n - 1);
      TakeLast(topics, n);
      DistinctLast(topics, n);
    }
  }

  /** The series the report gives a topic: one point per date of `daily`, dates strictly ascending, each holding that day's count. */
  predicate SeriesOf(daily: Daily, topic: Topic, points: seq<DailyPoint>) {
    && Ascending(DatesOf(points))
    && multiset(DatesOf(points)) == multiset(daily.order)
    && (forall i :: 0 <= i < |points| ==>
          points[i].date in daily.at && points[i].frequency == Count(daily.at[points[i].date], topic))
  }

  /** The series over the sorted keys of `daily_frequencies` is that series. */
  lemma {:induction false} SortedSeries(daily: Daily, topic: Topic)
    requires HasValues(daily) && Distinct(daily.order)
    ensures SeriesOf(daily, topic, TopicSeries(daily, SortKeys(daily), topic))
  {
    var dates := SortKeys(daily);
    TopicSeriesSpec(daily, dates, topic);
    SortDistinct(daily.order);
    SortSorted(daily.order);
  }

  /**
   * The report stage always succeeds: `trend_analysis` has exactly the keys of
   * `consolidated_topics`, in their order, and every topic's `daily_data` has one
   * point per date of `daily_frequencies`, dates strictly ascending, holding that
   * day's count of the topic or 0. Status "completed", step
   * "trend_analysis_completed", nothing else changes.
   */
  lemma {:induction false} ReviewReportSpec(s: State)
    requires HasValues(s.dailyFrequencies) && Distinct(s.dailyFrequencies.order) && Distinct(s.consolidatedTopics.order)
    ensures var r := ReviewReport(s);
      && r.trendAnalysis.order == s.consolidatedTopics.order
      && (forall t :: t in r.trendAnalysis.at <==> t in s.consolidatedTopics.order)
      && (forall t :: t in r.trendAnalysis.at ==> SeriesOf(s.dailyFrequencies, t, r.trendAnalysis.at[t].dailyData))
      && r.processingStatus.Tag() == "completed"
      && r.currentStep.Label() == "trend_analysis_completed"
      && r == s.(trendAnalysis := r.trendAnalysis, processingStatus := Completed, currentStep := TrendAnalysisCompleted)
  {
    var topics := s.consolidatedTopics.order;
    var daily := s.dailyFrequencies;
    var trend := TrendTable(topics, daily, |topics|);
    assert ReviewReport(s).trendAnalysis == trend;
    TrendTableSpec(topics, daily, |topics|);
    TrendTableOrder(topics, daily, |topics|);
    assert topics[..|topics|] == topics;
    TrendSeries(topics, daily);
  }

  /** Every series of the trend table is the report's series of its topic. */
  lemma {:induction false} TrendSeries(topics: seq<Topic>, daily: Daily)
    requires HasValues(daily) && Distinct(daily.order)
    ensures var trend := TrendTable(topics, daily, |topics|);
      forall t :: t in trend.at ==> SeriesOf(daily, t, trend.at[t].dailyData)
  {
    TrendTableSpec(topics, daily, |topics|);
    forall t
      ensures SeriesOf(daily, t, TopicSeries(daily, SortKeys(daily), t))
    {
      SortedSeries(daily, t);
    }
  }

  // ------------------------------------------------------------- the CSV table

  /** `all_dates.add(date)` for each of `dates`: the set of dates seen, kept as a list without repeats. */
  function AddDates(seen: seq<Date>, dates: seq<Date>): seq<Date> {
    if dates == [] then seen
    else
      var prev := AddDates(seen, dates[..|dates| - 1]);
      var date := dates[|dates| - 1];
      if date in prev then prev else prev + [date]
  }

  /** The dates of the series of the `k`-th topic of `trend`. */
  function SeriesDates(trend: Trend, k: nat): seq<Date>
    requires HasValues(trend) && k < |trend.order|
  {
    DatesOf(trend.at[trend.order[k]].dailyData)
  }

  /** `all_dates` after the series of the first `n` topics (lines 63-67). */
  function AllDates(trend: Trend, n: nat): seq<Date>
    requires HasValues(trend) && n <= |trend.order|
  {
    if n == 0 then [] else AddDates(AllDates(trend, n - 1), SeriesDates(trend, n - 1))
  }

  /** `sorted(all_dates)` (line 69). */
  function CsvDates(trend: Trend): seq<Date>
    requires HasValues(trend)
  {
    Sort(AllDates(trend, |trend.order|))
  }

  /**
   * The search of lines 76-80: the frequency of the first point of `points`
   * dated `date`, or 0 when there is none.
   */
  function FirstFrequency(points: seq<DailyPoint>, date: Date): int {
    if points == [] then 0
    else if points[0].date == date then points[0].frequency
    else FirstFrequency(points[1..], date)
  }

  /** When no point is dated `date` the search gives 0. */
  lemma {:induction false} FirstFrequencyMissing(points: seq<DailyPoint>, date: Date)
    requires forall i :: 0 <= i < |points| ==> points[i].date != date
    ensures FirstFrequency(points, date) == 0
  {
    if points != [] {
      assert points[0].date != date;
      forall i | 0 <= i < |points[1..]|
        ensures points[1..][i].date != date
      {
        assert points[1..][i] == points[i + 1];
      }
      FirstFrequencyMissing(points[1..], date);
    }
  }

  /** When the `i`-th point is the first one dated `date` the search gives its frequency. */
  lemma {:induction false} FirstFrequencyFound(points: seq<DailyPoint>, date: Date, i: nat)
    requires i < |points| && points[i].date == date
    requires forall j :: 0 <= j < i ==> points[j].date != date
    ensures FirstFrequency(points, date) == points[i].frequency
  {
    if i > 0 {
      assert points[0].date != date;
      forall j | 0 <= j < i - 1
        ensures points[1..][j].date != date
      {
        assert points[1..][j] == points[j + 1];
      }
      assert points[1..][i - 1] == points[i];
      FirstFrequencyFound(points[1..], date, i - 1);
    }
  }

  /** `topic_frequencies`: one entry per date (lines 74-81). */
  function CountsFor(points: seq<DailyPoint>, dates: seq<Date>): seq<int> {
    if dates == [] then [] else CountsFor(points, dates[..|dates| - 1]) + [FirstFrequency(points, dates[|dates| - 1])]
  }

  /** A topic's column has one entry per date, each the search's result for that date. */
  lemma {:induction false} CountsForSpec(points: seq<DailyPoint>, dates: seq<Date>)
    ensures |CountsFor(points, dates)| == |dates|
    ensures forall i :: 0 <= i < |dates| ==> CountsFor(points, dates)[i] == FirstFrequency(points, dates[i])
  {
    if dates != [] {
      CountsForSpec(points, dates[..|dates| - 1]);
    }
  }

  /** A column of the table as written: the dates, or one topic's counts. */
  datatype CsvColumn = DateColumn(dates: seq<Date>) | CountColumn(counts: seq<int>)

  /**
   * `csv_data` as written, after the first `n` topics: the date column under
   * `header` first, then one column per topic, all under one key space.
   */
  function CsvDataAsWritten(header: string, trend: Trend, dates: seq<Date>, n: nat): Dict<string, CsvColumn>
    requires HasValues(trend) && n <= |trend.order|
  {
    if n == 0 then Put(Empty(), header, DateColumn(dates))
    else
      var topic := trend.order[n - 1];
      Put(CsvDataAsWritten(header, trend, dates, n - 1), topic, CountColumn(CountsFor(trend.at[topic].dailyData, dates)))
  }

  /** Lines 62-83 as written: the date column is named "date". */
  function CsvAsWritten(trend: Trend): Dict<string, CsvColumn>
    requires HasValues(trend)
  {
    CsvDataAsWritten("date", trend, CsvDates(trend), |trend.order|)
  }

  /** A topic the model names "date" takes the key of the date column: the table as written has no dates. */
  lemma {:induction false} DateTopicReplacesDates(trend: Trend)
    requires HasValues(trend) && "date" in trend.order
    ensures "date" in CsvAsWritten(trend).at && CsvAsWritten(trend).at["date"].CountColumn?
  {
    var i :| 0 <= i < |trend.order| && trend.order[i] == "date";
    HeaderTopicReplacesDates("date", trend, CsvDates(trend), |trend.order|, i);
  }

  /** A topic named like the date column, the `i`-th, takes its key. */
  lemma {:induction false} HeaderTopicReplacesDates(header: string, trend: Trend, dates: seq<Date>, n: nat, i: nat)
    requires HasValues(trend) && i < n <= |trend.order| && trend.order[i] == header
    ensures header in CsvDataAsWritten(header, trend, dates, n).at
    ensures CsvDataAsWritten(header, trend, dates, n).at[header].CountColumn?
  {
    if i < n - 1 {
      HeaderTopicReplacesDates(header, trend, dates, n - 1, i);
    }
  }

  /** The table behind the CSV file: the date column kept apart from the topic columns. */
  datatype CsvTable = CsvTable(dates: seq<Date>, columns: Dict<Topic, seq<int>>)

  /** The topic columns after the first `n` topics. */
  function CsvColumns(trend: Trend, dates: seq<Date>, n: nat): Dict<Topic, seq<int>>
    requires HasValues(trend) && n <= |trend.order|
  {
    if n == 0 then Empty()
    else
      var topic := trend.order[n - 1];
      Put(CsvColumns(trend, dates, n - 1), topic, CountsFor(trend.at[topic].dailyData, dates))
  }

  /** Lines 62-83 with the date column under its own name. */
  function CsvTableOf(trend: Trend): CsvTable
    requires HasValues(trend)
  {
    var dates := CsvDates(trend);
    CsvTable(dates, CsvColumns(trend, dates, |trend.order|))
  }

  /** `all_dates` holds every date it is given once, and nothing else. */
  lemma {:induction false} AddDatesSpec(seen: seq<Date>, dates: seq<Date>)
    requires Distinct(seen)
    ensures Distinct(AddDates(seen, dates))
    ensures forall d :: d in AddDates(seen, dates) <==> d in seen || d in dates
  {
    if dates != [] {
      var front := dates[..|dates| - 1];
      AddDatesSpec(seen, front);
      assert dates == front + [dates[|dates| - 1]];
    }
  }

  /** The dates of the CSV table are each date of some series, once. */
  lemma {:induction false} AllDatesSpec(trend: Trend, n: nat)
    requires HasValues(trend) && n <= |trend.order|
    ensures Distinct(AllDates(trend, n))
    ensures forall d :: d in AllDates(trend, n) <==> exists k :: 0 <= k < n && d in SeriesDates(trend, k)
  {
    if n > 0 {
      AllDatesSpec(trend, n - 1);
      AddDatesSpec(AllDates(trend, n - 1), SeriesDates(trend, n - 1));
    }
  }

  /** The columns are keyed by the topics of the trend table. */
  lemma {:induction false} CsvColumnsKeys(trend: Trend, dates: seq<Date>, n: nat)
    requires HasValues(trend) && n <= |trend.order|
    ensures forall t :: t in CsvColumns(trend, dates, n).at <==> t in trend.order[..n]
  {
    if n > 0 {
      CsvColumnsKeys(trend, dates, n - 1);
      TakeLast(trend.order, n);
    }
  }

  /** Each column holds its topic's counts. */
  lemma {:induction false} CsvColumnsValues(trend: Trend, dates: seq<Date>, n: nat)
    requires HasValues(trend) && n <= |trend.order|
    ensures var columns := CsvColumns(trend, dates, n);
      forall t :: t in columns.at ==> t in trend.at && columns.at[t] == CountsFor(trend.at[t].dailyData, dates)
  {
    if n > 0 {
      CsvColumnsValues(trend, dates, n - 1);
    }
  }

  /** With distinct topics the columns follow the order of the trend table. */
  lemma {:induction false} CsvColumnsOrder(trend: Trend, dates: seq<Date>, n: nat)
    requires HasValues(trend) && Distinct(trend.order) && n <= |trend.order|
    ensures CsvColumns(trend, dates, n).order == trend.order[..n]
  {
    if n > 0 {
      CsvColumnsOrder(trend, dates, n - 1);
      TakeLast(trend.order, n);
      DistinctLast(trend.order, n);
    }
  }

  /** The sorted dates are strictly ascending and are exactly the dates of the series. */
  lemma {:induction false} CsvDatesSpec(trend: Trend)
    requires HasValues(trend)
    ensures Ascending(CsvDates(trend))
    ensures forall d :: d in CsvDates(trend) <==> exists k :: 0 <= k < |trend.order| && d in SeriesDates(trend, k)
  {
    var all := AllDates(trend, |trend.order|);
    AllDatesSpec(trend, |trend.order|);
    SortDistinct(all);
    SortSorted(all);
    forall d
      ensures d in CsvDates(trend) <==> d in all
    {
      assert d in CsvDates(trend) <==> d in multiset(CsvDates(trend));
    }
  }

  /**
   * The corrected table: its dates are strictly ascending and are exactly the
   * dates of the series; it has one column per topic of the trend table, in its
   * order, holding for each date the frequency of the first point of that date
   * in the topic's series, or 0.
   */
  lemma {:induction false} CsvTableSpec(trend: Trend)
    requires HasValues(trend) && Distinct(trend.order)
    ensures var table := CsvTableOf(trend);
      && Ascending(table.dates)
      && (forall d :: d in table.dates <==> exists k :: 0 <= k < |trend.order| && d in SeriesDates(trend, k))
      && table.columns.order == trend.order
      && (forall t :: t in table.columns.at <==> t in trend.order)
      && (forall t :: t in table.columns.at ==>
            var counts := table.columns.at[t];
            && |counts| == |table.dates|
            && forall i :: 0 <= i < |counts| ==> counts[i] == FirstFrequency(trend.at[t].dailyData, table.dates[i]))
  {
    var table := CsvTableOf(trend);
    CsvDatesSpec(trend);
    CsvColumnsKeys(trend, table.dates, |trend.order|);
    CsvColumnsValues(trend, table.dates, |trend.order|);
    CsvColumnsOrder(trend, table.dates, |trend.order|);
    assert trend.order[..|trend.order|] == trend.order;
    forall t | t in table.columns.at {
      CountsForSpec(trend.at[t].dailyData, table.dates);
    }
  }

  /**
   * Without a topic named "date" the table as written lists the date column
   * and then the corrected columns, in order, and holds the same data.
   */
  lemma {:induction false} AsWrittenAgrees(trend: Trend)
    requires HasValues(trend) && "date" !in trend.order
    ensures CsvAsWritten(trend).order == ["date"] + CsvTableOf(trend).columns.order
    ensures AgreesWith("date", CsvAsWritten(trend), CsvTableOf(trend))
  {
    HeaderOrder("date", trend, CsvDates(trend), |trend.order|);
    HeaderColumns("date", trend, CsvDates(trend), |trend.order|);
  }

  /** The table as written holds the dates under `header` and every corrected column under its topic. */
  ghost predicate AgreesWith(header: string, written: Dict<string, CsvColumn>, table: CsvTable) {
    && header in written.at && written.at[header] == DateColumn(table.dates)
    && forall t :: t in table.columns.at ==> t in written.at && written.at[t] == CountColumn(table.columns.at[t])
  }

  lemma {:induction false} HeaderOrder(header: string, trend: Trend, dates: seq<Date>, n: nat)
    requires HasValues(trend) && n <= |trend.order|
    requires header !in trend.order
    ensures CsvDataAsWritten(header, trend, dates, n).order == [header] + CsvColumns(trend, dates, n).order
  {
    if n > 0 {
      HeaderOrder(header, trend, dates, n - 1);
      var topic := trend.order[n - 1];
      var column := CountsFor(trend.at[topic].dailyData, dates);
      assert topic != header;
      PutBehindHead(CsvDataAsWritten(header, trend, dates, n - 1), CsvColumns(trend, dates, n - 1), header, topic, CountColumn(column), column);
    }
  }

  /** Two dictionaries whose key orders differ by one leading key stay so after the same new key goes into both. */
  lemma {:induction false} PutBehindHead<K, V, W>(d: Dict<K, V>, e: Dict<K, W>, head: K, k: K, v: V, w: W)
    requires d.order == [head] + e.order && k != head
    ensures Put(d, k, v).order == [head] + Put(e, k, w).order
  {
    assert k in d.order <==> k in e.order;
    if k !in e.order {
      assert [head] + (e.order + [k]) == ([head] + e.order) + [k];
    }
  }

  lemma {:induction false} HeaderColumns(header: string, trend: Trend, dates: seq<Date>, n: nat)
    requires HasValues(trend) && n <= |trend.order|
    requires header !in trend.order
    ensures AgreesWith(header, CsvDataAsWritten(header, trend, dates, n), CsvTable(dates, CsvColumns(trend, dates, n)))
  {
    if n > 0 {
      HeaderColumns(header, trend, dates, n - 1);
      var topic := trend.order[n - 1];
      var column := CountsFor(trend.at[topic].dailyData, dates);
      assert topic != header;
      PutAgrees(header, CsvDataAsWritten(header, trend, dates, n - 1), CsvTable(dates, CsvColumns(trend, dates, n - 1)), topic, column);
    }
  }

  lemma {:induction false} PutAgrees(header: string, written: Dict<string, CsvColumn>, table: CsvTable, topic: Topic, column: seq<int>)
    requires AgreesWith(header, written, table) && topic != header
    ensures AgreesWith(header, Put(written, topic, CountColumn(column)), CsvTable(table.dates, Put(table.columns, topic, column)))
  {
  }

  /** In a series with ascending dates the search finds each point's own frequency. */
  lemma {:induction false} FirstFrequencyAt(points: seq<DailyPoint>, i: nat)
    requires Ascending(DatesOf(points)) && i < |points|
    ensures FirstFrequency(points, points[i].date) == points[i].frequency
  {
    forall j | 0 <= j < i
      ensures points[j].date != points[i].date
    {
      assert DatesOf(points)[j] < DatesOf(points)[i];
    }
    FirstFrequencyFound(points, points[i].date, i);
  }

  /** A series the report builds has a point for each date of `daily_frequencies`, and the search finds that day's count. */
  lemma {:induction false} SeriesFrequency(daily: Daily, topic: Topic, points: seq<DailyPoint>, date: Date)
    requires HasValues(daily) && SeriesOf(daily, topic, points) && date in daily.order
    ensures date in daily.at && FirstFrequency(points, date) == Count(daily.at[date], topic)
  {
    assert date in multiset(daily.order);
    assert date in multiset(DatesOf(points));
    var j :| 0 <= j < |points| && DatesOf(points)[j] == date;
    FirstFrequencyAt(points, j);
  }

  /** The dates of a series the report builds are the dates of `daily_frequencies`. */
  lemma {:induction false} SeriesDatesOf(daily: Daily, topic: Topic, points: seq<DailyPoint>)
    requires SeriesOf(daily, topic, points)
    ensures forall d :: d in DatesOf(points) <==> d in daily.order
  {
    forall d
      ensures d in DatesOf(points) <==> d in multiset(daily.order)
    {
      assert d in DatesOf(points) <==> d in multiset(DatesOf(points));
    }
  }

  /**
   * The CSV table of a report holds the same data as `trend_analysis`: when
   * there is at least one topic, its dates are those of `daily_frequencies`, and
   * every topic column holds that day's count of the topic.
   */
  lemma {:induction false} CsvOfReport(s: State)
    requires HasValues(s.dailyFrequencies) && Distinct(s.dailyFrequencies.order) && Distinct(s.consolidatedTopics.order)
    requires s.consolidatedTopics.order != []
    ensures var table := CsvTableOf(ReviewReport(s).trendAnalysis);
      var daily := s.dailyFrequencies;
      && (forall d :: d in table.dates <==> d in daily.order)
      && table.columns.order == s.consolidatedTopics.order
      && (forall t :: t in table.columns.at ==>
            var counts := table.columns.at[t];
            && |counts| == |table.dates|
            && forall i :: 0 <= i < |counts| ==>
                 table.dates[i] in daily.at && counts[i] == Count(daily.at[table.dates[i]], t))
  {
    var daily := s.dailyFrequencies;
    var trend := ReviewReport(s).trendAnalysis;
    var table := CsvTableOf(trend);
    ReviewReportSpec(s);
    CsvTableSpec(trend);
    forall k | 0 <= k < |trend.order|
      ensures forall d :: d in SeriesDates(trend, k) <==> d in daily.order
    {
      SeriesDatesOf(daily, trend.order[k], trend.at[trend.order[k]].dailyData);
    }
    forall d | d in daily.order
      ensures d in table.dates
    {
      assert d in SeriesDates(trend, 0);
    }
    forall t, i | t in table.columns.at && 0 <= i < |table.dates|
      ensures table.dates[i] in daily.at && table.columns.at[t][i] == Count(daily.at[table.dates[i]], t)
    {
      assert table.dates[i] in table.dates;
      SeriesFrequency(daily, t, trend.at[t].dailyData, table.dates[i]);
    }
  }

  /** The loops of lines 16-31. */
  method BuildTrendData(s: State) returns (trend: Trend)
    requires HasValues(s.dailyFrequencies)
    ensures trend == TrendTable(s.consolidatedTopics.order, s.dailyFrequencies, |s.consolidatedTopics.order|)
  {
    var topics := s.consolidatedTopics.order;
    var daily := s.dailyFrequencies;
    trend := Empty();
    for n := 0 to |topics|
      invariant trend == TrendTable(topics, daily, n)
    {
      var topic := topics[n];
      var topicTrend: seq<DailyPoint> := [];
      var dates := SortKeys(daily);
      for i := 0 to |dates|
        invariant topicTrend == TopicSeries(daily, dates[..i], topic)
      {
        assert dates[..i + 1][..i] == dates[..i];
        topicTrend := topicTrend + [DailyPoint(dates[i], Count(daily.at[dates[i]], topic))];
      }
      assert dates[..|dates|] == dates;
      trend := Put(trend, topic, TopicTrend(topicTrend));
    }
  }

  /** The search of lines 76-80, stopping at the first point of the date. */
  method FindFrequency(points: seq<DailyPoint>, date: Date) returns (freq: int)
    ensures freq == FirstFrequency(points, date)
  {
    for i := 0 to |points|
      invariant forall j :: 0 <= j < i ==> points[j].date != date
    {
      if points[i].date == date {
        FirstFrequencyFound(points, date, i);
        return points[i].frequency;
      }
    }
    FirstFrequencyMissing(points, date);
    return 0;
  }

  /** Lines 63-67: every date of every series, once. */
  method CollectDates(trend: Trend) returns (all: seq<Date>)
    requires HasValues(trend)
    ensures all == AllDates(trend, |trend.order|)
  {
    all := [];
    for n := 0 to |trend.order|
      invariant all == AllDates(trend, n)
    {
      var points := trend.at[trend.order[n]].dailyData;
      var dates := SeriesDates(trend, n);
      var seen := all;
      for i := 0 to |points|
        invariant all == AddDates(seen, dates[..i])
      {
        assert dates[..i + 1][..i] == dates[..i];
        if points[i].date !in all {
          all := all + [points[i].date];
        }
      }
      assert dates[..|points|] == dates;
    }
  }

  /** Lines 74-81: one topic's counts, one per date. */
  method TopicFrequencies(points: seq<DailyPoint>, dates: seq<Date>) returns (counts: seq<int>)
    ensures counts == CountsFor(points, dates)
  {
    counts := [];
    for i := 0 to |dates|
      invariant counts == CountsFor(points, dates[..i])
    {
      assert dates[..i + 1][..i] == dates[..i];
      var freq := FindFrequency(points, dates[i]);
      counts := counts + [freq];
    }
    assert dates[..|dates|] == dates;
  }

  /**
   * Lines 62-83 as written: `csv_data`, which holds the date column and then
   * the corrected table's columns unless a topic is named "date".
   */
  method BuildCsvTable(trend: Trend) returns (csv: Dict<string, CsvColumn>)
    requires HasValues(trend)
    ensures csv == CsvAsWritten(trend)
    ensures "date" !in trend.order ==>
      csv.order == ["date"] + CsvTableOf(trend).columns.order && AgreesWith("date", csv, CsvTableOf(trend))
  {
    var all := CollectDates(trend);
    var dates := Sort(all);
    csv := Empty();
    csv := Put(csv, "date", DateColumn(dates));
    for n := 0 to |trend.order|
      invariant csv == CsvDataAsWritten("date", trend, dates, n)
    {
      var counts := TopicFrequencies(trend.at[trend.order[n]].dailyData, dates);
      csv := Put(csv, trend.order[n], CountColumn(counts));
    }
    if "date" !in trend.order {
      AsWrittenAgrees(trend);
    }
  }

  /**
   * `review_report_node` as written: the new state, and the `csv_data` it hands
   * to the CSV writer.
   */
  method GenerateReport(s: State) returns (r: State, csv: Dict<string, CsvColumn>)
    requires HasValues(s.dailyFrequencies)
    ensures r == ReviewReport(s)
    ensures csv == CsvAsWritten(r.trendAnalysis)
  {
    var trend := BuildTrendData(s);
    TrendTableHasValues(s.consolidatedTopics.order, s.dailyFrequencies, |s.consolidatedTopics.order|);
    csv := BuildCsvTable(trend);
    r := s.(trendAnalysis := trend, currentStep := TrendAnalysisCompleted, processingStatus := Completed);
  }
}
