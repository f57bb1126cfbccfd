# Review trend analysis pipeline, modelled in Dafny

The Review_Trend_Analyser runs one analysis request through four stages that
share a state record:

1. **Ingestion** fetches the Play-Store reviews of each of the 31 days from
   `target_date - 30` to `target_date`.
2. **Topic extraction** asks a language model for each day's topics and their
   frequencies.
3. **Topic consolidation** sums the topics over the window and asks the model
   to merge similar topics. It re-labels every day's counts through the
   returned `topic_mapping`. When the model returns no consolidated topics, it
   falls back to the identity mapping.
4. **Report** builds one dense, date-sorted frequency series per consolidated
   topic, plus the table behind the CSV file (a date column and one column per
   topic).

A stage either fills its own fields and sets its success status, or appends
one error and sets its failure status.

The model follows the source's own form:

- Each imperative stage is a **specification function** on the state record
  (`Ingestion.Ingestion`, `Extraction.Extraction`,
  `Consolidation.Consolidation`, `Report.ReviewReport`).
- Beside it is a **method with the source's loops**, proved equal to that
  function (`IngestData`, `ExtractTopics`, `ConsolidateTopics`,
  `GenerateReport`).
- **Lemmas** state what the source promises about the function.
- The review filter of the scraper and the workflow wiring are pure functions.

Python dictionaries keep insertion order, so a dictionary is a `Dicts.Dict`:
its key order as a sequence, plus a map. Dates are day numbers (`date.toordinal()`): formatting a
day as `%Y-%m-%d` preserves order, so sorting date strings is sorting day
numbers.

The code outside the model becomes parameters:

- the language model: `string -> Result<string>`, given the variable part of the prompt;
- `json.loads` plus the typed reading of its result: a decoder function per stage;
- the Play-Store client: `(package, day) -> Result<reviews>`;
- `strptime`: `string -> Result<Date>`;
- `azure_config.is_configured()`: a boolean.

Files:

- `wrappers.dfy`: `Option` and `Result`.
- `dicts.dfy`: the insertion-ordered dictionary, `d[k] = v`, the `defaultdict(int)` increment, the `defaultdict` regrouping loop, and mapping a function over the values.
- `text.dfy`: `strip`, `join`, `split`, `str(int)`.
- `model_reply.dfy`: the code-fence cleaning shared by extraction and consolidation.
- `state.dfy`: the state record, the status and step tags, and the failure update.
- `scraper.dfy`: `scrape_reviews_for_date`.
- `ingestion.dfy`, `extraction.dfy`, `consolidation.dfy`, `report.dfy`: the four stages.
- `workflow.dfy`: the linear graph.

Where the design description and the code differ, the model follows the code:

- **Later stages still run after a failure.** Every edge of the graph is
  unconditional, so a failed stage does not stop the later ones. In the model
  the report stage always ends the run with status "completed"
  (`Workflow.PipelineCompletes`). This rests on two simplifications listed
  under "Left out": dictionary values of unexpected JSON types are outside the
  model, and the `except` branch of the report node is not modelled. The code
  can reach that branch. For example, the consolidation reply
  `{"consolidated_topics": ["a"], "topic_mapping": {}}` makes `.keys()` raise in
  the report node, which then records "Analysis error: 'list' object has no
  attribute 'keys'" and ends with status "analysis_failed".
- **A failed ingestion drops the partial window.** The state keeps the
  `raw_reviews` it came in with.
- **Ingestion fails at the edges of the calendar.** A target before
  0001-01-31 makes `target_date - timedelta(days=30)` raise before any fetch.
  The target 9999-12-31 makes the step past the last day raise after the 31st
  fetch. Both record "Ingestion error: date value out of range".
- **Extraction is not fully isolated per date.** Only a `JSONDecodeError`
  gives a day `{}`. A reply that is JSON but not an object, or a topic whose
  value is not an object, fails the whole stage.
- **A missing key in the consolidation reply fails the stage.** A reply that
  parses but lacks `topic_mapping` or `consolidated_topics` raises a
  `KeyError` where the code indexes that key. A reply that parses to JSON that
  is not an object (a list, a string, a number, `null`) raises a `TypeError` at
  the first lookup.
- **Re-labelled counts match the totals only on the fallback path.** When the
  model's own consolidation is used, `consolidated_topics` is whatever the
  model returned, with no relation to the counts. So the counts summed over
  the dates equal the consolidated totals only on the fallback path.

## Model

| member | source | states |
|---|---|---|
| AnalysisState.Initial | app.py:73-86 | the run starts with every collection empty, status "started", step "init" and no errors |
| AnalysisState.FailedRecordsFailure | agents/data_ingestion.py:42-47 | a stage's `except` block keeps the old errors, appends exactly one entry starting with the stage's prefix, sets the failure status and changes nothing else |
| Text.Strip | agents/topic_extraction.py:81 | `str.strip()` leaves no whitespace at either end |
| Text.SplitJoin | agents/topic_extraction.py:72 | joining lines free of the separator with it and splitting again gives the lines back |
| ModelReply.StripCodeFence | agents/topic_consolidation.py:83-93 | the cleaned reply is trimmed at both ends |
| ModelReply.JsonFenceRoundTrip | agents/topic_consolidation.py:83-87 | a payload inside a "```json" fence, with any whitespace around the markers and the reply, comes out unchanged |
| ModelReply.PlainFenceRoundTrip | agents/topic_consolidation.py:88-91 | a JSON object or array inside a bare "```" fence comes out unchanged |
| ModelReply.UnfencedReply | agents/topic_extraction.py:81-91 | a reply without an opening fence is only trimmed |
| Scraper.FindIdSpec | utils/scraper_service.py:12 | the search finds the first position, at or after where it starts, at which "id=" occurs, and none when "id=" does not occur there |
| Scraper.LastPieceSpec | utils/scraper_service.py:12 | `split("id=")[-1]` is a suffix of the URL free of "id=" and preceded by "id=" when the URL has one |
| Scraper.PackageNameSpec | utils/scraper_service.py:12 | with "id=" in the URL the package name is the text after its last occurrence; without, the URL unchanged |
| Scraper.ReviewsForDateSpec | utils/scraper_service.py:22-33 | every kept record is dated the requested day, and no more records are kept than were fetched |
| Scraper.ReviewsForDateAppend | utils/scraper_service.py:23-33 | filtering keeps the fetched order (it distributes over concatenation) |
| Scraper.ReviewsForDateMembers | utils/scraper_service.py:23-33 | a record is kept if and only if it is the stored form (the fields of lines 24-30, renamed) of a fetched review of that day |
| Scraper.ScrapeReviewsForDateSpec | utils/scraper_service.py:6-35 | succeeds exactly when the fetch for the package name does, then returns that fetch filtered to the requested day (only records of that day); on failure it passes the fetch's message on |
| Ingestion.CollectWindowOk | agents/data_ingestion.py:21-31 | the window is collected exactly when every day's fetch succeeds |
| Ingestion.CollectWindowContents | agents/data_ingestion.py:18-31 | a collected window lists the days start, start+1, ... in order, with no gaps or repeats; each day holds its own reviews, an empty list included |
| Ingestion.CollectWindowStaysFailed | agents/data_ingestion.py:21-47 | after the first failing day, further days change nothing: the stage's result is that failure |
| Ingestion.FetchWindow | agents/data_ingestion.py:19-33 | the while loop equals the window function, except that after fetching 9999-12-31 the step to the next day raises "date value out of range"; the days it asks for are start, start+1, ... ascending, one call each, every call but the last succeeded, and it succeeds exactly when it asks for all 31, the last fetch succeeds and the target is before 9999-12-31 |
| Ingestion.IngestData | agents/data_ingestion.py:6-47 | the node as written equals the stage function; the source is asked for at most 31 days, ascending, and for none when the date does not parse or the window would start before 0001-01-01 |
| Ingestion.IngestionSucceeds | agents/data_ingestion.py:15-40 | when the date parses, the window and the day after it lie within years 1 to 9999, and every fetch succeeds: 31 keys, target-30 to target ascending, each with that day's reviews; status "ingestion_complete", step "data_ingestion_completed", nothing else changed |
| Ingestion.IngestionFails | agents/data_ingestion.py:15-47 | otherwise one "Ingestion error: " entry, status "ingestion_failed", and the input's `raw_reviews` kept (no partial window); the entry carries the parse error, or "date value out of range" when the window starts before 0001-01-01 or ends on 9999-12-31 with every fetch succeeding |
| Extraction.ReviewLines | agents/topic_extraction.py:64-66 | one line per review, in order, each `Rating: <rating or N/A> - <content or "">` |
| Extraction.PromptLines | agents/topic_extraction.py:64-72 | splitting the joined prompt text at line breaks gives back one line per review |
| Extraction.FrequenciesSpec | agents/topic_extraction.py:95-97 | the projection succeeds exactly when every topic's value is an object; it keeps every topic in order with its `frequency` or 0, dropping keywords and samples |
| Extraction.ProjectFrequencies | agents/topic_extraction.py:95-97 | the loop building `daily_topics` equals the projection |
| Extraction.FrequenciesStaysFailed | agents/topic_extraction.py:96-97 | the first non-object topic value decides the failure |
| Extraction.BuildReviewsText | agents/topic_extraction.py:64-72 | the loop building `reviews_text` equals the prompt's review part |
| Extraction.ExtractDay | agents/topic_extraction.py:60-104 | one day as written equals `DayTopics`; the model is prompted once for a day with reviews and not at all for a day without |
| Extraction.ExtractDaysOk | agents/topic_extraction.py:59-104 | the date loop gets through exactly when no day raises |
| Extraction.ExtractDaysContents | agents/topic_extraction.py:57-104 | the dates come out in `raw_reviews` order, each with its own day's topics |
| Extraction.ExtractDaysStaysFailed | agents/topic_extraction.py:59-120 | the first day that raises decides the stage's failure |
| Extraction.ExtractTopics | agents/topic_extraction.py:7-120 | the node as written equals the stage function; the dates prompted are a prefix of the dates with reviews, and all of them when the stage succeeds |
| Extraction.PromptedPrefix | agents/topic_extraction.py:59-74 | the dates prompted for a shorter run are a prefix of those of a longer one |
| Extraction.ExtractionSucceeds | agents/topic_extraction.py:57-113 | configured and no day raising: same dates in the same order as `raw_reviews`, each with its day's topics and `{}` for an empty day; status "extraction_complete", step "topic_extraction_completed", nothing else changed |
| Extraction.ExtractionFails | agents/topic_extraction.py:14-120 | otherwise one "Extraction error: " entry, status "extraction_failed", `extracted_topics` untouched; when not configured, the entry names the missing settings |
| Dicts.RegroupCount | agents/topic_consolidation.py:110-121 | the `defaultdict` loop adds to each label exactly the counts of the topics that map to it |
| Dicts.RegroupTotal | agents/topic_consolidation.py:110-121 | the loop adds the day's whole total to the accumulator |
| Dicts.RegroupUnchanged | agents/topic_consolidation.py:139-145 | a mapping that fixes every topic of a day rebuilds the day key by key, in order |
| Consolidation.RemapUnchanged | agents/topic_consolidation.py:139-145 | re-labelling a well-formed day through a mapping that fixes its topics gives the day back |
| Consolidation.RemapDayTotal | agents/topic_consolidation.py:110-121 | re-labelling preserves a day's total and gives a well-formed dictionary |
| Consolidation.RemapDayCount | agents/topic_consolidation.py:114-118 | each label's count is the sum over original topics `t` with `mapping.get(t, t)` equal to it |
| Consolidation.AggregateCount | agents/topic_consolidation.py:19-25 | after the first n dates, each topic's global count is its sum over those dates |
| Consolidation.TotalsCount | agents/topic_consolidation.py:17-25 | each topic's global frequency is the sum of its frequencies over all dates |
| Consolidation.KeepPositiveSound | agents/topic_consolidation.py:131-134 | the fallback keeps only topics with a positive total, once each, with that total |
| Consolidation.KeepPositiveComplete | agents/topic_consolidation.py:131-134 | the fallback keeps every topic with a positive total |
| Consolidation.IdentityOnKept | agents/topic_consolidation.py:128-134 | the fallback mapping has the kept topics in the same order, each sent to itself |
| Consolidation.PositiveLinesKept | agents/topic_consolidation.py:30 | the prompt text lists exactly the topics with a positive total, as `topic: freq`, in order |
| Consolidation.AnyTopicSpec | agents/topic_consolidation.py:110-116 | the remapping loop reaches a `topic_mapping` lookup exactly when some date has at least one topic |
| Consolidation.RemapAllKeepsTotals | agents/topic_consolidation.py:107-122 | the remapped table keeps the dates and their order, and each date holds its counts re-labelled with its total unchanged |
| Consolidation.RemapDatesContents | agents/topic_consolidation.py:107-122 | the remapped table lists the dates in order, each holding its day re-labelled |
| Consolidation.DailyUnchanged | agents/topic_consolidation.py:139-145 | when every day is unchanged by re-labelling, each date holds its extracted counts |
| Consolidation.FallbackTopics | agents/topic_consolidation.py:131-136 | the fallback topics are exactly those with a positive total count, each with that count |
| Consolidation.FallbackMapping | agents/topic_consolidation.py:131-137 | the fallback mapping is the identity on the fallback topics |
| Consolidation.UnparsableFallsBack | agents/topic_consolidation.py:95-105 | a reply that cannot be decoded gives two empty dictionaries and leads to the fallback, not to a failure |
| Consolidation.FallbackConsolidated | agents/topic_consolidation.py:128-134 | the fallback's consolidated topics are exactly the topics whose count summed over the dates is positive, each with that sum |
| Consolidation.FallbackDaily | agents/topic_consolidation.py:139-145 | the fallback's identity re-labelling keeps the dates, their order, each date's counts and every topic's sum over the dates |
| Consolidation.ConsolidationFallback | agents/topic_consolidation.py:126-157 | on the fallback path: topics with positive total and their totals, the identity mapping, every date keeping its extracted counts, so each topic's counts over the dates add up to its consolidated total; status and step set, nothing else changed |
| Consolidation.ConsolidationUsesReply | agents/topic_consolidation.py:107-157 | on the model's consolidation: the reply's two dictionaries stored as they are, each date re-labelled through the mapping with its total kept; status and step set, nothing else changed |
| Consolidation.ConsolidationFails | agents/topic_consolidation.py:159-168 | otherwise (the configuration check, the model call and the two key look-ups all raise into this `except`) one "Consolidation error: " entry with the exact message (not configured, the model's exception, the `TypeError` of subscripting a non-object reply, "'topic_mapping'", "'consolidated_topics'"), status "consolidation_failed", consolidation fields untouched |
| Consolidation.Tally | agents/topic_consolidation.py:111-118 | the inner `defaultdict` loop equals the regrouping function |
| Consolidation.AggregateTopics | agents/topic_consolidation.py:18-25 | the aggregation loops equal the totals function |
| Consolidation.BuildTopicsText | agents/topic_consolidation.py:30 | the comprehension equals the prompt-text function |
| Consolidation.RemapDate | agents/topic_consolidation.py:110-121 | one pass of the date loop raises the exception of the `topic_mapping` lookup exactly when that lookup fails and the date has a topic; otherwise it stores the date's counts re-labelled after the earlier dates |
| Consolidation.RemapAllDates | agents/topic_consolidation.py:107-122 | the date loop raises the exception of the `topic_mapping` lookup (`KeyError` or `TypeError`) exactly when that lookup fails and some date has a topic; otherwise it equals the remapped table |
| Consolidation.BuildFallback | agents/topic_consolidation.py:128-134 | the fallback loop equals the positive-topics and identity functions |
| Consolidation.ConsolidateTopics | agents/topic_consolidation.py:10-168 | the node as written equals the stage function |
| Report.SortSorted | agents/review_report.py:20 | `sorted` gives a non-decreasing permutation of its input |
| Report.SortDistinct | agents/review_report.py:20 | sorting distinct dates gives them strictly ascending |
| Report.SortMembers | agents/review_report.py:20 | every sorted date is a key of `daily_frequencies` |
| Report.TopicSeriesSpec | agents/review_report.py:22-27 | a series has one point per date, in order, holding that day's count of the topic or 0 |
| Report.TrendTableSpec | agents/review_report.py:16-31 | the trend table's keys are exactly the topics, each holding its series over the sorted dates |
| Report.TrendTableHasValues | agents/review_report.py:18-31 | every listed topic of the trend table has a series |
| Report.TrendTableOrder | agents/review_report.py:18 | with distinct topics the trend table keeps their order |
| Report.SortedSeries | agents/review_report.py:20-27 | a topic's series has strictly ascending dates that are exactly the keys of `daily_frequencies`, each with that day's count or 0 |
| Report.TrendSeries | agents/review_report.py:16-31 | every series in the trend table is that series for its topic |
| Report.ReviewReportSpec | agents/review_report.py:16-43 | `trend_analysis` has exactly the keys of `consolidated_topics`, in order; each series covers every date once, ascending, with that day's count or 0; status "completed", step "trend_analysis_completed", nothing else changed |
| Report.BuildTrendData | agents/review_report.py:16-31 | the nested loops equal the trend-table function |
| Report.FirstFrequencyMissing | agents/review_report.py:76-81 | the search gives 0 when no point has the date |
| Report.FirstFrequencyFound | agents/review_report.py:76-80 | the search gives the frequency of the first point of the date |
| Report.CountsForSpec | agents/review_report.py:74-81 | a topic column has one entry per date, each the search's result for that date |
| Report.AddDatesSpec | agents/review_report.py:63-67 | the collected dates hold each given date once and nothing else |
| Report.AllDatesSpec | agents/review_report.py:63-67 | `all_dates` holds, once each, exactly the dates of the series |
| Report.CsvDatesSpec | agents/review_report.py:69 | the CSV dates are strictly ascending and are exactly the dates of the series |
| Report.CsvColumnsKeys | agents/review_report.py:73-83 | one column per topic of the trend table |
| Report.CsvColumnsValues | agents/review_report.py:73-83 | each column holds its topic's counts over the sorted dates |
| Report.CsvColumnsOrder | agents/review_report.py:73 | columns follow the order of the trend table |
| Report.CsvTableSpec | agents/review_report.py:62-83 | the corrected table: dates strictly ascending and equal to the union of the series' dates; one column per topic, in order, with one value per date, the first matching point's frequency or 0 |
| Report.DateTopicReplacesDates | agents/review_report.py:71-83 | as written, a topic named "date" overwrites the date column, so the table has no dates |
| Report.AsWrittenAgrees | agents/review_report.py:71-83 | without a topic named "date", the table as written lists the date column and then the corrected columns in order, and holds the same dates and counts |
| Report.FirstFrequencyAt | agents/review_report.py:76-80 | with ascending dates, the search finds each point's own frequency |
| Report.SeriesFrequency | agents/review_report.py:76-80 | for the report's series, the search finds that day's count of the topic |
| Report.SeriesDatesOf | agents/review_report.py:20-27 | a report series' dates are exactly the dates of `daily_frequencies` |
| Report.CsvOfReport | agents/review_report.py:16-83 | the CSV table of a report holds the same data as `trend_analysis`: the dates of `daily_frequencies` and each topic's daily count |
| Report.FindFrequency | agents/review_report.py:76-80 | the search-and-break loop equals the first-match function |
| Report.CollectDates | agents/review_report.py:63-67 | the set-building loops equal the date-collection function |
| Report.TopicFrequencies | agents/review_report.py:74-81 | the per-topic loop equals the column function |
| Report.BuildCsvTable | agents/review_report.py:62-83 | the table-building loops build `csv_data` as written; without a topic named "date" it is the date column followed by the corrected table's columns, with the same data |
| Report.GenerateReport | agents/review_report.py:6-43 | the node as written equals the stage function, and hands the CSV writer `csv_data` as written for its `trend_analysis` |
| Workflow.InitialReady | app.py:73-86 | the dictionaries of the state built by the app are well formed: each key listed once, and a value for exactly the listed keys |
| Workflow.IngestionReady | agents/data_ingestion.py:35-47 | ingestion keeps that readiness |
| Workflow.FrequenciesWellFormed | agents/topic_extraction.py:95-97 | a day's projected topics are a well-formed dictionary, a repeated topic kept once |
| Workflow.ExtractDaysWellFormed | agents/topic_extraction.py:57-104 | `extracted_topics` is a well-formed dictionary whose every date holds a well-formed topic table |
| Workflow.ExtractionReady | agents/topic_extraction.py:108-120 | extraction keeps readiness |
| Workflow.ConsolidationReady | agents/topic_consolidation.py:150-168 | consolidation keeps readiness |
| Workflow.AfterIngestion | workflow.py:21 | the run enters at ingestion, and its output is ready for extraction |
| Workflow.AfterExtraction | workflow.py:22 | extraction runs on ingestion's output, unconditionally |
| Workflow.AfterConsolidation | workflow.py:23 | consolidation runs on extraction's output, unconditionally |
| Workflow.IngestionOutcome | agents/data_ingestion.py:35-47 | ingestion either succeeds with no new error or records exactly one "Ingestion error: " entry |
| Workflow.ExtractionOutcome | agents/topic_extraction.py:108-120 | extraction either succeeds with no new error or records exactly one "Extraction error: " entry |
| Workflow.ConsolidationOutcome | agents/topic_consolidation.py:150-168 | consolidation either succeeds with no new error or records exactly one "Consolidation error: " entry |
| Workflow.StagesOutcome | workflow.py:21-24 | each of the first three nodes, on the previous node's output, either succeeds without an error or records its own failure |
| Workflow.PipelineCompletes | workflow.py:24-25 | the report ends every run: status "completed", step "trend_analysis_completed", whatever failed before, and no error of its own |
| Workflow.PipelineErrors | workflow.py:21-25 | the initial errors stay a prefix; at most three are added, each with a stage's prefix; none is added exactly when ingestion, extraction and consolidation all succeed |
| Workflow.ChainErrors | workflow.py:22-24 | three stage steps in a row keep the earlier errors and add at most one each |
| Workflow.RunWorkflow | workflow.py:9-27 | running the four node methods in the graph's order equals the composed pipeline, and hands the writer `csv_data` as written |

## Left out

- Network and foreign calls: the Azure OpenAI client, `google_play_scraper.reviews`, `strptime`. Each becomes a function parameter, so every call for the same input gives the same answer.
- The prompt templates' fixed prose and the seed-topic list. The model's parameter receives only the variable part of each prompt (the review lines, or the topic text).
- `json.loads` and the typed reading of its result. For extraction, a decoder function yields a decode error, a non-object value (named by its Python type) or the object's items, with each topic's value an object with an optional integer `frequency` or another type. For consolidation, it yields any parse exception, a non-object value (named by its Python type), or the object's two optional dictionaries. The `TypeError` text for a `str` reply is the one Python 3.11 and later print. A `frequency` that is not an integer, and dictionary values of other JSON types, are outside the model.
- The CSV write itself: pandas, `to_csv`, `os.makedirs`, the timestamped file name, and `None` returned on a write error. None of these changes the state. Only `csv_data`, the dictionary handed to the writer, is modelled.
- Report.ReviewReport: the `except` branch of `review_report_node` (the "Analysis error: " entry and "analysis_failed") is not modelled. With a typed state nothing in the table building can raise, so the branch is unreachable in the model.
- `asyncio.sleep(0.5)`, async/await, and all `print` and traceback logging: none of them affects the state.
- Date strings: dates are day numbers (`date.toordinal()`, 0001-01-01 is day 1), and formatting as `%Y-%m-%d` is taken to keep their order. The parser yields only days from 0001-01-01 to 9999-12-31, as `strptime` does.
- config.py and the Streamlit UI in app.py. Only the initial state literal is modelled (`AnalysisState.Initial`), and `is_configured()` is a boolean parameter.
- Workflow.Ready: the stage functions require that every key a dictionary lists has a value, and `Ready` adds that `raw_reviews`, `extracted_topics` with each of its days, and `daily_frequencies` are well formed. Python dictionaries always satisfy this, and the app's initial state and every stage keep it (`Workflow.InitialReady` and the three `...Ready` lemmas). `consolidated_topics` and `topic_mapping` come from the decoder, so `Ready` says nothing about them.
- Report.ReviewReportSpec and Report.CsvOfReport: proved for states whose `daily_frequencies` dates and `consolidated_topics` topics are listed without repeats. This always holds for Python dictionaries, but the model does not derive it for dictionaries returned by the decoder.

## Findings

| source | as written | input that shows it | evidently intended | confidence | as-written member | corrected member |
|---|---|---|---|---|---|---|
| agents/review_report.py:71-83 | the date column and the topic columns share one dictionary, so `csv_data[topic]` for a topic named `date` replaces the `date` column | a consolidation reply whose `consolidated_topics` has a topic named "date", for example `{"date": 3}` | a CSV with a date column plus one column per topic | not executed; needs the model to name a topic "date" | Report.DateTopicReplacesDates | Report.CsvTableSpec |
