/**
 * agents/topic_consolidation.py: add up every topic's count over all dates,
 * ask the language model to merge similar topics, re-label each date's counts
 * through the model's `topic_mapping`, and fall back to the topics as they are
 * when the model's `consolidated_topics` is empty (in particular when its reply
 * cannot be parsed).
 */
module Consolidation {
  import opened Wrappers
  import opened Dicts
  import opened Text
  import opened ModelReply
  import opened AnalysisState

  const ErrorPrefix := "Consolidation error: "

  /** A day's, or the whole window's, count per topic. */
  type Counts = Dict<Topic, int>

  /** Topic counts per date: `extracted_topics` and `daily_frequencies`. */
  type Daily = Dict<Date, Counts>

  /**
   * The parsed reply. A key the model left out is `None`; indexing it raises
   * `KeyError`, but only when the code gets to that lookup.
   */
  datatype ConsolidationReply = ConsolidationReply(consolidatedTopics: Option<Counts>, topicMapping: Option<Dict<Topic, Topic>>)

  /** The model: the topic list of the prompt in, the reply's content out, or the exception it raised. */
  type Llm = string -> Result<string>

  /**
   * `json.loads` of a cleaned reply: any exception it raises, a JSON value that
   * is not an object (named by its Python type), or the object's two keys.
   */
  datatype Decoded =
    | Unparsable
    | NotAnObject(typeName: string)
    | Object(reply: ConsolidationReply)

  type Decoder = string -> Decoded

  /**
   * The message of the `TypeError` raised by `value['key']` on a value of Python
   * type `typeName` other than `dict`; it does not depend on the key.
   */
  function NotSubscriptable(typeName: string): string {
    if typeName == "list" then "list indices must be integers or slices, not str"
    else if typeName == "str" then "string indices must be integers, not 'str'"
    else "'" + typeName + "' object is not subscriptable"
  }

  /** `str(KeyError(key))` */
  function MissingKey(key: string): string {
    "'" + key + "'"
  }

  /** Every date, and every topic of every date, can be iterated. */
  predicate Iterable(m: Daily) {
    && HasValues(m)
    && forall i :: 0 <= i < |m.order| ==> HasValues(m.at[m.order[i]])
  }

  /** Every date's topic counts are a well-formed dictionary. */
  ghost predicate DaysWellFormed(m: Daily)
    requires HasValues(m)
  {
    forall i :: 0 <= i < |m.order| ==> WellFormed(m.at[m.order[i]])
  }

  function Itself(t: Topic): Topic {
    t
  }

  /** `topic_frequencies` after the first `n` dates. */
  function Aggregate(extracted: Daily, n: nat): (totals: Counts)
    requires Iterable(extracted) && n <= |extracted.order|
    ensures HasValues(totals)
  {
    if n == 0 then Empty()
    else
      var day := extracted.at[extracted.order[n - 1]];
      RegroupHasValues(Aggregate(extracted, n - 1), day, |day.order|, Itself);
      Regroup(Aggregate(extracted, n - 1), day, |day.order|, Itself)
  }

  /** `topic_frequencies`: every topic's count added up over all dates. */
  function Totals(extracted: Daily): (totals: Counts)
    requires Iterable(extracted)
    ensures HasValues(totals)
  {
    Aggregate(extracted, |extracted.order|)
  }

  /** A topic's count summed over the first `n` dates, each day read with `get(t, 0)`. */
  function SumOverDates(m: Daily, n: nat, t: Topic): int
    requires HasValues(m) && n <= |m.order|
  {
    if n == 0 then 0 else SumOverDates(m, n - 1, t) + Count(m.at[m.order[n - 1]], t)
  }

  /** `mapping.get(t, t)` */
  function Label(mapping: Dict<Topic, Topic>, t: Topic): Topic {
    if t in mapping.at then mapping.at[t] else t
  }

  function LabelOf(mapping: Dict<Topic, Topic>): (relabel: Topic -> Topic)
    ensures forall t :: relabel(t) == Label(mapping, t)
  {
    t => Label(mapping, t)
  }

  /** `consolidated_daily` for one day: its counts re-labelled, counts that meet on one label added up. */
  function RemapDay(day: Counts, relabel: Topic -> Topic): Counts
    requires HasValues(day)
  {
    Regroup(Empty(), day, |day.order|, relabel)
  }

  /**
   * `RemapDay` as a value to apply to each date's counts. Every day of an
   * `Iterable` table can be iterated; the other branch is never taken.
   */
  function DayRemap(relabel: Topic -> Topic): Counts -> Counts {
    day => if HasValues(day) then RemapDay(day, relabel) else day
  }

  /** `consolidated_daily_frequencies` after the first `n` dates: each date's counts re-labelled. */
  function RemapDates(m: Daily, relabel: Topic -> Topic, n: nat): Daily
    requires Iterable(m) && n <= |m.order|
  {
    MapValues(m, DayRemap(relabel), n)
  }

  /** Some date has at least one topic (`AnyTopicSpec`), so the remapping loop looks up `topic_mapping`. */
  predicate AnyTopic(m: Daily)
    requires HasValues(m)
  {
    TopicBefore(m, |m.order|)
  }

  /** `f"{topic}: {freq}"` */
  function Entry(t: Topic, freq: int): string {
    t + ": " + IntToString(freq)
  }

  /** `[f"{topic}: {freq}" ...]` over the first `n` totals, keeping the positive ones. */
  function PositiveLines(totals: Counts, n: nat): seq<string>
    requires HasValues(totals) && n <= |totals.order|
  {
    if n == 0 then []
    else
      var t := totals.order[n - 1];
      PositiveLines(totals, n - 1) + (if totals.at[t] > 0 then [Entry(t, totals.at[t])] else [])
  }

  /** `topics_text`, the variable part of the consolidation prompt. */
  function TopicsText(totals: Counts): string
    requires HasValues(totals)
  {
    Join(", ", PositiveLines(totals, |totals.order|))
  }

  /** `fallback_consolidated_topics` after the first `n` totals: the positive ones, in order. */
  function KeepPositive(totals: Counts, n: nat): Counts
    requires HasValues(totals) && n <= |totals.order|
  {
    if n == 0 then Empty()
    else
      var t := totals.order[n - 1];
      var kept := KeepPositive(totals, n - 1);
      if totals.at[t] > 0 then Put(kept, t, totals.at[t]) else kept
  }

  /** `fallback_topic_mapping` after the first `n` totals: each positive topic mapped to itself. */
  function IdentityOn(totals: Counts, n: nat): Dict<Topic, Topic>
    requires HasValues(totals) && n <= |totals.order|
  {
    if n == 0 then Empty()
    else
      var t := totals.order[n - 1];
      var mapping := IdentityOn(totals, n - 1);
      if totals.at[t] > 0 then Put(mapping, t, t) else mapping
  }

  /** What an unparsable reply is replaced with. */
  const EmptyReply := ConsolidationReply(Some(Empty()), Some(Empty()))

  /**
   * `consolidation_result` when it is an object: the cleaned reply decoded, or
   * the empty result when that raises.
   */
  function ParseReply(decode: Decoder, reply: string): ConsolidationReply {
    match decode(StripCodeFence(reply))
    case Object(r) => r
    case _ => EmptyReply
  }

  /** The state the stage returns when it gets to the end. */
  function Consolidated(s: State, consolidated: Counts, mapping: Dict<Topic, Topic>, daily: Daily): State {
    s.(consolidatedTopics := consolidated, topicMapping := mapping, dailyFrequencies := daily,
       currentStep := TopicConsolidationCompleted, processingStatus := ConsolidationComplete)
  }

  /** `topic_consolidation_node`; `configured` is `azure_config.is_configured()`. */
  function Consolidation(s: State, configured: bool, llm: Llm, decode: Decoder): State
    requires Iterable(s.extractedTopics)
  {
    var m := s.extractedTopics;
    var totals := Totals(m);
    if !configured then Failed(s, ErrorPrefix, NotConfigured, ConsolidationFailed)
    else
      match llm(TopicsText(totals))
      case Err(e) => Failed(s, ErrorPrefix, e, ConsolidationFailed)
      case Ok(reply) =>
        var decoded := decode(StripCodeFence(reply));
        // a value that is not an object raises at whichever lookup comes first, with the same message
        if decoded.NotAnObject? then Failed(s, ErrorPrefix, NotSubscriptable(decoded.typeName), ConsolidationFailed)
        else
          var parsed := ParseReply(decode, reply);
          if parsed.topicMapping.None? && AnyTopic(m) then
            Failed(s, ErrorPrefix, MissingKey("topic_mapping"), ConsolidationFailed)
          else
            var daily := RemapDates(m, LabelOf(parsed.topicMapping.GetOr(Empty())), |m.order|);
            match parsed.consolidatedTopics
            case None => Failed(s, ErrorPrefix, MissingKey("consolidated_topics"), ConsolidationFailed)
            case Some(c) =>
              if c.order == [] then
                var identity := IdentityOn(totals, |totals.order|);
                Consolidated(s, KeepPositive(totals, |totals.order|), identity, RemapDates(m, LabelOf(identity), |m.order|))
              else
                match parsed.topicMapping
                case None => Failed(s, ErrorPrefix, MissingKey("topic_mapping"), ConsolidationFailed)
                case Some(mapping) => Consolidated(s, c, mapping, daily)
  }

  /** A well-formed day re-labelled by labels that fix each of its topics is the day itself. */
  lemma RemapUnchanged(day: Counts, relabel: Topic -> Topic)
    requires WellFormed(day)
    requires forall i :: 0 <= i < |day.order| ==> relabel(day.order[i]) == day.order[i]
    ensures RemapDay(day, relabel) == day
  {
    var r := RemapDay(day, relabel);
    RegroupUnchanged(day, |day.order|, relabel);
    assert day.order[..|day.order|] == day.order;
    assert r.at == day.at;
  }

  /** Re-labelling keeps a day's total: `sum(consolidated_daily.values()) == sum(daily_topics.values())`. */
  lemma RemapDayTotal(day: Counts, relabel: Topic -> Topic)
    requires HasValues(day)
    ensures WellFormed(RemapDay(day, relabel))
    ensures Total(RemapDay(day, relabel)) == Total(day)
  {
    EmptyWellFormed<Topic, int>();
    RegroupWellFormed(Empty(), day, |day.order|, relabel);
    RegroupTotal(Empty(), day, |day.order|, relabel);
    assert day.order[..|day.order|] == day.order;
  }

  /** Each label's count is the sum of the counts of the day's topics `t` with `mapping.get(t, t)` equal to it. */
  lemma RemapDayCount(day: Counts, relabel: Topic -> Topic, l: Topic)
    requires HasValues(day)
    ensures Count(RemapDay(day, relabel), l) == LabelSum(day, |day.order|, relabel, l)
  {
    RegroupCount(Empty(), day, |day.order|, relabel, l);
  }

  /** `topic_frequencies` is well formed. */
  lemma {:induction false} AggregateWellFormed(extracted: Daily, n: nat)
    requires Iterable(extracted) && n <= |extracted.order|
    ensures WellFormed(Aggregate(extracted, n))
  {
    if n == 0 {
      EmptyWellFormed<Topic, int>();
    } else {
      var day := extracted.at[extracted.order[n - 1]];
      AggregateWellFormed(extracted, n - 1);
      RegroupWellFormed(Aggregate(extracted, n - 1), day, |day.order|, Itself);
    }
  }

  /** After `n` dates, each total is the topic's count summed over those dates. */
  lemma {:induction false} AggregateCount(extracted: Daily, n: nat, t: Topic)
    requires Iterable(extracted) && DaysWellFormed(extracted) && n <= |extracted.order|
    ensures Count(Aggregate(extracted, n), t) == SumOverDates(extracted, n, t)
  {
    if n > 0 {
      var day := extracted.at[extracted.order[n - 1]];
      assert SumOverDates(extracted, n, t) == SumOverDates(extracted, n - 1, t) + Count(day, t);
      AggregateCount(extracted, n - 1, t);
      AggregateCountStep(extracted, n - 1, t);
    }
  }

  /** One more date adds its own count of `t` to the total. */
  lemma AggregateCountStep(extracted: Daily, i: nat, t: Topic)
    requires Iterable(extracted) && DaysWellFormed(extracted) && i < |extracted.order|
    ensures Count(Aggregate(extracted, i + 1), t) == Count(Aggregate(extracted, i), t) + Count(extracted.at[extracted.order[i]], t)
  {
    var prev := Aggregate(extracted, i);
    var day := extracted.at[extracted.order[i]];
    AggregateNext(extracted, i);
    assert WellFormed(day);
    RegroupCount(prev, day, |day.order|, Itself, t);
    DayCount(day, t);
  }

  /** Regrouping a well-formed day under `Itself` finds each topic's own count. */
  lemma DayCount(day: Counts, t: Topic)
    requires WellFormed(day)
    ensures LabelSum(day, |day.order|, Itself, t) == Count(day, t)
  {
    RegroupCount(Empty(), day, |day.order|, Itself, t);
    RemapUnchanged(day, Itself);
  }

  /** `topic_frequencies[t]` is `t`'s count summed over every date of `extracted_topics`. */
  lemma TotalsCount(extracted: Daily)
    requires Iterable(extracted) && DaysWellFormed(extracted)
    ensures WellFormed(Totals(extracted))
    ensures forall t :: Count(Totals(extracted), t) == SumOverDates(extracted, |extracted.order|, t)
  {
    AggregateWellFormed(extracted, |extracted.order|);
    forall t
      ensures Count(Totals(extracted), t) == SumOverDates(extracted, |extracted.order|, t)
    {
      AggregateCount(extracted, |extracted.order|, t);
    }
  }

  /** The kept topics are listed once each, hold their positive totals, and come from the first `n` totals. */
  lemma {:induction false} KeepPositiveSound(totals: Counts, n: nat)
    requires HasValues(totals) && n <= |totals.order|
    ensures var kept := KeepPositive(totals, n);
      && Distinct(kept.order)
      && (forall k :: k in kept.at <==> k in kept.order)
      && (forall k :: k in kept.at ==> k in totals.order[..n] && totals.at[k] > 0 && kept.at[k] == totals.at[k])
  {
    if n > 0 {
      KeepPositiveSound(totals, n - 1);
      var t := totals.order[n - 1];
      var kept := KeepPositive(totals, n - 1);
      PutDistinct(kept, t, totals.at[t]);
      assert totals.order[..n] == totals.order[..n - 1] + [t];
    }
  }

  /** Every one of the first `n` totals that is positive is kept. */
  lemma {:induction false} KeepPositiveComplete(totals: Counts, n: nat)
    requires HasValues(totals) && n <= |totals.order|
    ensures forall i :: 0 <= i < n && totals.at[totals.order[i]] > 0 ==> totals.order[i] in KeepPositive(totals, n).at
  {
    if n > 0 {
      KeepPositiveComplete(totals, n - 1);
    }
  }

  /** The fallback mapping lists the kept topics, in the same order, each mapped to itself. */
  lemma IdentityOnKept(totals: Counts, n: nat)
    requires HasValues(totals) && n <= |totals.order|
    ensures var identity := IdentityOn(totals, n);
      var kept := KeepPositive(totals, n);
      && identity.order == kept.order
      && (forall k :: k in identity.at <==> k in kept.at)
      && (forall k :: k in identity.at ==> identity.at[k] == k)
  {
    IdentityOnOrder(totals, n);
    IdentityOnKeys(totals, n);
    IdentityOnValues(totals, n);
  }

  lemma {:induction false} IdentityOnOrder(totals: Counts, n: nat)
    requires HasValues(totals) && n <= |totals.order|
    ensures IdentityOn(totals, n).order == KeepPositive(totals, n).order
  {
    if n > 0 {
      IdentityOnOrder(totals, n - 1);
      var t := totals.order[n - 1];
      PutSameOrder(IdentityOn(totals, n - 1), KeepPositive(totals, n - 1), t, t, totals.at[t]);
    }
  }

  lemma {:induction false} IdentityOnKeys(totals: Counts, n: nat)
    requires HasValues(totals) && n <= |totals.order|
    ensures forall k :: k in IdentityOn(totals, n).at <==> k in KeepPositive(totals, n).at
  {
    if n > 0 {
      IdentityOnKeys(totals, n - 1);
      var t := totals.order[n - 1];
      PutSameKeys(IdentityOn(totals, n - 1), KeepPositive(totals, n - 1), t, t, totals.at[t]);
    }
  }

  lemma {:induction false} IdentityOnValues(totals: Counts, n: nat)
    requires HasValues(totals) && n <= |totals.order|
    ensures forall k :: k in IdentityOn(totals, n).at ==> IdentityOn(totals, n).at[k] == k
  {
    if n > 0 {
      IdentityOnValues(totals, n - 1);
    }
  }

  /** `lines` holds one `topic: total` entry per topic of `kept`, in the order of `kept`. */
  ghost predicate EntriesOf(lines: seq<string>, kept: Counts) {
    && |lines| == |kept.order|
    && forall i :: 0 <= i < |lines| ==> kept.order[i] in kept.at && lines[i] == Entry(kept.order[i], kept.at[kept.order[i]])
  }

  /** The prompt has one `topic: total` entry per kept topic, in the kept order. */
  lemma {:induction false} PositiveLinesKept(totals: Counts, n: nat)
    requires HasValues(totals) && Distinct(totals.order) && n <= |totals.order|
    ensures EntriesOf(PositiveLines(totals, n), KeepPositive(totals, n))
  {
    if n > 0 {
      PositiveLinesKept(totals, n - 1);
      KeepPositiveFresh(totals, n);
      EntriesStep(totals, n);
    }
  }

  lemma KeepPositiveFresh(totals: Counts, n: nat)
    requires HasValues(totals) && Distinct(totals.order) && 0 < n <= |totals.order|
    ensures totals.order[n - 1] !in KeepPositive(totals, n - 1).order
  {
    KeepPositiveSound(totals, n - 1);
    assert totals.order[n - 1] !in totals.order[..n - 1];
  }

  lemma EntriesStep(totals: Counts, n: nat)
    requires HasValues(totals) && 0 < n <= |totals.order|
    requires totals.order[n - 1] !in KeepPositive(totals, n - 1).order
    requires EntriesOf(PositiveLines(totals, n - 1), KeepPositive(totals, n - 1))
    ensures EntriesOf(PositiveLines(totals, n), KeepPositive(totals, n))
  {
    var t := totals.order[n - 1];
    var kept := KeepPositive(totals, n - 1);
    if totals.at[t] > 0 {
      var kept' := KeepPositive(totals, n);
      assert kept'.order == kept.order + [t];
      forall i | 0 <= i < |kept.order|
        ensures kept'.order[i] in kept'.at && kept'.at[kept'.order[i]] == kept.at[kept.order[i]]
      {
        assert kept.order[i] != t;
      }
    }
  }

  /** With distinct dates, re-labelling lists the dates in their order, each holding its own re-labelled counts. */
  lemma RemapDatesContents(m: Daily, relabel: Topic -> Topic, n: nat)
    requires Iterable(m) && Distinct(m.order) && n <= |m.order|
    ensures var r := RemapDates(m, relabel, n);
      && r.order == m.order[..n]
      && (forall d :: d in r.at <==> d in r.order)
      && (forall i :: 0 <= i < n ==> m.order[i] in r.at && r.at[m.order[i]] == RemapDay(m.at[m.order[i]], relabel))
  {
    RemapDatesOrder(m, relabel, n);
    RemapDatesKeys(m, relabel, n);
    RemapDatesValues(m, relabel, n);
  }

  /** With distinct dates, the remapped table lists the first `n` dates in their order. */
  lemma RemapDatesOrder(m: Daily, relabel: Topic -> Topic, n: nat)
    requires Iterable(m) && Distinct(m.order) && n <= |m.order|
    ensures RemapDates(m, relabel, n).order == m.order[..n]
  {
    MapValuesOrder(m, DayRemap(relabel), n);
  }

  /** The remapped table stores a value for exactly the dates it lists. */
  lemma RemapDatesKeys(m: Daily, relabel: Topic -> Topic, n: nat)
    requires Iterable(m) && n <= |m.order|
    ensures forall d :: d in RemapDates(m, relabel, n).at <==> d in RemapDates(m, relabel, n).order
  {
    MapValuesKeys(m, DayRemap(relabel), n);
  }

  /** Each of the first `n` dates holds its own day re-labelled. */
  lemma RemapDatesValues(m: Daily, relabel: Topic -> Topic, n: nat)
    requires Iterable(m) && n <= |m.order|
    ensures var r := RemapDates(m, relabel, n);
      forall i :: 0 <= i < n ==> m.order[i] in r.at && r.at[m.order[i]] == RemapDay(m.at[m.order[i]], relabel)
  {
    MapValuesValues(m, DayRemap(relabel), n);
    var r := RemapDates(m, relabel, n);
    forall i | 0 <= i < n
      ensures r.at[m.order[i]] == RemapDay(m.at[m.order[i]], relabel)
    {
      assert HasValues(m.at[m.order[i]]);
    }
  }

  /** Re-labelling every date through labels that change none of its topics lists the same dates, each with the same counts. */
  lemma DailyUnchanged(m: Daily, relabel: Topic -> Topic)
    requires Iterable(m) && Distinct(m.order)
    requires forall i :: 0 <= i < |m.order| ==> RemapDay(m.at[m.order[i]], relabel) == m.at[m.order[i]]
    ensures var r := RemapDates(m, relabel, |m.order|);
      && r.order == m.order
      && (forall d :: d in r.at <==> d in r.order)
      && (forall i :: 0 <= i < |m.order| ==> m.order[i] in r.at && r.at[m.order[i]] == m.at[m.order[i]])
  {
    RemapDatesContents(m, relabel, |m.order|);
    assert m.order[..|m.order|] == m.order;
  }

  lemma EachDayUnchanged(m: Daily, relabel: Topic -> Topic)
    requires Iterable(m) && DaysWellFormed(m)
    requires forall t :: relabel(t) == t
    ensures forall i :: 0 <= i < |m.order| ==> RemapDay(m.at[m.order[i]], relabel) == m.at[m.order[i]]
  {
    forall i | 0 <= i < |m.order|
      ensures RemapDay(m.at[m.order[i]], relabel) == m.at[m.order[i]]
    {
      RemapUnchanged(m.at[m.order[i]], relabel);
    }
  }

  /** `fallback_consolidated_topics` is `topic_frequencies` restricted to the positive totals. */
  lemma FallbackTopics(totals: Counts)
    requires WellFormed(totals)
    ensures var kept := KeepPositive(totals, |totals.order|);
      && WellFormed(kept)
      && (forall t :: t in kept.at <==> Count(totals, t) > 0)
      && (forall t :: t in kept.at ==> kept.at[t] == Count(totals, t))
  {
    var kept := KeepPositive(totals, |totals.order|);
    KeepPositiveSound(totals, |totals.order|);
    KeepPositiveComplete(totals, |totals.order|);
    assert totals.order[..|totals.order|] == totals.order;
  }

  /** `fallback_topic_mapping` sends every topic to itself, and lists exactly the kept topics in their order. */
  lemma FallbackMapping(totals: Counts)
    requires HasValues(totals)
    ensures var identity := IdentityOn(totals, |totals.order|);
      var kept := KeepPositive(totals, |totals.order|);
      && identity.order == kept.order
      && (forall t :: t in identity.at <==> t in kept.at)
      && (forall t :: Label(identity, t) == t)
  {
    IdentityOnKept(totals, |totals.order|);
  }

  /** Two day tables listing the same dates with the same counts give every topic the same sum. */
  lemma {:induction false} SumOverSameDates(a: Daily, b: Daily, n: nat, t: Topic)
    requires HasValues(a) && HasValues(b) && n <= |a.order| == |b.order|
    requires forall i :: 0 <= i < n ==> a.order[i] == b.order[i] && a.at[a.order[i]] == b.at[b.order[i]]
    ensures SumOverDates(a, n, t) == SumOverDates(b, n, t)
  {
    if n > 0 {
      SumOverSameDates(a, b, n - 1, t);
    }
  }

  /** The model is configured and answers. */
  ghost predicate Replied(s: State, configured: bool, llm: Llm)
    requires Iterable(s.extractedTopics)
  {
    configured && llm(TopicsText(Totals(s.extractedTopics))).Ok?
  }

  /** The model's reply decoded. */
  ghost function Decoding(s: State, configured: bool, llm: Llm, decode: Decoder): Decoded
    requires Iterable(s.extractedTopics) && Replied(s, configured, llm)
  {
    decode(StripCodeFence(llm(TopicsText(Totals(s.extractedTopics))).value))
  }

  /** The reply as the stage reads it. */
  ghost function Reply(s: State, configured: bool, llm: Llm, decode: Decoder): ConsolidationReply
    requires Iterable(s.extractedTopics) && Replied(s, configured, llm)
  {
    ParseReply(decode, llm(TopicsText(Totals(s.extractedTopics))).value)
  }

  /**
   * The reply is an object, or cannot be parsed; its `consolidated_topics` is
   * empty and the remapping loop did not look up a missing `topic_mapping`: the
   * stage falls back to the topics as they are.
   */
  ghost predicate FallsBack(s: State, configured: bool, llm: Llm, decode: Decoder)
    requires Iterable(s.extractedTopics)
  {
    && Replied(s, configured, llm)
    && !Decoding(s, configured, llm, decode).NotAnObject?
    && var reply := Reply(s, configured, llm, decode);
    && reply.consolidatedTopics.Some?
    && reply.consolidatedTopics.value.order == []
    && (reply.topicMapping.Some? || !AnyTopic(s.extractedTopics))
  }

  /** The reply has both keys and a nonempty `consolidated_topics`: the stage takes the model's consolidation. */
  ghost predicate UsesReply(s: State, configured: bool, llm: Llm, decode: Decoder)
    requires Iterable(s.extractedTopics)
  {
    && Replied(s, configured, llm)
    && var reply := Reply(s, configured, llm, decode);
    && reply.consolidatedTopics.Some?
    && reply.consolidatedTopics.value.order != []
    && reply.topicMapping.Some?
  }

  /** A reply that cannot be parsed, even once its code fence is stripped, leads to the fallback and not to a failure. */
  lemma UnparsableFallsBack(s: State, configured: bool, llm: Llm, decode: Decoder)
    requires Iterable(s.extractedTopics) && Replied(s, configured, llm)
    requires Decoding(s, configured, llm, decode).Unparsable?
    ensures Reply(s, configured, llm, decode) == EmptyReply
    ensures FallsBack(s, configured, llm, decode)
  {
  }

  /**
   * The fallback: `consolidated_topics` holds exactly the topics whose count
   * summed over all dates is positive, with that sum; `topic_mapping` sends each
   * of them to itself; every date keeps its extracted counts, so a topic's
   * counts over the dates add up to its consolidated total. Status and step are
   * set and nothing else changes.
   */
  lemma ConsolidationFallback(s: State, configured: bool, llm: Llm, decode: Decoder)
    requires Iterable(s.extractedTopics) && Distinct(s.extractedTopics.order) && DaysWellFormed(s.extractedTopics)
    requires FallsBack(s, configured, llm, decode)
    ensures var r := Consolidation(s, configured, llm, decode);
      var m := s.extractedTopics;
      && WellFormed(r.consolidatedTopics)
      && (forall t :: t in r.consolidatedTopics.at <==> SumOverDates(m, |m.order|, t) > 0)
      && (forall t :: t in r.consolidatedTopics.at ==> r.consolidatedTopics.at[t] == SumOverDates(m, |m.order|, t))
      && r.topicMapping.order == r.consolidatedTopics.order
      && (forall t :: t in r.topicMapping.at <==> t in r.consolidatedTopics.at)
      && (forall t :: Label(r.topicMapping, t) == t)
      && r.dailyFrequencies.order == m.order
      && (forall d :: d in r.dailyFrequencies.at <==> d in r.dailyFrequencies.order)
      && (forall i :: 0 <= i < |m.order| ==>
            m.order[i] in r.dailyFrequencies.at && r.dailyFrequencies.at[m.order[i]] == m.at[m.order[i]])
      && (forall t :: t in r.consolidatedTopics.at ==>
            r.consolidatedTopics.at[t] == SumOverDates(r.dailyFrequencies, |r.dailyFrequencies.order|, t))
      && r.processingStatus.Tag() == "consolidation_complete"
      && r.currentStep.Label() == "topic_consolidation_completed"
      && r == s.(consolidatedTopics := r.consolidatedTopics, topicMapping := r.topicMapping,
                 dailyFrequencies := r.dailyFrequencies,
                 processingStatus := ConsolidationComplete, currentStep := TopicConsolidationCompleted)
  {
    var m := s.extractedTopics;
    var totals := Totals(m);
    var identity := IdentityOn(totals, |totals.order|);
    var daily := RemapDates(m, LabelOf(identity), |m.order|);
    assert Consolidation(s, configured, llm, decode) == Consolidated(s, KeepPositive(totals, |totals.order|), identity, daily);
    FallbackConsolidated(m);
    FallbackMapping(totals);
    FallbackDaily(m);
  }

  /** The fallback's `consolidated_topics`: exactly the topics seen, each with its count summed over the dates. */
  lemma FallbackConsolidated(m: Daily)
    requires Iterable(m) && DaysWellFormed(m)
    ensures var kept := KeepPositive(Totals(m), |Totals(m).order|);
      && WellFormed(kept)
      && (forall t :: t in kept.at <==> SumOverDates(m, |m.order|, t) > 0)
      && (forall t :: t in kept.at ==> kept.at[t] == SumOverDates(m, |m.order|, t))
  {
    TotalsCount(m);
    FallbackTopics(Totals(m));
  }

  /** The fallback's identity re-labelling leaves the dates, their order, their counts and every topic's sum as they were. */
  lemma FallbackDaily(m: Daily)
    requires Iterable(m) && Distinct(m.order) && DaysWellFormed(m)
    ensures var totals := Totals(m);
      var daily := RemapDates(m, LabelOf(IdentityOn(totals, |totals.order|)), |m.order|);
      && daily.order == m.order
      && (forall d :: d in daily.at <==> d in daily.order)
      && (forall i :: 0 <= i < |m.order| ==> m.order[i] in daily.at && daily.at[m.order[i]] == m.at[m.order[i]])
      && (forall t :: SumOverDates(daily, |daily.order|, t) == SumOverDates(m, |m.order|, t))
  {
    var totals := Totals(m);
    var identity := IdentityOn(totals, |totals.order|);
    var daily := RemapDates(m, LabelOf(identity), |m.order|);
    FallbackMapping(totals);
    EachDayUnchanged(m, LabelOf(identity));
    DailyUnchanged(m, LabelOf(identity));
    forall t {
      SumOverSameDates(daily, m, |m.order|, t);
    }
  }

  /**
   * The model's consolidation: the reply's two dictionaries are stored as they
   * are, and every date, in its order, holds its counts re-labelled through
   * `topic_mapping` (`mapping.get(t, t)`), each label counting the sum of its
   * topics and the date's total kept. Status and step are set and nothing else
   * changes.
   */
  lemma ConsolidationUsesReply(s: State, configured: bool, llm: Llm, decode: Decoder)
    requires Iterable(s.extractedTopics) && Distinct(s.extractedTopics.order)
    requires UsesReply(s, configured, llm, decode)
    ensures var r := Consolidation(s, configured, llm, decode);
      var m := s.extractedTopics;
      var reply := Reply(s, configured, llm, decode);
      var mapping := reply.topicMapping.value;
      && r.consolidatedTopics == reply.consolidatedTopics.value
      && r.topicMapping == mapping
      && r.dailyFrequencies.order == m.order
      && (forall d :: d in r.dailyFrequencies.at <==> d in r.dailyFrequencies.order)
      && (forall i :: 0 <= i < |m.order| ==>
            && m.order[i] in r.dailyFrequencies.at
            && r.dailyFrequencies.at[m.order[i]] == RemapDay(m.at[m.order[i]], LabelOf(mapping))
            && Total(r.dailyFrequencies.at[m.order[i]]) == Total(m.at[m.order[i]]))
      && r.processingStatus.Tag() == "consolidation_complete"
      && r.currentStep.Label() == "topic_consolidation_completed"
      && r == s.(consolidatedTopics := r.consolidatedTopics, topicMapping := r.topicMapping,
                 dailyFrequencies := r.dailyFrequencies,
                 processingStatus := ConsolidationComplete, currentStep := TopicConsolidationCompleted)
  {
    var m := s.extractedTopics;
    var reply := Reply(s, configured, llm, decode);
    var mapping := reply.topicMapping.value;
    var daily := RemapDates(m, LabelOf(mapping), |m.order|);
    assert Consolidation(s, configured, llm, decode) == Consolidated(s, reply.consolidatedTopics.value, mapping, daily);
    RemapAllKeepsTotals(m, LabelOf(mapping));
  }

  /** Re-labelling every date keeps the dates, their order and each date's total. */
  lemma RemapAllKeepsTotals(m: Daily, relabel: Topic -> Topic)
    requires Iterable(m) && Distinct(m.order)
    ensures var r := RemapDates(m, relabel, |m.order|);
      && r.order == m.order
      && (forall d :: d in r.at <==> d in r.order)
      && (forall i :: 0 <= i < |m.order| ==>
            && m.order[i] in r.at
            && r.at[m.order[i]] == RemapDay(m.at[m.order[i]], relabel)
            && Total(r.at[m.order[i]]) == Total(m.at[m.order[i]]))
  {
    RemapDatesContents(m, relabel, |m.order|);
    assert m.order[..|m.order|] == m.order;
    forall i | 0 <= i < |m.order|
      ensures Total(RemapDay(m.at[m.order[i]], relabel)) == Total(m.at[m.order[i]])
    {
      RemapDayTotal(m.at[m.order[i]], relabel);
    }
  }

  /**
   * Otherwise (not configured, the model call raises, the reply is JSON but not
   * an object, or a key the code indexes is missing from the reply) the stage appends one "Consolidation error: "
   * entry, reports "consolidation_failed" and leaves the consolidation fields as
   * they were.
   */
  lemma ConsolidationFails(s: State, configured: bool, llm: Llm, decode: Decoder)
    requires Iterable(s.extractedTopics)
    requires !FallsBack(s, configured, llm, decode) && !UsesReply(s, configured, llm, decode)
    ensures var r := Consolidation(s, configured, llm, decode);
      var answer := llm(TopicsText(Totals(s.extractedTopics)));
      && RecordsFailure(s, r, ErrorPrefix, ConsolidationFailed)
      && r.processingStatus.Tag() == "consolidation_failed"
      && r.consolidatedTopics == s.consolidatedTopics
      && r.topicMapping == s.topicMapping
      && r.dailyFrequencies == s.dailyFrequencies
      && (!configured ==> r.errors == s.errors + [ErrorPrefix + NotConfigured])
      && (configured && answer.Err? ==> r.errors == s.errors + [ErrorPrefix + answer.message])
      && (Replied(s, configured, llm) && Decoding(s, configured, llm, decode).NotAnObject? ==>
            r.errors == s.errors + [ErrorPrefix + NotSubscriptable(Decoding(s, configured, llm, decode).typeName)])
      && (Replied(s, configured, llm) ==>
            var reply := Reply(s, configured, llm, decode);
            && (reply.topicMapping.None? && (AnyTopic(s.extractedTopics) || reply.consolidatedTopics.Some?) ==>
                  r.errors == s.errors + [ErrorPrefix + MissingKey("topic_mapping")])
            && (reply.consolidatedTopics.None? && (reply.topicMapping.Some? || !AnyTopic(s.extractedTopics)) ==>
                  r.errors == s.errors + [ErrorPrefix + MissingKey("consolidated_topics")]))
  {
    ConsolidationFailsWith(s, configured, llm, decode);
    FailedRecordsFailure(s, ErrorPrefix, FailureMessage(s, configured, llm, decode), ConsolidationFailed);
  }

  /** The message of the stage's failure entry: the first of its conditions that goes wrong. */
  ghost function FailureMessage(s: State, configured: bool, llm: Llm, decode: Decoder): string
    requires Iterable(s.extractedTopics)
  {
    var answer := llm(TopicsText(Totals(s.extractedTopics)));
    if !configured then NotConfigured
    else if answer.Err? then answer.message
    else if decode(StripCodeFence(answer.value)).NotAnObject? then NotSubscriptable(decode(StripCodeFence(answer.value)).typeName)
    else
      var reply := ParseReply(decode, answer.value);
      if reply.topicMapping.None? && AnyTopic(s.extractedTopics) then MissingKey("topic_mapping")
      else if reply.consolidatedTopics.None? then MissingKey("consolidated_topics")
      else MissingKey("topic_mapping")
  }

  /** Off the fallback and the model's consolidation, the stage's result is its failure with `FailureMessage`. */
  lemma ConsolidationFailsWith(s: State, configured: bool, llm: Llm, decode: Decoder)
    requires Iterable(s.extractedTopics)
    requires !FallsBack(s, configured, llm, decode) && !UsesReply(s, configured, llm, decode)
    ensures Consolidation(s, configured, llm, decode) == Failed(s, ErrorPrefix, FailureMessage(s, configured, llm, decode), ConsolidationFailed)
  {
  }

  /** The inner `defaultdict` loop: add each topic's count of `day` to its label in `acc`. */
  method Tally(acc: Counts, day: Counts, relabel: Topic -> Topic) returns (r: Counts)
    requires HasValues(day)
    ensures r == Regroup(acc, day, |day.order|, relabel)
  {
    r := acc;
    for j := 0 to |day.order|
      invariant r == Regroup(acc, day, j, relabel)
    {
      var topic := day.order[j];
      r := Add(r, relabel(topic), day.at[topic]);
    }
  }

  /** The aggregation loop of lines 18-25: `topic_frequencies`. */
  method AggregateTopics(extracted: Daily) returns (totals: Counts)
    requires Iterable(extracted)
    ensures totals == Totals(extracted)
  {
    totals := Empty();
    for i := 0 to |extracted.order|
      invariant totals == Aggregate(extracted, i)
    {
      AggregateNext(extracted, i);
      totals := Tally(totals, extracted.at[extracted.order[i]], Itself);
    }
  }

  /** One more date of the aggregation is one more pass of the tally. */
  lemma AggregateNext(extracted: Daily, i: nat)
    requires Iterable(extracted) && i < |extracted.order|
    ensures var day := extracted.at[extracted.order[i]];
      HasValues(day) && Aggregate(extracted, i + 1) == Regroup(Aggregate(extracted, i), day, |day.order|, Itself)
  {
    assert HasValues(extracted.at[extracted.order[i]]);
  }

  /** The list comprehension behind `topics_text`. */
  method BuildTopicsText(totals: Counts) returns (text: string)
    requires HasValues(totals)
    ensures text == TopicsText(totals)
  {
    var lines: seq<string> := [];
    for i := 0 to |totals.order|
      invariant lines == PositiveLines(totals, i)
    {
      var topic := totals.order[i];
      var freq := totals.at[topic];
      if freq > 0 {
        lines := lines + [Entry(topic, freq)];
      }
    }
    text := Join(", ", lines);
  }

  /**
   * The remapping loop of lines 107-121 over `extracted_topics`. `mapping` is
   * `consolidation_result['topic_mapping']`, or the exception that lookup
   * raises; the lookup is made at every topic, so the exception surfaces at the
   * first topic met.
   */
  method RemapAllDates(extracted: Daily, mapping: Result<Dict<Topic, Topic>>) returns (res: Result<Daily>)
    requires Iterable(extracted)
    ensures res == if mapping.Err? && AnyTopic(extracted) then Err(mapping.message)
                   else Ok(RemapDates(extracted, LabelOf(mapping.GetOr(Empty())), |extracted.order|))
  {
    var relabel := LabelOf(mapping.GetOr(Empty()));
    var daily: Daily := Empty();
    for i := 0 to |extracted.order|
      invariant daily == RemapDates(extracted, relabel, i)
      invariant mapping.Err? ==> !TopicBefore(extracted, i)
    {
      var step := RemapDate(extracted, mapping, relabel, daily, i);
      if step.Err? {
        TopicAt(extracted, i);
        return step;
      }
      daily := step.value;
    }
    res := Ok(daily);
  }

  /**
   * The body of the remapping loop for the `i`-th date: a failing lookup of the
   * mapping raises at its first topic, otherwise `consolidated_daily[date]` gets
   * its counts re-labelled.
   */
  method RemapDate(extracted: Daily, mapping: Result<Dict<Topic, Topic>>, relabel: Topic -> Topic, daily: Daily, i: nat)
    returns (next: Result<Daily>)
    requires Iterable(extracted) && i < |extracted.order|
    requires daily == RemapDates(extracted, relabel, i)
    ensures next.Err? <==> mapping.Err? && extracted.at[extracted.order[i]].order != []
    ensures next.Err? ==> next == Err(mapping.message)
    ensures next.Ok? ==> next.value == RemapDates(extracted, relabel, i + 1)
  {
    var date := extracted.order[i];
    var topics := extracted.at[date];
    if mapping.Err? && topics.order != [] {
      return Err(mapping.message);
    }
    var consolidatedDaily := Tally(Empty(), topics, relabel);
    RemapDatesNext(extracted, relabel, i);
    next := Ok(Put(daily, date, consolidatedDaily));
  }

  /** One more date: its counts re-labelled are stored under it. */
  lemma RemapDatesNext(m: Daily, relabel: Topic -> Topic, i: nat)
    requires Iterable(m) && i < |m.order|
    ensures RemapDates(m, relabel, i + 1) == Put(RemapDates(m, relabel, i), m.order[i], RemapDay(m.at[m.order[i]], relabel))
  {
    assert HasValues(m.at[m.order[i]]);
  }

  /** Some one of the first `n` dates has a topic. */
  predicate TopicBefore(m: Daily, n: nat)
    requires HasValues(m) && n <= |m.order|
  {
    n > 0 && (TopicBefore(m, n - 1) || m.at[m.order[n - 1]].order != [])
  }

  /** `TopicBefore` is the search for a date with a topic among the first `n`. */
  lemma {:induction false} TopicBeforeSpec(m: Daily, n: nat)
    requires HasValues(m) && n <= |m.order|
    ensures TopicBefore(m, n) <==> exists j :: 0 <= j < n && m.at[m.order[j]].order != []
  {
    if n > 0 {
      TopicBeforeSpec(m, n - 1);
    }
  }

  /** `AnyTopic` holds exactly when some date has a topic. */
  lemma AnyTopicSpec(m: Daily)
    requires HasValues(m)
    ensures AnyTopic(m) <==> exists i :: 0 <= i < |m.order| && m.at[m.order[i]].order != []
  {
    TopicBeforeSpec(m, |m.order|);
  }

  /** A date with a topic makes `AnyTopic` hold. */
  lemma TopicAt(m: Daily, i: nat)
    requires HasValues(m) && i < |m.order| && m.at[m.order[i]].order != []
    ensures AnyTopic(m)
  {
    TopicBeforeSpec(m, |m.order|);
  }

  /** The fallback loop of lines 131-134. */
  method BuildFallback(totals: Counts) returns (kept: Counts, identity: Dict<Topic, Topic>)
    requires HasValues(totals)
    ensures kept == KeepPositive(totals, |totals.order|)
    ensures identity == IdentityOn(totals, |totals.order|)
  {
    kept, identity := Empty(), Empty();
    for i := 0 to |totals.order|
      invariant kept == KeepPositive(totals, i)
      invariant identity == IdentityOn(totals, i)
    {
      var topic := totals.order[i];
      var freq := totals.at[topic];
      if freq > 0 {
        kept := Put(kept, topic, freq);
        identity := Put(identity, topic, topic);
      }
    }
  }

  /** `topic_consolidation_node` as written, step by step. */
  method ConsolidateTopics(s: State, configured: bool, llm: Llm, decode: Decoder) returns (r: State)
    requires Iterable(s.extractedTopics)
    ensures r == Consolidation(s, configured, llm, decode)
  {
    var m := s.extractedTopics;
    var totals := AggregateTopics(m);
    var topicsText := BuildTopicsText(totals);
    if !configured {
      return Failed(s, ErrorPrefix, NotConfigured, ConsolidationFailed);
    }
    var answer := llm(topicsText);
    if answer.Err? {
      return Failed(s, ErrorPrefix, answer.message, ConsolidationFailed);
    }
    var decoded := decode(StripCodeFence(answer.value));
    var reply := if decoded.Object? then decoded.reply else EmptyReply;
    // `consolidation_result['topic_mapping']`, made at every topic of the loop
    var mapping: Result<Dict<Topic, Topic>> :=
      if decoded.NotAnObject? then Err(NotSubscriptable(decoded.typeName))
      else if reply.topicMapping.None? then Err(MissingKey("topic_mapping"))
      else Ok(reply.topicMapping.value);
    var remapped := RemapAllDates(m, mapping);
    if remapped.Err? {
      return Failed(s, ErrorPrefix, remapped.message, ConsolidationFailed);
    }
    if decoded.NotAnObject? {
      return Failed(s, ErrorPrefix, NotSubscriptable(decoded.typeName), ConsolidationFailed);
    }
    if reply.consolidatedTopics.None? {
      return Failed(s, ErrorPrefix, MissingKey("consolidated_topics"), ConsolidationFailed);
    }
    if reply.consolidatedTopics.value.order == [] {
      var kept, identity := BuildFallback(totals);
      var fallbackDaily := RemapAllDates(m, Ok(identity));
      return Consolidated(s, kept, identity, fallbackDaily.value);
    }
    if reply.topicMapping.None? {
      return Failed(s, ErrorPrefix, MissingKey("topic_mapping"), ConsolidationFailed);
    }
    r := Consolidated(s, reply.consolidatedTopics.value, reply.topicMapping.value, remapped.value);
  }
}
