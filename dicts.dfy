/**
 * Python dictionaries as the pipeline uses them: insertion-ordered, one value
 * per key. `Put` is `d[k] = v` (an existing key keeps its place, a new key goes
 * last) and `Add` is the `defaultdict(int)` update `d[k] += n`.
 */
module Dicts {
  import opened Wrappers

  /**
   * The keys of a dictionary in insertion order, and the value stored at each
   * key. Every dictionary built from `Empty` by `Put` and `Add` is `WellFormed`
   * (`PutWellFormed`); the lemmas that need it say so.
   */
  datatype Dict<K, V> = Dict(order: seq<K>, at: map<K, V>)

  predicate Distinct<K(==)>(s: seq<K>) {
    forall i, j :: 0 <= i < j < |s| ==> s[i] != s[j]
  }

  /** Every listed key holds a value: what iterating over `d.items()` needs. */
  predicate HasValues<K, V>(e: Dict<K, V>) {
    forall i :: 0 <= i < |e.order| ==> e.order[i] in e.at
  }

  /** No key is listed twice and the order lists exactly the keys that hold a value. */
  predicate WellFormed<K, V>(e: Dict<K, V>) {
    && Distinct(e.order)
    && (forall k :: k in e.at ==> k in e.order)
    && HasValues(e)
  }

  function Empty<K, V>(): Dict<K, V> {
    Dict([], map[])
  }

  /** `d.get(k)` */
  function Get<K, V>(d: Dict<K, V>, k: K): Option<V> {
    if k in d.at then Some(d.at[k]) else None
  }

  /** `d.get(k, 0)` on a dictionary of counts. */
  function Count<K>(d: Dict<K, int>, k: K): int {
    if k in d.at then d.at[k] else 0
  }

  /** `d[k] = v`: a listed key keeps its place, a new key goes last. */
  function Put<K, V>(d: Dict<K, V>, k: K, v: V): (r: Dict<K, V>)
  {
    Dict(if k in d.order then d.order else d.order + [k], d.at[k := v])
  }

  /** `d[k] += n` on a `defaultdict(int)`. */
  function Add<K>(d: Dict<K, int>, k: K, n: int): (r: Dict<K, int>)
    ensures r.order == if k in d.order then d.order else d.order + [k]
  {
    Put(d, k, Count(d, k) + n)
  }

  /** `d[k] = v` leaves no listed key without a value. */
  lemma {:induction false} PutHasValues<K, V>(d: Dict<K, V>, k: K, v: V)
    requires HasValues(d)
    ensures HasValues(Put(d, k, v))
  {
  }

  /** `d[k] += n` adds `n` to the count of `k` and leaves every other count as it was. */
  lemma {:induction false} AddCount<K>(d: Dict<K, int>, k: K, n: int, j: K)
    ensures Count(Add(d, k, n), j) == Count(d, j) + (if j == k then n else 0)
  {
  }

  /** `d[k] = v` keeps the stored keys exactly the listed ones. */
  lemma {:induction false} PutKeys<K, V>(d: Dict<K, V>, k: K, v: V)
    requires forall x :: x in d.at <==> x in d.order
    ensures forall x :: x in Put(d, k, v).at <==> x in Put(d, k, v).order
  {
  }

  /** Storing one key in two dictionaries that list the same keys keeps them listing the same keys. */
  lemma {:induction false} PutSameOrder<K, V, W>(a: Dict<K, V>, b: Dict<K, W>, k: K, v: V, w: W)
    requires a.order == b.order
    ensures Put(a, k, v).order == Put(b, k, w).order
  {
  }

  /** Storing one key in two dictionaries that store the same keys keeps them storing the same keys. */
  lemma {:induction false} PutSameKeys<K, V, W>(a: Dict<K, V>, b: Dict<K, W>, k: K, v: V, w: W)
    requires forall x :: x in a.at <==> x in b.at
    ensures forall x :: x in Put(a, k, v).at <==> x in Put(b, k, w).at
  {
  }

  lemma EmptyWellFormed<K, V>()
    ensures WellFormed(Empty<K, V>())
  {
  }

  /** `d[k] = v` keeps the keys distinct and in step with the stored values. */
  lemma PutWellFormed<K, V>(d: Dict<K, V>, k: K, v: V)
    requires WellFormed(d)
    ensures WellFormed(Put(d, k, v))
  {
    PutDistinct(d, k, v);
  }

  /** `d[k] += n` keeps a well-formed dictionary well formed. */
  lemma AddWellFormed<K>(d: Dict<K, int>, k: K, n: int)
    requires WellFormed(d)
    ensures WellFormed(Add(d, k, n))
  {
    PutWellFormed(d, k, Count(d, k) + n);
  }

  lemma PutDistinct<K, V>(d: Dict<K, V>, k: K, v: V)
    requires Distinct(d.order)
    ensures Distinct(Put(d, k, v).order)
  {
    if k !in d.order {
      var o := d.order + [k];
      forall i, j | 0 <= i < j < |o|
        ensures o[i] != o[j]
      {
        if j == |d.order| {
          assert o[i] == d.order[i];
        }
      }
    }
  }

  /** The first `n` elements of a sequence are the first `n - 1` and then the `n`-th. */
  lemma {:induction false} TakeLast<T>(s: seq<T>, n: nat)
    requires 0 < n <= |s|
    ensures s[..n] == s[..n - 1] + [s[n - 1]]
    ensures forall x :: x in s[..n] <==> x in s[..n - 1] || x == s[n - 1]
  {
    assert s[..n] == s[..n - 1] + [s[n - 1]];
  }

  /** In a sequence without repeats the `n`-th element is not among the ones before it. */
  lemma {:induction false} DistinctLast<T>(s: seq<T>, n: nat)
    requires Distinct(s) && 0 < n <= |s|
    ensures s[n - 1] !in s[..n - 1]
  {
    var before := s[..n - 1];
    forall j | 0 <= j < |before|
      ensures before[j] != s[n - 1]
    {
      assert before[j] == s[j];
    }
  }

  /** `r[k] = f(v)` for each of the first `n` items `k, v` of `d`, in order, into a fresh dictionary. */
  function MapValues<K, V, W>(d: Dict<K, V>, f: V -> W, n: nat): Dict<K, W>
    requires HasValues(d) && n <= |d.order|
  {
    if n == 0 then Empty() else Put(MapValues(d, f, n - 1), d.order[n - 1], f(d.at[d.order[n - 1]]))
  }

  /** Every key the result lists holds a value. */
  lemma {:induction false} MapValuesHasValues<K, V, W>(d: Dict<K, V>, f: V -> W, n: nat)
    requires HasValues(d) && n <= |d.order|
    ensures HasValues(MapValues(d, f, n))
  {
    if n > 0 {
      var prev := MapValues(d, f, n - 1);
      var k := d.order[n - 1];
      assert MapValues(d, f, n) == Put(prev, k, f(d.at[k]));
      MapValuesHasValues(d, f, n - 1);
      PutHasValues(prev, k, f(d.at[k]));
    }
  }

  /** Over distinct keys, the result lists the first `n` keys of `d` in their order. */
  lemma {:induction false} MapValuesOrder<K, V, W>(d: Dict<K, V>, f: V -> W, n: nat)
    requires HasValues(d) && Distinct(d.order) && n <= |d.order|
    ensures MapValues(d, f, n).order == d.order[..n]
  {
    if n > 0 {
      MapValuesOrder(d, f, n - 1);
      DistinctLast(d.order, n);
      TakeLast(d.order, n);
    }
  }

  /** The result stores a value for exactly the keys it lists. */
  lemma {:induction false} MapValuesKeys<K, V, W>(d: Dict<K, V>, f: V -> W, n: nat)
    requires HasValues(d) && n <= |d.order|
    ensures forall k :: k in MapValues(d, f, n).at <==> k in MapValues(d, f, n).order
  {
    if n > 0 {
      MapValuesKeys(d, f, n - 1);
      PutKeys(MapValues(d, f, n - 1), d.order[n - 1], f(d.at[d.order[n - 1]]));
    }
  }

  /** Each of the first `n` keys holds `f` of its value in `d`. */
  lemma {:induction false} MapValuesValues<K, V, W>(d: Dict<K, V>, f: V -> W, n: nat)
    requires HasValues(d) && n <= |d.order|
    ensures var r := MapValues(d, f, n);
      forall i :: 0 <= i < n ==> d.order[i] in r.at && r.at[d.order[i]] == f(d.at[d.order[i]])
  {
    if n > 0 {
      MapValuesValues(d, f, n - 1);
    }
  }

  /** The result, built by `d[k] = v` from an empty dictionary, is well formed. */
  lemma {:induction false} MapValuesWellFormed<K, V, W>(d: Dict<K, V>, f: V -> W, n: nat)
    requires HasValues(d) && n <= |d.order|
    ensures WellFormed(MapValues(d, f, n))
  {
    if n > 0 {
      MapValuesWellFormed(d, f, n - 1);
      PutWellFormed(MapValues(d, f, n - 1), d.order[n - 1], f(d.at[d.order[n - 1]]));
    }
  }

  /** The sum of the counts stored at `keys`, added up from the front. */
  function SumAt<K>(keys: seq<K>, d: Dict<K, int>): int {
    if keys == [] then 0 else SumAt(keys[..|keys| - 1], d) + Count(d, keys[|keys| - 1])
  }

  /** `sum(d.values())` */
  function Total<K>(d: Dict<K, int>): int {
    SumAt(d.order, d)
  }

  lemma {:induction false} SumAtAppend<K>(keys: seq<K>, k: K, d: Dict<K, int>)
    ensures SumAt(keys + [k], d) == SumAt(keys, d) + Count(d, k)
  {
    assert (keys + [k])[..|keys|] == keys;
  }

  lemma SumAtPrefix<K>(keys: seq<K>, n: nat, d: Dict<K, int>)
    requires 0 < n <= |keys|
    ensures SumAt(keys[..n], d) == SumAt(keys[..n - 1], d) + Count(d, keys[n - 1])
  {
    TakeLast(keys, n);
    SumAtAppend(keys[..n - 1], keys[n - 1], d);
  }

  /** Changing the count of one key changes a sum over distinct keys by the change at that key, if it is listed. */
  lemma {:induction false} SumAtUpdate<K(!new)>(keys: seq<K>, d: Dict<K, int>, d': Dict<K, int>, k: K)
    requires Distinct(keys)
    requires forall j :: j != k ==> Count(d', j) == Count(d, j)
    ensures SumAt(keys, d') == SumAt(keys, d) + (if k in keys then Count(d', k) - Count(d, k) else 0)
  {
    if keys != [] {
      var init := keys[..|keys| - 1];
      var last := keys[|keys| - 1];
      assert keys == init + [last];
      assert Distinct(init);
      SumAtUpdate(init, d, d', k);
      assert last !in init;
      assert k in keys <==> k in init || k == last;
    }
  }

  /** The `defaultdict` update adds exactly `n` to the sum of all counts. */
  lemma TotalAdd<K(!new)>(d: Dict<K, int>, k: K, n: int)
    requires WellFormed(d)
    ensures Total(Add(d, k, n)) == Total(d) + n
  {
    var r := Add(d, k, n);
    SumAtUpdate(d.order, d, r, k);
    if k !in d.at {
      SumAtAppend(d.order, k, r);
    }
  }

  /**
   * The `defaultdict(int)` loops: add each of the first `n` keys of `day`
   * to the count of its label in `acc`.
   */
  function Regroup<K>(acc: Dict<K, int>, day: Dict<K, int>, n: nat, relabel: K -> K): Dict<K, int>
    requires HasValues(day) && n <= |day.order|
  {
    if n == 0 then acc
    else Add(Regroup(acc, day, n - 1, relabel), relabel(day.order[n - 1]), day.at[day.order[n - 1]])
  }

  /** The sum of the counts of those among the first `n` keys of `day` whose label is `l`. */
  function LabelSum<K>(day: Dict<K, int>, n: nat, relabel: K -> K, l: K): int
    requires HasValues(day) && n <= |day.order|
  {
    if n == 0 then 0
    else LabelSum(day, n - 1, relabel, l) + (if relabel(day.order[n - 1]) == l then day.at[day.order[n - 1]] else 0)
  }

  /** Regrouping adds to each label exactly the counts of the keys that carry it. */
  lemma {:induction false} RegroupCount<K>(acc: Dict<K, int>, day: Dict<K, int>, n: nat, relabel: K -> K, l: K)
    requires HasValues(day) && n <= |day.order|
    ensures Count(Regroup(acc, day, n, relabel), l) == Count(acc, l) + LabelSum(day, n, relabel, l)
  {
    if n > 0 {
      var prev := Regroup(acc, day, n - 1, relabel);
      var t := day.order[n - 1];
      assert Regroup(acc, day, n, relabel) == Add(prev, relabel(t), day.at[t]);
      assert LabelSum(day, n, relabel, l) == LabelSum(day, n - 1, relabel, l) + (if relabel(t) == l then day.at[t] else 0);
      RegroupCount(acc, day, n - 1, relabel, l);
      AddCount(prev, relabel(t), day.at[t], l);
    }
  }

  /** Regrouping keeps every listed key's value. */
  lemma {:induction false} RegroupHasValues<K>(acc: Dict<K, int>, day: Dict<K, int>, n: nat, relabel: K -> K)
    requires HasValues(day) && n <= |day.order| && HasValues(acc)
    ensures HasValues(Regroup(acc, day, n, relabel))
  {
    if n > 0 {
      var prev := Regroup(acc, day, n - 1, relabel);
      var t := day.order[n - 1];
      var v := Count(prev, relabel(t)) + day.at[t];
      assert Regroup(acc, day, n, relabel) == Put(prev, relabel(t), v);
      RegroupHasValues(acc, day, n - 1, relabel);
      PutHasValues(prev, relabel(t), v);
    }
  }

  /** Regrouping keeps a dictionary well formed. */
  lemma {:induction false} RegroupWellFormed<K>(acc: Dict<K, int>, day: Dict<K, int>, n: nat, relabel: K -> K)
    requires HasValues(day) && n <= |day.order| && WellFormed(acc)
    ensures WellFormed(Regroup(acc, day, n, relabel))
  {
    if n > 0 {
      RegroupWellFormed(acc, day, n - 1, relabel);
      RegroupStepWellFormed(acc, day, n, relabel);
    }
  }

  lemma RegroupStepWellFormed<K>(acc: Dict<K, int>, day: Dict<K, int>, n: nat, relabel: K -> K)
    requires HasValues(day) && 0 < n <= |day.order| && WellFormed(Regroup(acc, day, n - 1, relabel))
    ensures WellFormed(Regroup(acc, day, n, relabel))
  {
    AddWellFormed(Regroup(acc, day, n - 1, relabel), relabel(day.order[n - 1]), day.at[day.order[n - 1]]);
  }

  /** Regrouping adds the regrouped counts to the sum of a well-formed dictionary. */
  lemma {:induction false} RegroupTotal<K(!new)>(acc: Dict<K, int>, day: Dict<K, int>, n: nat, relabel: K -> K)
    requires HasValues(day) && n <= |day.order| && WellFormed(acc)
    ensures Total(Regroup(acc, day, n, relabel)) == Total(acc) + SumAt(day.order[..n], day)
  {
    if n > 0 {
      RegroupTotal(acc, day, n - 1, relabel);
      RegroupStepTotal(acc, day, n, relabel);
      SumAtPrefix(day.order, n, day);
    }
  }

  lemma RegroupStepTotal<K(!new)>(acc: Dict<K, int>, day: Dict<K, int>, n: nat, relabel: K -> K)
    requires HasValues(day) && 0 < n <= |day.order| && WellFormed(acc)
    ensures Total(Regroup(acc, day, n, relabel)) == Total(Regroup(acc, day, n - 1, relabel)) + day.at[day.order[n - 1]]
  {
    RegroupWellFormed(acc, day, n - 1, relabel);
    TotalAdd(Regroup(acc, day, n - 1, relabel), relabel(day.order[n - 1]), day.at[day.order[n - 1]]);
  }

  /** Regrouping a dictionary's distinct keys under labels that leave them as they are rebuilds it key by key. */
  lemma RegroupUnchanged<K>(day: Dict<K, int>, n: nat, relabel: K -> K)
    requires HasValues(day) && Distinct(day.order) && n <= |day.order|
    requires forall i :: 0 <= i < |day.order| ==> relabel(day.order[i]) == day.order[i]
    ensures var r := Regroup(Empty(), day, n, relabel);
      && r.order == day.order[..n]
      && (forall k :: k in r.at <==> k in r.order)
      && (forall k :: k in r.at ==> r.at[k] == day.at[k])
  {
    RegroupUnchangedOrder(day, n, relabel);
    RegroupKeys(Empty(), day, n, relabel);
    RegroupUnchangedValues(day, n, relabel);
  }

  /** Regrouping distinct keys under labels that leave them as they are lists them in their order. */
  lemma {:induction false} RegroupUnchangedOrder<K>(day: Dict<K, int>, n: nat, relabel: K -> K)
    requires HasValues(day) && Distinct(day.order) && n <= |day.order|
    requires forall i :: 0 <= i < |day.order| ==> relabel(day.order[i]) == day.order[i]
    ensures Regroup(Empty(), day, n, relabel).order == day.order[..n]
  {
    if n > 0 {
      RegroupUnchangedOrder(day, n - 1, relabel);
      TakeLast(day.order, n);
      DistinctLast(day.order, n);
    }
  }

  /** Regrouping stores a count for exactly the labels it lists. */
  lemma {:induction false} RegroupKeys<K>(acc: Dict<K, int>, day: Dict<K, int>, n: nat, relabel: K -> K)
    requires HasValues(day) && n <= |day.order|
    requires forall k :: k in acc.at <==> k in acc.order
    ensures forall k :: k in Regroup(acc, day, n, relabel).at <==> k in Regroup(acc, day, n, relabel).order
  {
    if n > 0 {
      RegroupKeys(acc, day, n - 1, relabel);
      var prev := Regroup(acc, day, n - 1, relabel);
      var t := day.order[n - 1];
      PutKeys(prev, relabel(t), Count(prev, relabel(t)) + day.at[t]);
    }
  }

  /** Regrouping distinct keys under labels that leave them as they are keeps each key's count. */
  lemma {:induction false} RegroupUnchangedValues<K>(day: Dict<K, int>, n: nat, relabel: K -> K)
    requires HasValues(day) && Distinct(day.order) && n <= |day.order|
    requires forall i :: 0 <= i < |day.order| ==> relabel(day.order[i]) == day.order[i]
    ensures forall k :: k in Regroup(Empty(), day, n, relabel).at ==>
      k in day.at && Regroup(Empty(), day, n, relabel).at[k] == day.at[k]
  {
    if n > 0 {
      RegroupUnchangedValues(day, n - 1, relabel);
      var prev := Regroup(Empty(), day, n - 1, relabel);
      var t := day.order[n - 1];
      RegroupFresh(day, n, relabel);
      assert relabel(t) == t;
      assert Regroup(Empty(), day, n, relabel) == Add(prev, t, day.at[t]);
      AddFresh(prev, t, day.at[t], day);
    }
  }

  /** The `n`-th of distinct keys is not among the labels the first `n - 1` regroup to, when labels leave keys as they are. */
  lemma RegroupFresh<K>(day: Dict<K, int>, n: nat, relabel: K -> K)
    requires HasValues(day) && Distinct(day.order) && 0 < n <= |day.order|
    requires forall i :: 0 <= i < |day.order| ==> relabel(day.order[i]) == day.order[i]
    ensures day.order[n - 1] !in Regroup(Empty(), day, n - 1, relabel).at
  {
    var r := Regroup(Empty(), day, n - 1, relabel);
    RegroupUnchangedOrder(day, n - 1, relabel);
    DistinctLast(day.order, n);
    assert day.order[n - 1] !in r.order;
    RegroupKeys(Empty(), day, n - 1, relabel);
    assert day.order[n - 1] in r.at <==> day.order[n - 1] in r.order;
  }

  /** Adding a fresh key with its own count to counts taken from `day` keeps them taken from `day`. */
  lemma AddFresh<K>(prev: Dict<K, int>, t: K, c: int, day: Dict<K, int>)
    requires t !in prev.at && t in day.at && c == day.at[t]
    requires forall k :: k in prev.at ==> k in day.at && prev.at[k] == day.at[k]
    ensures forall k :: k in Add(prev, t, c).at ==> k in day.at && Add(prev, t, c).at[k] == day.at[k]
  {
  }
}
