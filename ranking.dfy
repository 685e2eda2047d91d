/** Ranking of correlation scores: the dict merge, the stable sort by
    absolute value, the `top_features`/`low_features` slices, `_top_k` with
    its direction and strength labels, and the category-plot selection. */
module Ranking {
  import opened Py

  /** A `{feature: score}` dict, in insertion order. */
  type Scores = seq<(string, real)>

  function Abs(x: real): real { if x < 0.0 then -x else x }

  function Keys(d: Scores): (r: seq<string>)
    ensures |r| == |d| && forall i :: 0 <= i < |d| ==> r[i] == d[i].0
  {
    seq(|d|, i requires 0 <= i < |d| => d[i].0)
  }

  /** What a Python dict guarantees: each key once. */
  predicate DistinctKeys(d: Scores)
  {
    forall i, j :: 0 <= i < j < |d| ==> d[i].0 != d[j].0
  }

  /** `d.get(key)` */
  function Lookup(d: Scores, key: string): (r: Option<real>)
    ensures r.None? <==> key !in Keys(d)
  {
    if d == [] then None
    else if d[0].0 == key then Some(d[0].1)
    else (assert Keys(d[1..]) == Keys(d)[1..]; Lookup(d[1..], key))
  }

  lemma {:induction false} LookupFinds(d: Scores, i: int)
    requires DistinctKeys(d) && 0 <= i < |d|
    ensures Lookup(d, d[i].0) == Some(d[i].1)
  {
    if i > 0 {
      LookupFinds(d[1..], i - 1);
    }
  }

  // ------------------------------------------------------------- merging

  /** `{**a, **b}`: a's keys in a's order carrying b's value where b has
      the key, then b's other keys in b's order. */
  function Merge(a: Scores, b: Scores): Scores
  {
    Overlay(a, b) + Without(b, Keys(a))
  }

  function Overlay(a: Scores, b: Scores): (r: Scores)
    ensures |r| == |a|
    ensures forall i :: 0 <= i < |a| ==> r[i].0 == a[i].0
  {
    seq(|a|, i requires 0 <= i < |a| =>
      match Lookup(b, a[i].0)
      case Some(v) => (a[i].0, v)
      case None => a[i])
  }

  /** The entries of `d` whose key is not among `keys`, in order. */
  function Without(d: Scores, keys: seq<string>): (r: Scores)
    ensures forall e :: e in r ==> e in d && e.0 !in keys
    ensures forall e :: e in d && e.0 !in keys ==> e in r
  {
    if d == [] then []
    else (if d[0].0 in keys then [] else [d[0]]) + Without(d[1..], keys)
  }

  lemma {:induction false} WithoutDistinct(d: Scores, keys: seq<string>)
    requires DistinctKeys(d)
    ensures DistinctKeys(Without(d, keys))
  {
    if d != [] {
      WithoutDistinct(d[1..], keys);
      var rest := Without(d[1..], keys);
      if d[0].0 !in keys {
        forall j | 0 <= j < |rest| ensures rest[j].0 != d[0].0 {
          assert rest[j] in d[1..];
          var t :| 0 <= t < |d[1..]| && d[1..][t] == rest[j];
          assert d[t + 1] == rest[j];
        }
        assert Without(d, keys) == [d[0]] + rest;
      } else {
        assert Without(d, keys) == rest;
      }
    }
  }

  lemma MergeKeysDistinct(a: Scores, b: Scores)
    requires DistinctKeys(a) && DistinctKeys(b)
    ensures DistinctKeys(Merge(a, b))
    ensures Keys(Merge(a, b)) == Keys(a) + Keys(Without(b, Keys(a)))
  {
    var o := Overlay(a, b);
    var w := Without(b, Keys(a));
    WithoutDistinct(b, Keys(a));
    assert Keys(o) == Keys(a);
    var m := Merge(a, b);
    forall i, j | 0 <= i < j < |m| ensures m[i].0 != m[j].0 {
      if j < |o| {
      } else if i >= |o| {
        assert m[i] == w[i - |o|] && m[j] == w[j - |o|];
      } else {
        assert m[j] == w[j - |o|];
        assert m[j] in w;
      }
    }
    assert Keys(m) == Keys(o) + Keys(w);
  }

  lemma MergeHasBothKeys(a: Scores, b: Scores, key: string)
    requires DistinctKeys(a) && DistinctKeys(b)
    ensures key in Keys(Merge(a, b)) <==> key in Keys(a) || key in Keys(b)
  {
    var w := Without(b, Keys(a));
    MergeKeysDistinct(a, b);
    if key in Keys(w) {
      var i :| 0 <= i < |w| && w[i].0 == key;
      assert w[i] in b;
    }
    if key in Keys(b) && key !in Keys(a) {
      var j :| 0 <= j < |b| && b[j].0 == key;
      assert b[j] in w;
    }
  }

  lemma MergeLookup(a: Scores, b: Scores, key: string)
    requires DistinctKeys(a) && DistinctKeys(b)
    ensures Lookup(Merge(a, b), key) == if key in Keys(b) then Lookup(b, key) else Lookup(a, key)
  {
    if key in Keys(a) {
      MergeLookupLeft(a, b, key);
    } else if key in Keys(b) {
      MergeLookupRight(a, b, key);
    } else {
      MergeHasBothKeys(a, b, key);
    }
  }

  /** A key of the left-hand side keeps its place and takes b's value if b has it. */
  lemma MergeLookupLeft(a: Scores, b: Scores, key: string)
    requires DistinctKeys(a) && DistinctKeys(b) && key in Keys(a)
    ensures Lookup(Merge(a, b), key) == if key in Keys(b) then Lookup(b, key) else Lookup(a, key)
  {
    var m := Merge(a, b);
    MergeKeysDistinct(a, b);
    var i :| 0 <= i < |a| && a[i].0 == key;
    assert m[i] == Overlay(a, b)[i];
    LookupFinds(m, i);
    LookupFinds(a, i);
  }

  /** A key only the right-hand side has comes from b's tail. */
  lemma MergeLookupRight(a: Scores, b: Scores, key: string)
    requires DistinctKeys(a) && DistinctKeys(b) && key !in Keys(a) && key in Keys(b)
    ensures Lookup(Merge(a, b), key) == Lookup(b, key)
  {
    var o := Overlay(a, b);
    var w := Without(b, Keys(a));
    var m := Merge(a, b);
    MergeKeysDistinct(a, b);
    var j :| 0 <= j < |b| && b[j].0 == key;
    assert b[j] in w;
    var k :| 0 <= k < |w| && w[k] == b[j];
    assert m[|o| + k] == b[j];
    LookupFinds(m, |o| + k);
    LookupFinds(b, j);
  }

  /** The merged dict has each key once, holds exactly the keys of both,
      and the right-hand side wins on a key both have. */
  lemma MergeSemantics(a: Scores, b: Scores, key: string)
    requires DistinctKeys(a) && DistinctKeys(b)
    ensures DistinctKeys(Merge(a, b))
    ensures key in Keys(Merge(a, b)) <==> key in Keys(a) || key in Keys(b)
    ensures Lookup(Merge(a, b), key) == if key in Keys(b) then Lookup(b, key) else Lookup(a, key)
  {
    MergeKeysDistinct(a, b);
    MergeHasBothKeys(a, b, key);
    MergeLookup(a, b, key);
  }

  /** Without a shared key the merge is plain concatenation. */
  lemma MergeDisjoint(a: Scores, b: Scores)
    requires forall k :: k in Keys(a) ==> k !in Keys(b)
    ensures Merge(a, b) == a + b
  {
    assert Overlay(a, b) == a;
    WithoutAll(b, Keys(a));
  }

  lemma {:induction false} WithoutAll(d: Scores, keys: seq<string>)
    requires forall k :: k in keys ==> k !in Keys(d)
    ensures Without(d, keys) == d
  {
    if d != [] {
      assert Keys(d[1..]) == Keys(d)[1..];
      WithoutAll(d[1..], keys);
    }
  }

  /** `d.pop(key, None)` on a copy, or `{k: v for k, v in d.items() if k != key}`. */
  function Remove(d: Scores, key: string): (r: Scores)
    ensures key !in Keys(r)
    ensures forall e :: e in r <==> e in d && e.0 != key
  {
    Without(d, [key])
  }

  // ------------------------------------------------------------- sorting

  predicate Descending(s: Scores)
  {
    forall i, j :: 0 <= i < j < |s| ==> Abs(s[i].1) >= Abs(s[j].1)
  }

  /** Places `x` after every entry at least as large in magnitude: `x`
      came later in the input, so ties keep their input order. */
  function Insert(x: (string, real), s: Scores): (r: Scores)
    ensures |r| == |s| + 1
  {
    if s == [] then [x]
    else if Abs(s[0].1) >= Abs(x.1) then [s[0]] + Insert(x, s[1..])
    else [x] + s
  }

  /** `sorted(d.items(), key=lambda kv: abs(kv[1]), reverse=True)`, a
      stable sort. */
  function SortByAbs(s: Scores): (r: Scores)
    ensures |r| == |s|
  {
    if s == [] then [] else Insert(s[|s| - 1], SortByAbs(s[..|s| - 1]))
  }

  /** The entries of magnitude `m`, in order. */
  function Tier(s: Scores, m: real): Scores
  {
    if s == [] then [] else (if Abs(s[0].1) == m then [s[0]] else []) + Tier(s[1..], m)
  }

  lemma {:induction false} TierAppend(a: Scores, b: Scores, m: real)
    ensures Tier(a + b, m) == Tier(a, m) + Tier(b, m)
  {
    if a != [] {
      assert (a + b)[1..] == a[1..] + b;
      TierAppend(a[1..], b, m);
    } else {
      assert a + b == b;
    }
  }

  lemma {:induction false} InsertCount(x: (string, real), s: Scores)
    ensures multiset(Insert(x, s)) == multiset(s) + multiset{x}
  {
    if s != [] && Abs(s[0].1) >= Abs(x.1) {
      InsertCount(x, s[1..]);
      assert s == [s[0]] + s[1..];
    }
  }

  lemma {:induction false} InsertDescending(x: (string, real), s: Scores)
    requires Descending(s)
    ensures Descending(Insert(x, s))
  {
    if s != [] && Abs(s[0].1) >= Abs(x.1) {
      InsertDescending(x, s[1..]);
      var r := Insert(x, s[1..]);
      InsertCount(x, s[1..]);
      forall j | 0 <= j < |r| ensures Abs(s[0].1) >= Abs(r[j].1) {
        assert r[j] in multiset(r);
        if r[j] != x {
          assert r[j] in s[1..];
        }
      }
    }
  }

  lemma {:induction false} InsertTier(x: (string, real), s: Scores, m: real)
    requires Descending(s)
    ensures Tier(Insert(x, s), m) == Tier(s, m) + Tier([x], m)
  {
    if s == [] {
    } else if Abs(s[0].1) >= Abs(x.1) {
      InsertTier(x, s[1..], m);
      var r := Insert(x, s[1..]);
      assert Tier([s[0]] + r, m) == Tier([s[0]], m) + Tier(r, m) by { TierAppend([s[0]], r, m); }
      assert s == [s[0]] + s[1..];
      assert Tier(s, m) == Tier([s[0]], m) + Tier(s[1..], m) by { TierAppend([s[0]], s[1..], m); }
    } else {
      assert Tier([x] + s, m) == Tier([x], m) + Tier(s, m) by { TierAppend([x], s, m); }
      if Abs(x.1) == m {
        TierBelow(s, m);
      }
    }
  }

  /** A sorted list whose head is below `m` has no entry of magnitude `m`. */
  lemma {:induction false} TierBelow(s: Scores, m: real)
    requires Descending(s) && s != [] && Abs(s[0].1) < m
    ensures Tier(s, m) == []
  {
    if |s| > 1 {
      TierBelow(s[1..], m);
    }
  }

  /** The sort orders by magnitude, keeps every entry, and keeps the input
      order of entries of equal magnitude. */
  lemma {:induction false} SortByAbsCorrect(s: Scores, m: real)
    ensures Descending(SortByAbs(s))
    ensures multiset(SortByAbs(s)) == multiset(s)
    ensures Tier(SortByAbs(s), m) == Tier(s, m)
  {
    if s != [] {
      var init := s[..|s| - 1];
      var x := s[|s| - 1];
      SortByAbsCorrect(init, m);
      InsertCount(x, SortByAbs(init));
      InsertDescending(x, SortByAbs(init));
      InsertTier(x, SortByAbs(init), m);
      assert s == init + [x];
      TierAppend(init, [x], m);
    }
  }

  /** Sorting an already sorted list changes nothing. */
  lemma {:induction false} SortSortedIsIdentity(s: Scores)
    requires Descending(s)
    ensures SortByAbs(s) == s
  {
    if s != [] {
      var init := s[..|s| - 1];
      var x := s[|s| - 1];
      SortSortedIsIdentity(init);
      InsertAtEnd(x, init);
      assert s == init + [x];
    }
  }

  lemma {:induction false} InsertAtEnd(x: (string, real), s: Scores)
    requires forall i :: 0 <= i < |s| ==> Abs(s[i].1) >= Abs(x.1)
    ensures Insert(x, s) == s + [x]
  {
    if s != [] {
      InsertAtEnd(x, s[1..]);
    }
  }

  lemma SortKeepsKeys(s: Scores)
    ensures forall e :: e in SortByAbs(s) <==> e in s
  {
    SortByAbsCorrect(s, 0.0);
    assert forall e :: e in SortByAbs(s) <==> e in multiset(SortByAbs(s));
  }

  // ------------------------------------------------------------ insights

  /** One record of the `insights` list. */
  datatype Insight = TopFeatures(items: Scores) | LowFeatures(items: Scores) | Note(text: string)

  /** `insights` in the current pipeline: the merged scores sorted, positions
      1 to 3 as top features, the last min(5, n) as low features, and a
      single note when there is no score at all. */
  function Insights(numeric: Scores, categorical: Scores): seq<Insight>
  {
    var merged := Merge(numeric, categorical);
    if merged == [] then [Note("No correlations available.")]
    else
      var sorted := SortByAbs(merged);
      var low := if |sorted| >= 5 then Drop(sorted, -5) else Drop(sorted, -|sorted|);
      [TopFeatures(Slice(sorted, 1, 4)), LowFeatures(low)]
  }

  /** `insights` in the older pipeline: the same slices, with no guard. */
  function LegacyInsights(numeric: Scores, categorical: Scores): seq<Insight>
  {
    var sorted := SortByAbs(Merge(numeric, categorical));
    [TopFeatures(Slice(sorted, 1, 4)), LowFeatures(Drop(sorted, -5))]
  }

  /** The top features skip the strongest entry and are the next three at
      most; the low features are the last min(5, n); an empty merge gives
      the note. */
  lemma InsightSlices(numeric: Scores, categorical: Scores)
    ensures var merged := Merge(numeric, categorical);
      var sorted := SortByAbs(merged); var n := |merged|;
      var r := Insights(numeric, categorical);
      && (n == 0 ==> r == [Note("No correlations available.")])
      && (n > 0 ==>
            && r == [TopFeatures(r[0].items), LowFeatures(r[1].items)]
            && r[0].items == sorted[1..Min(4, n)]
            && |r[0].items| == Min(3, n - 1)
            && r[1].items == sorted[n - Min(5, n)..])
  {
    var merged := Merge(numeric, categorical);
    var sorted := SortByAbs(merged);
    if sorted != [] {
      if |sorted| >= 5 {
        DropLast(sorted, 5);
      } else {
        DropLast(sorted, |sorted|);
      }
    }
  }

  /** The two pipelines agree whenever there is a score; with none, the
      older one returns two empty lists instead of the note. */
  lemma InsightsDrift(numeric: Scores, categorical: Scores)
    ensures Merge(numeric, categorical) != [] ==> LegacyInsights(numeric, categorical) == Insights(numeric, categorical)
    ensures Merge(numeric, categorical) == [] ==>
      && LegacyInsights(numeric, categorical) == [TopFeatures([]), LowFeatures([])]
      && Insights(numeric, categorical) == [Note("No correlations available.")]
  {
    SortKeepsKeys(Merge(numeric, categorical));
  }

  // ---------------------------------------------------------------- _top_k

  datatype Direction = Positive | Negative
  datatype Strength = Strong | Moderate | Weak

  /** One `{feature, corr, direction, strength}` record of `_top_k`. */
  datatype Driver = Driver(feature: string, corr: real, direction: Direction, strength: Strength)

  function DirectionOf(v: real): Direction { if v > 0.0 then Positive else Negative }

  function StrengthOf(v: real): Strength
  {
    if Abs(v) >= 0.5 then Strong else if Abs(v) >= 0.3 then Moderate else Weak
  }

  /** The labels by threshold, both ways: a zero score is "negative". */
  lemma LabelThresholds(v: real)
    ensures DirectionOf(v) == Positive <==> v > 0.0
    ensures DirectionOf(0.0) == Negative
    ensures StrengthOf(v) == Strong <==> Abs(v) >= 0.5
    ensures StrengthOf(v) == Moderate <==> 0.3 <= Abs(v) < 0.5
    ensures StrengthOf(v) == Weak <==> Abs(v) < 0.3
  {
  }

  /** `_top_k(d, k)` */
  function TopK(d: Scores, k: int): (r: seq<Driver>)
  {
    var top := Take(SortByAbs(d), k);
    seq(|top|, i requires 0 <= i < |top| =>
      Driver(top[i].0, top[i].1, DirectionOf(top[i].1), StrengthOf(top[i].1)))
  }

  /** At most k records, each an entry of the dict, ordered by magnitude,
      labelled by its score; the strongest entries are the ones kept. */
  lemma TopKCorrect(d: Scores, k: int)
    requires k >= 0
    ensures var r := TopK(d, k);
      && |r| == Min(k, |d|)
      && (forall i :: 0 <= i < |r| ==> (r[i].feature, r[i].corr) in d)
      && (forall i, j :: 0 <= i < j < |r| ==> Abs(r[i].corr) >= Abs(r[j].corr))
      && (forall i :: 0 <= i < |r| ==> r[i].direction == DirectionOf(r[i].corr) && r[i].strength == StrengthOf(r[i].corr))
      && (forall i, j :: 0 <= i < |r| <= j < |d| ==> Abs(r[i].corr) >= Abs(SortByAbs(d)[j].1))
  {
    SortKeepsKeys(d);
    SortByAbsCorrect(d, 0.0);
    var s := SortByAbs(d);
    TakeFirst(s, k);
    forall i | 0 <= i < Min(k, |d|) ensures (s[i].0, s[i].1) in d {
      assert s[i] in s;
    }
  }

  /** `_top_k` after the target's own entry is removed never mentions the
      target. */
  lemma TopKWithoutTarget(d: Scores, target: string, k: int)
    requires k >= 0
    ensures forall i :: 0 <= i < |TopK(Remove(d, target), k)| ==> TopK(Remove(d, target), k)[i].feature != target
  {
    TopKCorrect(Remove(d, target), k);
  }

  // ----------------------------------------------------- plot selection

  /** `list(corr_cat.abs().sort_values(ascending=False).index)[:3]` */
  function PlotColumns(corr: Scores): seq<string>
  {
    var mags := seq(|corr|, i requires 0 <= i < |corr| => (corr[i].0, Abs(corr[i].1)));
    Take(Keys(SortByAbs(mags)), 3)
  }

  /** At most three columns are plotted, and at least one when there is a score. */
  lemma PlotColumnsCount(corr: Scores)
    ensures |PlotColumns(corr)| == Min(3, |corr|)
  {
    var mags := seq(|corr|, i requires 0 <= i < |corr| => (corr[i].0, Abs(corr[i].1)));
    TakeFirst(Keys(SortByAbs(mags)), 3);
  }

  /** The categorical scores arrive sorted, so the plotted columns are simply
      their first three keys. */
  lemma PlotColumnsOfSorted(corr: Scores)
    requires Descending(corr)
    ensures PlotColumns(corr) == Take(Keys(corr), 3)
    ensures |PlotColumns(corr)| == Min(3, |corr|)
  {
    var mags := seq(|corr|, i requires 0 <= i < |corr| => (corr[i].0, Abs(corr[i].1)));
    assert Descending(mags);
    SortSortedIsIdentity(mags);
    assert Keys(mags) == Keys(corr);
    TakeFirst(Keys(corr), 3);
  }
}
