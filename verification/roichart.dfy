/**
 * The Quarterly ROI Analytics chart: ROI metrics grouped by their
 * "quarter year" key in order of first appearance, the last four keys
 * drawn as bars, the last bar highlighted and each bar labelled with its
 * quarter.
 */
module RoiChart {
  import opened Js
  import opened Text

  /** An ROI metric as the chart reads it. */
  datatype Metric = Metric(id: string, quarter: string, year: nat, roi: string)

  /** The template `${quarter} ${year}`. */
  /** `${quarter} ${year}`: the quarter, one space, then the year's digits. */
  function QuarterKey(m: Metric): (r: string)
    ensures m.quarter <= r && |r| > |m.quarter| + 1 && r[|m.quarter|] == ' '
  {
    m.quarter + " " + NatToString(m.year)
  }

  predicate Distinct(keys: seq<string>)
  {
    forall i, j :: 0 <= i < j < |keys| ==> keys[i] != keys[j]
  }

  /** The keys of the metrics, each once, in order of first appearance. */
  function FirstAppearance(ms: seq<Metric>): (r: seq<string>)
    ensures forall k :: k in r <==> exists i :: 0 <= i < |ms| && QuarterKey(ms[i]) == k
    ensures Distinct(r)
  {
    if ms == [] then []
    else
      var init := ms[..|ms| - 1];
      var keys := FirstAppearance(init);
      var key := QuarterKey(ms[|ms| - 1]);
      assert forall i :: 0 <= i < |init| ==> init[i] == ms[i];
      if key in keys then keys else keys + [key]
  }

  /** The metrics with the given key, in input order. */
  function Group(ms: seq<Metric>, key: string): (r: seq<Metric>)
    ensures |r| <= |ms|
    ensures forall i :: 0 <= i < |r| ==> QuarterKey(r[i]) == key
  {
    if ms == [] then []
    else
      var last := ms[|ms| - 1];
      Group(ms[..|ms| - 1], key) + (if QuarterKey(last) == key then [last] else [])
  }

  /**
   * Every metric lands in the group of its own key, as often as it occurs
   * in the input, and in no other group.
   */
  lemma {:induction false} GroupOccurrences(ms: seq<Metric>, m: Metric, key: string)
    ensures CountOf(Group(ms, key), m) == if QuarterKey(m) == key then CountOf(ms, m) else 0
  {
    if ms != [] {
      var init, last := ms[..|ms| - 1], ms[|ms| - 1];
      GroupOccurrences(init, m, key);
      var tail := if QuarterKey(last) == key then [last] else [];
      CountOfAppend(Group(init, key), tail, m);
      assert tail != [] ==> tail[..0] == [];
    }
  }

  /** A key that no metric has has an empty group. */
  lemma {:induction false} GroupOfAbsentKey(ms: seq<Metric>, key: string)
    requires key !in FirstAppearance(ms)
    ensures Group(ms, key) == []
  {
    if ms != [] {
      var init := ms[..|ms| - 1];
      assert forall i :: 0 <= i < |init| ==> init[i] == ms[i];
      GroupOfAbsentKey(init, key);
    }
  }

  /** One more metric adds its key to the key list when the key is new. */
  lemma KeysGrowStep(ms: seq<Metric>, n: nat)
    requires n < |ms|
    ensures var key := QuarterKey(ms[n]);
      FirstAppearance(ms[..n + 1]) == if key in FirstAppearance(ms[..n]) then FirstAppearance(ms[..n]) else FirstAppearance(ms[..n]) + [key]
  {
    assert ms[..n + 1][..n] == ms[..n];
  }

  /** One more metric joins its own key's group and leaves every other group as it was. */
  lemma GroupGrowStep(ms: seq<Metric>, n: nat, key: string)
    requires n < |ms|
    ensures Group(ms[..n + 1], key) == Group(ms[..n], key) + (if QuarterKey(ms[n]) == key then [ms[n]] else [])
  {
    assert ms[..n + 1][..n] == ms[..n];
  }

  /**
   * The dictionary of the metrics: its keys in first-appearance order, and
   * under each key that key's group.
   */
  ghost predicate Grouped(ms: seq<Metric>, keys: seq<string>, groups: map<string, seq<Metric>>)
  {
    && keys == FirstAppearance(ms)
    && (forall k :: k in groups <==> k in keys)
    && (forall k :: k in groups ==> groups[k] == Group(ms, k))
  }

  /** The dictionary built from the first `n` metrics. */
  ghost predicate GroupedPrefix(ms: seq<Metric>, n: nat, keys: seq<string>, groups: map<string, seq<Metric>>)
    requires n <= |ms|
  {
    Grouped(ms[..n], keys, groups)
  }

  /** The key list after one step of the reduce. */
  lemma PushKey(ms: seq<Metric>, n: nat, keys: seq<string>, groups: map<string, seq<Metric>>, keys': seq<string>)
    requires n < |ms| && GroupedPrefix(ms, n, keys, groups)
    requires keys' == (if QuarterKey(ms[n]) in groups then keys else keys + [QuarterKey(ms[n])])
    ensures keys' == FirstAppearance(ms[..n + 1])
  {
    KeysGrowStep(ms, n);
  }

  /** The group under one key after one step of the reduce. */
  lemma PushGroup(ms: seq<Metric>, n: nat, keys: seq<string>, groups: map<string, seq<Metric>>,
                  groups': map<string, seq<Metric>>, k: string)
    requires n < |ms| && GroupedPrefix(ms, n, keys, groups)
    requires var key := QuarterKey(ms[n]);
      && (forall k :: k in groups' <==> k in groups || k == key)
      && groups'[key] == (if key in groups then groups[key] else []) + [ms[n]]
      && (forall k :: k in groups && k != key ==> groups'[k] == groups[k])
    requires k in groups'
    ensures groups'[k] == Group(ms[..n + 1], k)
  {
    GroupGrowStep(ms, n, k);
    if k == QuarterKey(ms[n]) && k !in groups {
      GroupOfAbsentKey(ms[..n], k);
    }
  }

  /** One step of the reduce: metric `n` is pushed onto its key's group, created first when missing. */
  lemma PushMetric(ms: seq<Metric>, n: nat, keys: seq<string>, groups: map<string, seq<Metric>>,
                   keys': seq<string>, groups': map<string, seq<Metric>>)
    requires n < |ms| && GroupedPrefix(ms, n, keys, groups)
    requires var key := QuarterKey(ms[n]);
      && keys' == (if key in groups then keys else keys + [key])
      && (forall k :: k in groups' <==> k in groups || k == key)
      && groups'[key] == (if key in groups then groups[key] else []) + [ms[n]]
      && (forall k :: k in groups && k != key ==> groups'[k] == groups[k])
    ensures GroupedPrefix(ms, n + 1, keys', groups')
  {
    PushKey(ms, n, keys, groups, keys');
    forall k | k in groups'
      ensures groups'[k] == Group(ms[..n + 1], k)
    {
      PushGroup(ms, n, keys, groups, groups', k);
    }
  }

  /**
   * The `quarterlyData` reduce: the object's keys in insertion order (every
   * key contains a space, so none is an array index that `Object.keys`
   * would list first) and the group under each key.  A metric list still
   * undefined gives no groups.
   */
  method GroupByQuarter(metrics: Option<seq<Metric>>) returns (keys: seq<string>, groups: map<string, seq<Metric>>)
    ensures metrics.None? ==> keys == [] && groups == map[]
    ensures metrics.Some? ==> Grouped(metrics.value, keys, groups)
  {
    keys, groups := [], map[];
    if metrics.None? {
      return;
    }
    var ms := metrics.value;
    var i := 0;
    while i < |ms|
      invariant 0 <= i <= |ms|
      invariant GroupedPrefix(ms, i, keys, groups)
    {
      var key := QuarterKey(ms[i]);
      ghost var keys0, groups0 := keys, groups;
      if key !in groups {
        groups := groups[key := []];
        keys := keys + [key];
      }
      groups := groups[key := groups[key] + [ms[i]]];
      PushMetric(ms, i, keys0, groups0, keys, groups);
      i := i + 1;
    }
    assert ms[..i] == ms;
    assert GroupedPrefix(ms, i, keys, groups);
  }

  /** `Object.keys(quarterlyData).slice(-4)`: the quarters drawn. */
  function DisplayedQuarters(keys: seq<string>): (r: seq<string>)
    ensures |r| == if |keys| < 4 then |keys| else 4
    ensures r == keys[|keys| - |r|..]
  {
    LastN(keys, 4)
  }

  const HighlightColor: string := "bg-green-500"
  const BarColorDefault: string := "bg-primary"

  /** The colour of the bar at `index` among `count` bars. */
  function BarColor(index: nat, count: nat): (r: string)
    ensures r == HighlightColor || r == BarColorDefault
    ensures r == HighlightColor <==> index + 1 == count
  {
    if index == count - 1 then HighlightColor else BarColorDefault
  }

  /** Exactly one bar, the last, is highlighted. */
  lemma OnlyLastHighlighted(index: nat, count: nat)
    requires index < count
    ensures BarColor(index, count) == HighlightColor <==> index == count - 1
  {
  }

  /** `quarterKey.split(' ')[0]`: the bar's label. */
  function BarLabel(key: string): (r: string)
    ensures r <= key && ' ' !in r
    ensures |r| < |key| ==> key[|r|] == ' '
  {
    JoinSplit(key, ' ');
    JoinStartsWithFirst(Split(key, ' '), [' ']);
    Split(key, ' ')[0]
  }

  /** A bar's label is its metrics' quarter, when the quarter has no space in it. */
  lemma LabelIsQuarter(m: Metric)
    requires ' ' !in m.quarter
    ensures BarLabel(QuarterKey(m)) == m.quarter
  {
    SplitAtFirst(m.quarter, ' ', NatToString(m.year));
    assert QuarterKey(m) == m.quarter + [' '] + NatToString(m.year);
  }
}
