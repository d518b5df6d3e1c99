/** Merging the checkpointed windows, and why it equals one whole-period query.

    Gnocchi is a fixed store of hourly samples: an answer is faithful when its measures are the
    stored samples of the asked metric, projects and window, in any grouping and order.
 */
module ShardedUsage {
  import opened UsageDict
  import opened Shards
  import Gnocchi

  datatype Sample = Sample(metric: string, project: string, meta: map<string, string>,
                           instant: int, value: real)

  /** The frozen query plan: its scope, and the pricing fields of each metric. */
  datatype Plan = Plan(scope: Scope, fields: map<string, seq<string>>)

  function Fields(plan: Plan, m: string): seq<string> {
    if m in plan.fields then plan.fields[m] else []
  }

  /** Every window is normalised by the whole period, never by itself. */
  function Period(plan: Plan): real {
    (plan.scope.end - plan.scope.start) as real
  }

  function MeterOf(plan: Plan, s: Sample): Meter {
    Meter(s.project, map f | f in Fields(plan, s.metric) && f in s.meta :: s.meta[f])
  }

  function SampleCharge(plan: Plan, s: Sample): Entry<Meter>
    requires Period(plan) > 0.0
  {
    Entry(MeterOf(plan, s), Totals(1.0, Gnocchi.Normalised(s.value, 3600.0, Period(plan))))
  }

  predicate Within(s: Sample, m: string, ps: seq<string>, lo: int, hi: int) {
    s.metric == m && s.project in ps && lo <= s.instant < hi
  }

  /** What the store holds for one metric, some projects and one window. */
  function Stored(store: seq<Sample>, plan: Plan, m: string, ps: seq<string>, lo: int, hi: int)
    : (es: seq<Entry<Meter>>)
    requires Period(plan) > 0.0
    ensures Started(es)
  {
    if store == [] then []
    else (if Within(store[0], m, ps, lo, hi) then [SampleCharge(plan, store[0])] else [])
         + Stored(store[1..], plan, m, ps, lo, hi)
  }

  /** Every record stands for at least one started hour. */
  predicate Started<K>(es: seq<Entry<K>>) {
    forall i :: 0 <= i < |es| ==> es[i].totals.hours >= 1.0
  }

  /** Started records are mentioned exactly when they charge hours. */
  lemma {:induction false} MentionsIffHours<K>(es: seq<Entry<K>>, k: K)
    requires Started(es)
    ensures SumFor(es, k, InHours) >= 0.0
    ensures Mentions(es, k) <==> SumFor(es, k, InHours) > 0.0
  {
    if es != [] {
      MentionsIffHours(es[1..], k);
      if Mentions(es[1..], k) {
        var i :| 0 <= i < |es[1..]| && es[1..][i].key == k;
        assert es[i + 1].key == k;
      }
      if Mentions(es, k) && es[0].key != k {
        var i :| 0 <= i < |es| && es[i].key == k;
        assert es[1..][i - 1].key == k;
      }
      if es[0].key == k {
        assert Mentions(es, k);
      }
    }
  }

  // ---- what the checkpoint of one window must hold ----

  /** A successful row holds, per meter, the store's figures for its window. */
  ghost predicate RowFaithful(store: seq<Sample>, plan: Plan, s: Shard)
    requires Period(plan) > 0.0
  {
    && Started(s.usage)
    && forall k, f :: SumFor(s.usage, k, f)
                   == SumFor(Stored(store, plan, s.metric, [s.project], s.lo, s.hi), k, f)
  }

  ghost predicate TableFaithful(store: seq<Sample>, plan: Plan, t: seq<Shard>)
    requires Period(plan) > 0.0
  {
    forall i :: 0 <= i < |t| && t[i].status == Success ==> RowFaithful(store, plan, t[i])
  }

  /** The query the shard loop sends for a row: the row's window, the whole period to normalise by. */
  function RowQuery(plan: Plan, additive: bool, s: Shard): Gnocchi.Query {
    Gnocchi.Query(s.lo, s.hi, Fields(plan, s.metric), additive, Period(plan))
  }

  /** The unsharded query of a metric, which normalises by its own window. */
  function WholeQuery(plan: Plan, additive: bool, m: string): Gnocchi.Query {
    var sc := plan.scope;
    Gnocchi.Query(sc.start, sc.end, Fields(plan, m), additive, (sc.end - sc.start) as real)
  }

  /** An answer whose measures are exactly the stored samples asked for. */
  ghost predicate FaithfulReply(store: seq<Sample>, plan: Plan, q: Gnocchi.Query, m: string,
                                ps: seq<string>, rs: seq<Gnocchi.Response>)
    requires q.period > 0.0 && Period(plan) > 0.0
  {
    multiset(Gnocchi.AllCharges(q, rs)) == multiset(Stored(store, plan, m, ps, q.lo, q.hi))
  }

  /** The usage a faithful answer rolls up to is what the row must hold. */
  lemma FaithfulAnswer(store: seq<Sample>, plan: Plan, additive: bool, s: Shard,
                       rs: seq<Gnocchi.Response>)
    requires Period(plan) > 0.0
    requires FaithfulReply(store, plan, RowQuery(plan, additive, s), s.metric, [s.project], rs)
    ensures var es := Gnocchi.AllCharges(RowQuery(plan, additive, s), rs);
            && Valid(Accumulate(es))
            && RowFaithful(store, plan, s.(status := Success, usage := Entries(Accumulate(es))))
  {
    var es := Gnocchi.AllCharges(RowQuery(plan, additive, s), rs);
    var stored := Stored(store, plan, s.metric, [s.project], s.lo, s.hi);
    var d := Accumulate(es);
    AccumulateMeaning(es);
    forall k, f ensures SumFor(Entries(d), k, f) == SumFor(stored, k, f) {
      EntriesSum(d, k, f);
      SumForPermutation(es, stored, k, f);
    }
    forall k | k in d.at ensures d.at[k].hours >= 1.0 {
      SumForPermutation(es, stored, k, InHours);
      SameMentions(es, stored);
      HoursWhole(stored, k);
      assert Amount(Get(d, k), InHours) == SumFor(es, k, InHours);
    }
  }

  lemma {:induction false} HoursWhole<K>(es: seq<Entry<K>>, k: K)
    requires Started(es) && Mentions(es, k)
    ensures SumFor(es, k, InHours) >= 1.0
  {
    if es[0].key == k {
      MentionsIffHours(es[1..], k);
    } else {
      var i :| 0 <= i < |es| && es[i].key == k;
      assert es[1..][i - 1].key == k;
      HoursWhole(es[1..], k);
    }
  }

  /** A query answered faithfully at a checkpoint. */
  ghost predicate Truthful(store: seq<Sample>, plan: Plan, t: seq<Shard>, o: Outcome)
    requires Period(plan) > 0.0
  {
    o.Answered? && FirstPending(t) < |t| ==>
      RowFaithful(store, plan, t[FirstPending(t)].(status := Success, usage := o.usage))
  }

  ghost predicate TruthfulRun(store: seq<Sample>, plan: Plan, t: seq<Shard>, os: seq<Outcome>)
    requires Period(plan) > 0.0
  {
    os != [] ==> TruthfulRun(store, plan, t, os[..|os| - 1])
                 && Truthful(store, plan, Replay(t, os[..|os| - 1]), os[|os| - 1])
  }

  /** Splits, crashes and retries never disturb what earlier checkpoints hold. */
  lemma {:induction false} ReplayFaithful(store: seq<Sample>, plan: Plan, t: seq<Shard>, os: seq<Outcome>)
    requires Period(plan) > 0.0
    requires TableFaithful(store, plan, t) && TruthfulRun(store, plan, t, os)
    ensures TableFaithful(store, plan, Replay(t, os))
  {
    if os != [] {
      var before := Replay(t, os[..|os| - 1]);
      ReplayFaithful(store, plan, t, os[..|os| - 1]);
      StepFaithful(store, plan, before, os[|os| - 1]);
    }
  }

  lemma StepFaithful(store: seq<Sample>, plan: Plan, t: seq<Shard>, o: Outcome)
    requires Period(plan) > 0.0
    requires TableFaithful(store, plan, t) && Truthful(store, plan, t, o)
    ensures TableFaithful(store, plan, Step(t, o))
  {
    var after := Step(t, o);
    forall i | 0 <= i < |after| && after[i].status == Success ensures RowFaithful(store, plan, after[i]) {
      if i != FirstPending(t) {
        assert i < |t| && after[i] == t[i];
      }
    }
  }

  // ---- summing over windows counts every sample once ----

  /** The store's figures for one meter, added up over the successful windows of a metric. */
  function OverRows(store: seq<Sample>, plan: Plan, t: seq<Shard>, m: string, k: Meter, f: Figure): real
    requires Period(plan) > 0.0
  {
    if t == [] then 0.0
    else (if t[0].status == Success && t[0].metric == m
          then SumFor(Stored(store, plan, m, [t[0].project], t[0].lo, t[0].hi), k, f) else 0.0)
         + OverRows(store, plan, t[1..], m, k, f)
  }

  function SampleFigure(plan: Plan, s: Sample, m: string, k: Meter, f: Figure): real
    requires Period(plan) > 0.0
  {
    if s.metric == m then Charge(SampleCharge(plan, s), k, f) else 0.0
  }

  lemma StoredHead(store: seq<Sample>, plan: Plan, m: string, ps: seq<string>, lo: int, hi: int,
                   k: Meter, f: Figure)
    requires store != [] && Period(plan) > 0.0
    ensures SumFor(Stored(store, plan, m, ps, lo, hi), k, f)
         == (if Within(store[0], m, ps, lo, hi) then SampleFigure(plan, store[0], m, k, f) else 0.0)
            + SumFor(Stored(store[1..], plan, m, ps, lo, hi), k, f)
  {
    if Within(store[0], m, ps, lo, hi) {
      assert Stored(store, plan, m, ps, lo, hi)[1..] == Stored(store[1..], plan, m, ps, lo, hi);
    } else {
      assert Stored(store, plan, m, ps, lo, hi) == Stored(store[1..], plan, m, ps, lo, hi);
    }
  }

  /** A figure added up once per live window over an instant. */
  function OverSample(t: seq<Shard>, m: string, p: string, instant: int, x: real): real {
    if t == [] then 0.0
    else (if Weigh(t[0], CoverAt(m, p, instant)) == 1 then x else 0.0) + OverSample(t[1..], m, p, instant, x)
  }

  lemma {:induction false} CoveredOnce(t: seq<Shard>, m: string, p: string, instant: int, x: real)
    ensures Total(t, CoverAt(m, p, instant)) == 0 ==> OverSample(t, m, p, instant, x) == 0.0
    ensures Total(t, CoverAt(m, p, instant)) == 1 ==> OverSample(t, m, p, instant, x) == x
  {
    if t != [] {
      CoveredOnce(t[1..], m, p, instant, x);
      CoverNonNegative(t[1..], m, p, instant);
    }
  }

  /** One more sample adds its figure once per successful window over it. */
  lemma {:induction false} OverRowsHead(store: seq<Sample>, plan: Plan, t: seq<Shard>, m: string,
                                        k: Meter, f: Figure)
    requires store != [] && Period(plan) > 0.0
    requires forall i :: 0 <= i < |t| ==> t[i].status != Pending
    ensures OverRows(store, plan, t, m, k, f)
         == OverSample(t, m, store[0].project, store[0].instant, SampleFigure(plan, store[0], m, k, f))
            + OverRows(store[1..], plan, t, m, k, f)
  {
    if t != [] {
      OverRowsHead(store, plan, t[1..], m, k, f);
      StoredHead(store, plan, m, [t[0].project], t[0].lo, t[0].hi, k, f);
    }
  }

  /** Over a tiled table with nothing pending, the windows together hold exactly what the store
      holds for the whole period. */
  lemma {:induction false} WindowsHoldPeriod(store: seq<Sample>, plan: Plan, t: seq<Shard>, m: string,
                                             k: Meter, f: Figure)
    requires Period(plan) > 0.0 && Tiled(plan.scope, t) && m in plan.scope.metrics
    requires forall i :: 0 <= i < |t| ==> t[i].status != Pending
    ensures OverRows(store, plan, t, m, k, f)
         == SumFor(Stored(store, plan, m, plan.scope.projects, plan.scope.start, plan.scope.end), k, f)
  {
    if store == [] {
      OverNothing(plan, t, m, k, f);
    } else {
      OverRowsHead(store, plan, t, m, k, f);
      WindowsHoldPeriod(store[1..], plan, t, m, k, f);
      StoredHead(store, plan, m, plan.scope.projects, plan.scope.start, plan.scope.end, k, f);
      var figure := SampleFigure(plan, store[0], m, k, f);
      CoveredOnce(t, m, store[0].project, store[0].instant, figure);
    }
  }

  lemma {:induction false} OverNothing(plan: Plan, t: seq<Shard>, m: string, k: Meter, f: Figure)
    requires Period(plan) > 0.0
    ensures OverRows([], plan, t, m, k, f) == 0.0
  {
    if t != [] {
      OverNothing(plan, t[1..], m, k, f);
    }
  }

  // ---- the merge of checkpoints ----

  datatype MergeKey = MergeKey(metric: string, meter: Meter)

  function Tagged(m: string, es: seq<Entry<Meter>>): (r: seq<Entry<MergeKey>>)
    ensures |r| == |es|
    ensures forall i :: 0 <= i < |r| ==> r[i] == Entry(MergeKey(m, es[i].key), es[i].totals)
  {
    seq(|es|, i requires 0 <= i < |es| => Entry(MergeKey(m, es[i].key), es[i].totals))
  }

  /** The records of the successful rows, in table order, each under its row's metric. */
  function Checkpointed(t: seq<Shard>): seq<Entry<MergeKey>> {
    if t == [] then []
    else Checkpointed(t[..|t| - 1])
         + if t[|t| - 1].status == Success then Tagged(t[|t| - 1].metric, t[|t| - 1].usage) else []
  }

  /** The records of one metric, without the metric. */
  function OfMetric(es: seq<Entry<MergeKey>>, m: string): seq<Entry<Meter>> {
    if es == [] then []
    else OfMetric(es[..|es| - 1], m)
         + if es[|es| - 1].key.metric == m
           then [Entry(es[|es| - 1].key.meter, es[|es| - 1].totals)] else []
  }

  function Lookup(groups: map<string, seq<Entry<Meter>>>, m: string): seq<Entry<Meter>> {
    if m in groups then groups[m] else []
  }

  /** Add the records of one checkpoint. */
  method AddRecords(merged: Dict<MergeKey>, ghost before: seq<Entry<MergeKey>>, m: string,
                    usage: seq<Entry<Meter>>)
    returns (d: Dict<MergeKey>)
    requires merged == Accumulate(before)
    ensures d == Accumulate(before + Tagged(m, usage))
  {
    d := merged;
    ghost var tagged := Tagged(m, usage);
    assert before + tagged[..0] == before;
    for j := 0 to |usage|
      invariant d == Accumulate(before + tagged[..j])
    {
      ghost var es := before + tagged[..j];
      assert before + tagged[..j + 1] == es + [tagged[j]];
      assert (es + [tagged[j]])[..|es|] == es;
      d := Add(d, MergeKey(m, usage[j].key), usage[j].totals);
    }
    assert tagged[..|usage|] == tagged;
  }

  /** Add every record of every checkpoint under its metric, project and pricing fields. */
  method MergeRecords(t: seq<Shard>) returns (merged: Dict<MergeKey>)
    ensures merged == Accumulate(Checkpointed(t))
  {
    merged := Dict([], map[]);
    for i := 0 to |t|
      invariant merged == Accumulate(Checkpointed(t[..i]))
    {
      assert t[..i + 1][..i] == t[..i];
      if t[i].status == Success {
        merged := AddRecords(merged, Checkpointed(t[..i]), t[i].metric, t[i].usage);
      } else {
        assert Checkpointed(t[..i]) + [] == Checkpointed(t[..i]);
      }
    }
    assert t[..|t|] == t;
  }

  function MetricsOf(items: seq<Entry<MergeKey>>): set<string> {
    set e | e in items :: e.key.metric
  }

  /** The merged records of each metric, in the order the dictionary holds them. */
  function Grouped(items: seq<Entry<MergeKey>>): map<string, seq<Entry<Meter>>> {
    map m | m in MetricsOf(items) :: OfMetric(items, m)
  }

  lemma {:induction false} GroupedMeaning(items: seq<Entry<MergeKey>>, m: string)
    ensures Lookup(Grouped(items), m) == OfMetric(items, m)
  {
    if items != [] {
      assert items == items[..|items| - 1] + [items[|items| - 1]];
      GroupedMeaning(items[..|items| - 1], m);
      if items[|items| - 1].key.metric == m {
        assert items[|items| - 1] in items;
      }
    }
  }

  lemma GroupedSnoc(items: seq<Entry<MergeKey>>, i: nat)
    requires i < |items|
    ensures Grouped(items[..i + 1])
         == (var m := items[i].key.metric;
             Grouped(items[..i])[m := Lookup(Grouped(items[..i]), m) + [Entry(items[i].key.meter, items[i].totals)]])
  {
    hide OfMetric;
    var m := items[i].key.metric;
    GroupedMeaning(items[..i], m);
    MetricsSnoc(items, i);
    var more := Lookup(Grouped(items[..i]), m) + [Entry(items[i].key.meter, items[i].totals)];
    var before, after := Grouped(items[..i])[m := more], Grouped(items[..i + 1]);
    assert after.Keys == before.Keys;
    forall m' | m' in after ensures after[m'] == before[m'] {
      OfMetricSnoc(items, i, m');
      assert OfMetric(items[..i], m') + [] == OfMetric(items[..i], m');
    }
  }

  lemma MetricsSnoc(items: seq<Entry<MergeKey>>, i: nat)
    requires i < |items|
    ensures MetricsOf(items[..i + 1]) == MetricsOf(items[..i]) + {items[i].key.metric}
  {
    assert items[..i + 1] == items[..i] + [items[i]];
  }

  lemma OfMetricSnoc(items: seq<Entry<MergeKey>>, i: nat, m: string)
    requires i < |items|
    ensures OfMetric(items[..i + 1], m) == OfMetric(items[..i], m)
            + if items[i].key.metric == m then [Entry(items[i].key.meter, items[i].totals)] else []
  {
    assert items[..i + 1][..i] == items[..i];
  }

  method GroupByMetric(items: seq<Entry<MergeKey>>) returns (byMetric: map<string, seq<Entry<Meter>>>)
    ensures byMetric == Grouped(items)
  {
    byMetric := map[];
    for i := 0 to |items|
      invariant byMetric == Grouped(items[..i])
    {
      GroupedSnoc(items, i);
      var m, e := items[i].key.metric, Entry(items[i].key.meter, items[i].totals);
      byMetric := byMetric[m := Lookup(byMetric, m) + [e]];
    }
    assert items[..|items|] == items;
  }

  /** What the checkpoints of a table merge to. */
  function Merged(t: seq<Shard>): map<string, seq<Entry<Meter>>> {
    AccumulateMeaning(Checkpointed(t));
    Grouped(Entries(Accumulate(Checkpointed(t))))
  }

  /** Merge the checkpoints into one list of records per metric. */
  method MergeUsage(t: seq<Shard>) returns (byMetric: map<string, seq<Entry<Meter>>>)
    ensures byMetric == Merged(t)
  {
    var merged := MergeRecords(t);
    AccumulateMeaning(Checkpointed(t));
    byMetric := GroupByMetric(Entries(merged));
  }

  lemma {:induction false} TaggedSum(m: string, es: seq<Entry<Meter>>, key: MergeKey, f: Figure)
    ensures SumFor(Tagged(m, es), key, f) == if key.metric == m then SumFor(es, key.meter, f) else 0.0
  {
    if es != [] {
      assert Tagged(m, es)[1..] == Tagged(m, es[1..]);
      TaggedSum(m, es[1..], key, f);
    }
  }

  lemma OverRowsSnoc(store: seq<Sample>, plan: Plan, t: seq<Shard>, s: Shard, m: string, k: Meter, f: Figure)
    requires Period(plan) > 0.0
    ensures OverRows(store, plan, t + [s], m, k, f) == OverRows(store, plan, t, m, k, f)
            + (if s.status == Success && s.metric == m
               then SumFor(Stored(store, plan, m, [s.project], s.lo, s.hi), k, f) else 0.0)
  {
    if t == [] {
      assert t + [s] == [s] && [s][1..] == [];
    } else {
      assert (t + [s])[1..] == t[1..] + [s];
      OverRowsSnoc(store, plan, t[1..], s, m, k, f);
    }
  }

  lemma {:induction false} CheckpointedSum(store: seq<Sample>, plan: Plan, t: seq<Shard>, m: string,
                                           k: Meter, f: Figure)
    requires Period(plan) > 0.0 && TableFaithful(store, plan, t)
    ensures Started(Checkpointed(t))
    ensures SumFor(Checkpointed(t), MergeKey(m, k), f) == OverRows(store, plan, t, m, k, f)
  {
    if t != [] {
      var n := |t| - 1;
      var init, s := t[..n], t[n];
      assert t == init + [s];
      CheckpointedSum(store, plan, init, m, k, f);
      OverRowsSnoc(store, plan, init, s, m, k, f);
      if s.status == Success {
        assert RowFaithful(store, plan, s);
        TaggedSum(s.metric, s.usage, MergeKey(m, k), f);
        SumForConcat(Checkpointed(init), Tagged(s.metric, s.usage), MergeKey(m, k), f);
      } else {
        assert Checkpointed(t) == Checkpointed(init);
      }
    }
  }

  // ---- sharded equals unsharded ----

  lemma {:induction false} OfMetricMember(es: seq<Entry<MergeKey>>, m: string, e: Entry<Meter>)
    ensures e in OfMetric(es, m) <==> Entry(MergeKey(m, e.key), e.totals) in es
  {
    if es != [] {
      assert es == es[..|es| - 1] + [es[|es| - 1]];
      OfMetricMember(es[..|es| - 1], m, e);
    }
  }

  lemma {:induction false} OfMetricDistinct(es: seq<Entry<MergeKey>>, m: string)
    requires forall i, j :: 0 <= i < j < |es| ==> es[i] != es[j]
    ensures forall i, j :: 0 <= i < j < |OfMetric(es, m)| ==> OfMetric(es, m)[i] != OfMetric(es, m)[j]
  {
    if es != [] {
      var last := es[|es| - 1];
      OfMetricDistinct(es[..|es| - 1], m);
      OfMetricMember(es[..|es| - 1], m, Entry(last.key.meter, last.totals));
    }
  }

  lemma SameElements<T>(a: seq<T>, b: seq<T>)
    requires forall i, j :: 0 <= i < j < |a| ==> a[i] != a[j]
    requires forall i, j :: 0 <= i < j < |b| ==> b[i] != b[j]
    requires forall x :: x in a <==> x in b
    ensures multiset(a) == multiset(b)
  {
    forall x ensures multiset(a)[x] == multiset(b)[x] {
      if x in a {
        var i :| 0 <= i < |a| && a[i] == x;
        var j :| 0 <= j < |b| && b[j] == x;
        OnceOnly(a, i);
        OnceOnly(b, j);
      }
    }
  }

  /** The merged figure of every meter is the store's figure for the whole period. */
  lemma MergedFigures(store: seq<Sample>, plan: Plan, t: seq<Shard>, m: string, k: Meter)
    requires Period(plan) > 0.0 && Tiled(plan.scope, t) && m in plan.scope.metrics
    requires TableFaithful(store, plan, t)
    requires forall i :: 0 <= i < |t| ==> t[i].status != Pending
    ensures var whole := Stored(store, plan, m, plan.scope.projects, plan.scope.start, plan.scope.end);
            var d := Accumulate(Checkpointed(t));
            && (MergeKey(m, k) in d.at <==> Mentions(whole, k))
            && forall f :: Amount(Get(d, MergeKey(m, k)), f) == SumFor(whole, k, f)
  {
    var whole := Stored(store, plan, m, plan.scope.projects, plan.scope.start, plan.scope.end);
    var es := Checkpointed(t);
    AccumulateMeaning(es);
    forall f ensures SumFor(es, MergeKey(m, k), f) == SumFor(whole, k, f) {
      CheckpointedSum(store, plan, t, m, k, f);
      WindowsHoldPeriod(store, plan, t, m, k, f);
    }
    CheckpointedSum(store, plan, t, m, k, InHours);
    MentionsIffHours(es, MergeKey(m, k));
    MentionsIffHours(whole, k);
  }

  /** However a report's period came to be split, retried and resumed, once nothing is pending the
      merge yields for each metric the very records that one query of the whole period and all its
      projects would have yielded, up to their order. */
  lemma ShardedEqualsUnsharded(store: seq<Sample>, plan: Plan, t: seq<Shard>, m: string,
                               additive: bool, rs: seq<Gnocchi.Response>)
    requires Period(plan) > 0.0 && Tiled(plan.scope, t) && m in plan.scope.metrics
    requires TableFaithful(store, plan, t) && FirstPending(t) == |t|
    requires FaithfulReply(store, plan, WholeQuery(plan, additive, m), m, plan.scope.projects, rs)
    ensures var whole := Accumulate(Gnocchi.AllCharges(WholeQuery(plan, additive, m), rs));
            && Valid(Accumulate(Checkpointed(t))) && Valid(whole)
            && multiset(OfMetric(Entries(Accumulate(Checkpointed(t))), m)) == multiset(Entries(whole))
  {
    var stored := Stored(store, plan, m, plan.scope.projects, plan.scope.start, plan.scope.end);
    AccumulatePermutation(Gnocchi.AllCharges(WholeQuery(plan, additive, m), rs), stored);
    AccumulateMeaning(Checkpointed(t));
    AccumulateMeaning(stored);
    var d, u := Accumulate(Checkpointed(t)), Accumulate(stored);
    var merged, single := OfMetric(Entries(d), m), Entries(u);
    OfMetricDistinct(Entries(d), m);
    forall e ensures e in merged <==> e in single {
      OfMetricMember(Entries(d), m, e);
      MergedFigures(store, plan, t, m, e.key);
      SameRecord(d, u, m, e);
    }
    SameElements(merged, single);
  }

  /** The whole story for one report: any run of its shard loop from the planned table, with
      timeouts, splits, errors and crashes anywhere, that was answered truthfully and ended with
      nothing pending. */
  lemma AnyRunMergesToWhole(store: seq<Sample>, plan: Plan, os: seq<Outcome>, m: string,
                            additive: bool, rs: seq<Gnocchi.Response>)
    requires ValidScope(plan.scope) && Period(plan) > 0.0 && m in plan.scope.metrics
    requires TruthfulRun(store, plan, Planned(plan.scope), os)
    requires FirstPending(Replay(Planned(plan.scope), os)) == |Replay(Planned(plan.scope), os)|
    requires FaithfulReply(store, plan, WholeQuery(plan, additive, m), m, plan.scope.projects, rs)
    ensures var merged := Accumulate(Checkpointed(Replay(Planned(plan.scope), os)));
            var whole := Accumulate(Gnocchi.AllCharges(WholeQuery(plan, additive, m), rs));
            && Valid(merged) && Valid(whole)
            && multiset(OfMetric(Entries(merged), m)) == multiset(Entries(whole))
  {
    PlannedInv(plan.scope);
    ReplayInv(plan.scope, Planned(plan.scope), os);
    ReplayFaithful(store, plan, Planned(plan.scope), os);
    ShardedEqualsUnsharded(store, plan, Replay(Planned(plan.scope), os), m, additive, rs);
  }

  lemma SameRecord(d: Dict<MergeKey>, u: Dict<Meter>, m: string, e: Entry<Meter>)
    requires Valid(d) && Valid(u)
    requires MergeKey(m, e.key) in d.at <==> e.key in u.at
    requires forall f :: Amount(Get(d, MergeKey(m, e.key)), f) == Amount(Get(u, e.key), f)
    ensures Entry(MergeKey(m, e.key), e.totals) in Entries(d) <==> e in Entries(u)
  {
    var key := MergeKey(m, e.key);
    RecordOf(d, key, e.totals);
    RecordOf(u, e.key, e.totals);
    assert Amount(Get(d, key), InHours) == Amount(Get(u, e.key), InHours);
    assert Amount(Get(d, key), InSize) == Amount(Get(u, e.key), InSize);
  }

  lemma RecordOf<K>(d: Dict<K>, k: K, t: Totals)
    requires Valid(d)
    ensures Entry(k, t) in Entries(d) <==> k in d.at && d.at[k] == t
  {
    if k in d.at {
      var i :| 0 <= i < |d.order| && d.order[i] == k;
      assert Entries(d)[i] == Entry(k, d.at[k]);
    }
  }
}
