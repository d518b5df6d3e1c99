/** Rolling up the answer of one Gnocchi aggregation query.

    The HTTP call is a given `Response` per project; what is modelled is everything the portal
    checks about it and how it adds it up.  JSON values of the wrong type are `Malformed`.
 */
module Gnocchi {
  import opened UsageDict
  import opened Shards

  const MAX_GROUPS := 10000
  const MAX_MEASURES := 20000

  datatype Measure = Measure(instant: int, granularity: real, value: real) | Malformed

  /** One group of an answer.  An absent identifier is the empty string. */
  datatype Group = Group(project: string, resource: string, original: string,
                         meta: map<string, string>, measures: seq<Measure>)

  datatype Response = Timeout | NotFound | HttpError | Oversized | Groups(groups: seq<Group>)

  /** The bounds, pricing fields and normalisation of a query.  Products billed by presence keep
      one group per resource; additive sizes are summed across resources. */
  datatype Query = Query(lo: int, hi: int, fields: seq<string>, additive: bool, period: real)

  /** A query either yields usage, asks to be bisected, or fails the report. */
  datatype Reply = Usage(usage: Dict<Meter>) | Bisect | Fatal

  // ---- what an acceptable answer is ----

  predicate MeasureOk(q: Query, m: Measure) {
    && m.Measure? && q.lo <= m.instant < q.hi && m.instant % HOUR == 0
    && m.granularity == 3600.0 && m.value >= 0.0
  }

  ghost predicate MeasuresOk(q: Query, ms: seq<Measure>) {
    && |ms| <= MAX_MEASURES
    && (forall i :: 0 <= i < |ms| ==> MeasureOk(q, ms[i]))
    && (!q.additive ==> forall i, j :: 0 <= i < j < |ms| ==> ms[i].instant != ms[j].instant)
  }

  function Pricing(q: Query, g: Group): map<string, string> {
    map f | f in q.fields && f in g.meta :: g.meta[f]
  }

  predicate Identified(q: Query, project: string, g: Group) {
    && g.project == project
    && (q.additive || (g.resource != "" && g.original != ""))
    && forall f | f in q.fields :: f in g.meta && g.meta[f] != ""
  }

  function SourceKey(q: Query, g: Group): (string, string, map<string, string>) {
    if q.additive then ("", "", Pricing(q, g)) else (g.resource, g.original, Pricing(q, g))
  }

  /** Every group is complete and no two come from the same source. */
  ghost predicate Acceptable(q: Query, project: string, gs: seq<Group>) {
    && (forall i :: 0 <= i < |gs| ==> Identified(q, project, gs[i]) && MeasuresOk(q, gs[i].measures))
    && (forall i, j :: 0 <= i < j < |gs| ==> SourceKey(q, gs[i]) != SourceKey(q, gs[j]))
  }

  ghost predicate GroupsOk(q: Query, project: string, gs: seq<Group>) {
    |gs| <= MAX_GROUPS && Acceptable(q, project, gs)
  }

  ghost function SourceKeys(q: Query, gs: seq<Group>): set<(string, string, map<string, string>)> {
    set g | g in gs :: SourceKey(q, g)
  }

  lemma AcceptableSnoc(q: Query, project: string, gs: seq<Group>, i: nat)
    requires i < |gs|
    ensures Acceptable(q, project, gs) ==> Acceptable(q, project, gs[..i + 1])
    ensures Acceptable(q, project, gs[..i + 1])
       <==> Acceptable(q, project, gs[..i]) && Identified(q, project, gs[i])
            && MeasuresOk(q, gs[i].measures) && SourceKey(q, gs[i]) !in SourceKeys(q, gs[..i])
    ensures SourceKeys(q, gs[..i + 1]) == SourceKeys(q, gs[..i]) + {SourceKey(q, gs[i])}
  {
    assert gs[..i + 1] == gs[..i] + [gs[i]];
    if SourceKey(q, gs[i]) in SourceKeys(q, gs[..i]) {
      var j :| 0 <= j < i && SourceKey(q, gs[j]) == SourceKey(q, gs[i]);
      assert gs[..i + 1][j] == gs[j] && gs[..i + 1][i] == gs[i];
    }
  }

  ghost predicate ResponseOk(q: Query, project: string, r: Response) {
    r.NotFound? || (r.Groups? && GroupsOk(q, project, r.groups))
  }

  // ---- what an acceptable answer means: one charge per measure ----

  function Normalised(value: real, granularity: real, period: real): real
    requires period > 0.0
  {
    value * granularity / period
  }

  /** A non-empty hourly point is one started hour, and its size prorated over the period. */
  function ChargeOf(q: Query, key: Meter, m: Measure): Entry<Meter>
    requires q.period > 0.0
  {
    Entry(key, Totals(1.0, if m.Measure? then Normalised(m.value, m.granularity, q.period) else 0.0))
  }

  function GroupCharges(q: Query, g: Group): (es: seq<Entry<Meter>>)
    requires q.period > 0.0
    ensures |es| == |g.measures|
    ensures forall i :: 0 <= i < |es| ==> es[i] == ChargeOf(q, Meter(g.project, Pricing(q, g)), g.measures[i])
  {
    seq(|g.measures|, i requires 0 <= i < |g.measures| =>
      ChargeOf(q, Meter(g.project, Pricing(q, g)), g.measures[i]))
  }

  function Charges(q: Query, gs: seq<Group>): seq<Entry<Meter>>
    requires q.period > 0.0
  {
    if gs == [] then [] else Charges(q, gs[..|gs| - 1]) + GroupCharges(q, gs[|gs| - 1])
  }

  function ResponseCharges(q: Query, r: Response): seq<Entry<Meter>>
    requires q.period > 0.0
  {
    if r.Groups? then Charges(q, r.groups) else []
  }

  function AllCharges(q: Query, rs: seq<Response>): seq<Entry<Meter>>
    requires q.period > 0.0
  {
    if rs == [] then [] else AllCharges(q, rs[..|rs| - 1]) + ResponseCharges(q, rs[|rs| - 1])
  }

  /** Up to a group that has too many points, everything is acceptable. */
  ghost predicate GroupAsks(q: Query, project: string, gs: seq<Group>, i: nat) {
    && i < |gs| && Acceptable(q, project, gs[..i])
    && Identified(q, project, gs[i]) && SourceKey(q, gs[i]) !in SourceKeys(q, gs[..i])
    && |gs[i].measures| > MAX_MEASURES
  }

  ghost predicate GroupsAsk(q: Query, project: string, gs: seq<Group>) {
    |gs| <= MAX_GROUPS && exists i: nat :: GroupAsks(q, project, gs, i)
  }

  /** An answer that makes the shard loop bisect its window rather than fail the report. */
  ghost predicate AsksToBisect(q: Query, project: string, r: Response) {
    r.Timeout? || r.Oversized? || (r.Groups? && GroupsAsk(q, project, r.groups))
  }

  /** The group that asks is the first unacceptable one. */
  lemma AskerIsFirst(q: Query, project: string, gs: seq<Group>, i: nat, k: nat)
    requires GroupAsks(q, project, gs, i) && k < |gs|
    ensures Acceptable(q, project, gs[..k + 1]) ==> i > k
    ensures Acceptable(q, project, gs[..k]) && !Acceptable(q, project, gs[..k + 1]) ==> i == k
  {
    hide Identified, MeasureOk, SourceKey;
    if i <= k && Acceptable(q, project, gs[..k + 1]) {
      FewMeasures(q, project, gs, k + 1, i);
    }
    if i < k && Acceptable(q, project, gs[..k]) {
      FewMeasures(q, project, gs, k, i);
    }
    if k < i {
      AcceptablePrefix(q, project, gs[..i], k + 1);
      assert gs[..i][..k + 1] == gs[..k + 1];
    }
  }

  lemma FewMeasures(q: Query, project: string, gs: seq<Group>, n: nat, i: nat)
    requires i < n <= |gs| && Acceptable(q, project, gs[..n])
    ensures |gs[i].measures| <= MAX_MEASURES
  {
    assert gs[..n][i] == gs[i];
  }

  lemma AcceptablePrefix(q: Query, project: string, gs: seq<Group>, n: nat)
    requires Acceptable(q, project, gs) && n <= |gs|
    ensures Acceptable(q, project, gs[..n])
  {
    hide Identified, MeasuresOk, SourceKey;
  }

  /** A size held steadily for n hours is billed for n hours, and for the share of the period they are;
      held for the whole period it is that many size-months. */
  lemma SteadyUsage(q: Query, g: Group, size: real)
    requires q.period > 0.0
    requires forall i :: 0 <= i < |g.measures| ==>
               g.measures[i].Measure? && g.measures[i].granularity == 3600.0 && g.measures[i].value == size
    ensures Summed(GroupCharges(q, g)).hours == |g.measures| as real
    ensures Summed(GroupCharges(q, g)).sizeMonths * q.period == size * (3600.0 * |g.measures| as real)
    ensures 3600.0 * |g.measures| as real == q.period ==> Summed(GroupCharges(q, g)).sizeMonths == size
  {
    var month := Normalised(size, 3600.0, q.period);
    SteadySum(GroupCharges(q, g), month);
    var n := |g.measures| as real;
    assert month * q.period == size * 3600.0;
    assert n * month * q.period == n * (month * q.period);
    if 3600.0 * n == q.period {
      assert (n * month - size) * q.period == 0.0;
    }
  }

  lemma {:induction false} SteadySum(es: seq<Entry<Meter>>, month: real)
    requires forall i :: 0 <= i < |es| ==> es[i].totals == Totals(1.0, month)
    ensures Summed(es) == Totals(|es| as real, |es| as real * month)
  {
    if es != [] {
      SteadySum(es[1..], month);
    }
  }

  // ---- the roll-up loops ----

  /** Add up one group's points, or report the first one that is unacceptable. */
  method SumMeasures(q: Query, g: Group) returns (ok: bool, hours: real, sizeMonths: real)
    requires q.period > 0.0 && |g.measures| <= MAX_MEASURES
    ensures ok <==> MeasuresOk(q, g.measures)
    ensures ok ==> Totals(hours, sizeMonths) == Summed(GroupCharges(q, g))
  {
    hours, sizeMonths := 0.0, 0.0;
    var seen: set<int> := {};
    ghost var es := GroupCharges(q, g);
    assert es[..0] == [] && Summed(es[..0]) == Totals(0.0, 0.0);
    hide Normalised, GrandTotal;
    for i := 0 to |g.measures|
      invariant forall j :: 0 <= j < i ==> MeasureOk(q, g.measures[j]) && g.measures[j].instant in seen
      invariant forall x :: x in seen ==> exists j :: 0 <= j < i && g.measures[j].instant == x
      invariant !q.additive ==>
                  forall j, k :: 0 <= j < k < i ==> g.measures[j].instant != g.measures[k].instant
      invariant Totals(hours, sizeMonths) == Summed(es[..i])
    {
      var m := g.measures[i];
      if !m.Measure? || m.instant < q.lo || m.instant >= q.hi || m.instant % HOUR != 0 {
        return false, hours, sizeMonths;
      }
      if m.instant in seen && !q.additive {
        return false, hours, sizeMonths;
      }
      seen := seen + {m.instant};
      if m.granularity != 3600.0 || m.value < 0.0 {
        return false, hours, sizeMonths;
      }
      hours := hours + 1.0;
      sizeMonths := sizeMonths + Normalised(m.value, m.granularity, q.period);
      assert es[..i + 1] == es[..i] + [es[i]];
      GrandTotalInsert(es[..i], es[i], [], InHours);
      GrandTotalInsert(es[..i], es[i], [], InSize);
    }
    assert es[..|es|] == es;
    ok := true;
  }

  /** Roll one identified group into the results gathered so far. */
  method RollUpGroup(q: Query, g: Group, ghost before: seq<Entry<Meter>>, results: Dict<Meter>)
    returns (r: Reply)
    requires q.period > 0.0 && results == Accumulate(before)
    ensures r.Usage? <==> MeasuresOk(q, g.measures)
    ensures r.Usage? ==> r.usage == Accumulate(before + GroupCharges(q, g))
    ensures r.Bisect? <==> |g.measures| > MAX_MEASURES
  {
    if |g.measures| > MAX_MEASURES {
      return Bisect;
    }
    if g.measures == [] {
      assert before + GroupCharges(q, g) == before;
      return Usage(results);
    }
    var ok, hours, sizeMonths := SumMeasures(q, g);
    if !ok {
      return Fatal;
    }
    AddGroup(before, Meter(g.project, Pricing(q, g)), GroupCharges(q, g));
    return Usage(Add(results, Meter(g.project, Pricing(q, g)), Totals(hours, sizeMonths)));
  }

  lemma NoGroups(q: Query, project: string, gs: seq<Group>)
    requires gs == []
    ensures Acceptable(q, project, gs) && SourceKeys(q, gs) == {}
    ensures q.period > 0.0 ==> Charges(q, gs) == []
  {
  }

  /** An acceptable answer does not ask for a bisection. */
  lemma AcceptableNeverAsks(q: Query, project: string, r: Response)
    requires ResponseOk(q, project, r)
    ensures !AsksToBisect(q, project, r)
  {
    if r.Groups? {
      forall i: nat | i < |r.groups| ensures |r.groups[i].measures| <= MAX_MEASURES {
        assert MeasuresOk(q, r.groups[i].measures);
      }
    }
  }

  /** What the i-th group decides, when all before it are acceptable. */
  lemma Verdict(q: Query, project: string, gs: seq<Group>, i: nat)
    requires i < |gs| <= MAX_GROUPS && Acceptable(q, project, gs[..i])
    ensures var proper := Identified(q, project, gs[i]) && SourceKey(q, gs[i]) !in SourceKeys(q, gs[..i]);
            && (Acceptable(q, project, gs[..i + 1]) <==> proper && MeasuresOk(q, gs[i].measures))
            && (!Acceptable(q, project, gs[..i + 1]) ==>
                  !GroupsOk(q, project, gs)
                  && (GroupsAsk(q, project, gs) <==> proper && |gs[i].measures| > MAX_MEASURES))
    ensures SourceKeys(q, gs[..i + 1]) == SourceKeys(q, gs[..i]) + {SourceKey(q, gs[i])}
  {
    AcceptableSnoc(q, project, gs, i);
    hide Acceptable, Identified, MeasuresOk, SourceKey;
    if !Acceptable(q, project, gs[..i + 1]) {
      forall k: nat | GroupAsks(q, project, gs, k) ensures k == i {
        AskerIsFirst(q, project, gs, k, i);
      }
      assert GroupsAsk(q, project, gs) <==> GroupAsks(q, project, gs, i);
    }
  }

  lemma AllFine(q: Query, project: string, gs: seq<Group>)
    requires Acceptable(q, project, gs) && |gs| <= MAX_GROUPS
    ensures GroupsOk(q, project, gs) && !GroupsAsk(q, project, gs)
  {
    AcceptableNeverAsks(q, project, Groups(gs));
  }

  /** Roll one project's groups into the results gathered so far. */
  method RollUpProject(q: Query, project: string, gs: seq<Group>, ghost before: seq<Entry<Meter>>,
                       results: Dict<Meter>)
    returns (r: Reply)
    requires q.period > 0.0 && results == Accumulate(before)
    ensures r.Usage? <==> GroupsOk(q, project, gs)
    ensures r.Usage? ==> r.usage == Accumulate(before + Charges(q, gs))
    ensures r.Bisect? <==> GroupsAsk(q, project, gs)
  {
    if |gs| > MAX_GROUPS {
      return Fatal;
    }
    hide Identified, MeasuresOk, SourceKey, SourceKeys, Charges, Acceptable, GroupsOk, GroupsAsk;
    NoGroups(q, project, gs[..0]);
    assert before + [] == before;
    var rolled := results;
    var seen: set<(string, string, map<string, string>)> := {};
    for i := 0 to |gs|
      invariant Acceptable(q, project, gs[..i]) && seen == SourceKeys(q, gs[..i])
      invariant rolled == Accumulate(before + Charges(q, gs[..i]))
    {
      Verdict(q, project, gs, i);
      var key := SourceKey(q, gs[i]);
      if !Identified(q, project, gs[i]) || key in seen {
        return Fatal;
      }
      seen := seen + {key};
      var reply := RollUpGroup(q, gs[i], before + Charges(q, gs[..i]), rolled);
      ChargesSnoc(q, before, gs, i);
      match reply {
        case Bisect => return Bisect;
        case Fatal => return Fatal;
        case Usage(usage) => rolled := usage;
      }
    }
    assert gs[..|gs|] == gs;
    AllFine(q, project, gs);
    return Usage(rolled);
  }

  lemma ChargesSnoc(q: Query, before: seq<Entry<Meter>>, gs: seq<Group>, i: nat)
    requires i < |gs| && q.period > 0.0
    ensures before + Charges(q, gs[..i + 1]) == before + Charges(q, gs[..i]) + GroupCharges(q, gs[i])
  {
    assert gs[..i + 1][..i] == gs[..i];
  }

  /** The whole query: usage exactly when every project's answer is acceptable, and then the
      accumulation of one charge per measure. */
  method QueryUsage(q: Query, projects: seq<string>, rs: seq<Response>) returns (r: Reply)
    requires |projects| == |rs|
    ensures r.Usage? <==> q.lo < q.hi && q.period > 0.0
                          && forall i :: 0 <= i < |rs| ==> ResponseOk(q, projects[i], rs[i])
    ensures r.Usage? ==> r.usage == Accumulate(AllCharges(q, rs))
    ensures r.Bisect? <==> q.lo < q.hi && q.period > 0.0
                           && exists i :: 0 <= i < |rs| && AsksToBisect(q, projects[i], rs[i])
                                          && forall j :: 0 <= j < i ==> ResponseOk(q, projects[j], rs[j])
  {
    if q.hi <= q.lo || q.period <= 0.0 {
      return Fatal;
    }
    hide ResponseOk, AsksToBisect, GroupsOk, GroupsAsk, ResponseCharges;
    var results: Dict<Meter> := Dict([], map[]);
    for i := 0 to |rs|
      invariant forall j :: 0 <= j < i ==> ResponseOk(q, projects[j], rs[j])
      invariant results == Accumulate(AllCharges(q, rs[..i]))
    {
      assert rs[..i + 1][..i] == rs[..i];
      forall j | 0 <= j < i ensures !AsksToBisect(q, projects[j], rs[j]) {
        AcceptableNeverAsks(q, projects[j], rs[j]);
      }
      var reply := RollUpResponse(q, projects[i], rs[i], AllCharges(q, rs[..i]), results);
      if !reply.Usage? {
        return reply;
      }
      results := reply.usage;
    }
    forall j | 0 <= j < |rs| ensures !AsksToBisect(q, projects[j], rs[j]) {
      AcceptableNeverAsks(q, projects[j], rs[j]);
    }
    assert rs[..|rs|] == rs;
    return Usage(results);
  }

  /** One project's response: nothing when there are no measurements. */
  method RollUpResponse(q: Query, project: string, response: Response, ghost before: seq<Entry<Meter>>,
                        results: Dict<Meter>)
    returns (r: Reply)
    requires q.period > 0.0 && results == Accumulate(before)
    ensures r.Usage? <==> ResponseOk(q, project, response)
    ensures r.Usage? ==> r.usage == Accumulate(before + ResponseCharges(q, response))
    ensures r.Bisect? <==> AsksToBisect(q, project, response)
  {
    hide GroupsOk, GroupsAsk, Charges;
    assert before + [] == before;
    match response {
      case Timeout => return Bisect;
      case Oversized => return Bisect;
      case HttpError => return Fatal;
      case NotFound => return Usage(results);
      case Groups(gs) => r := RollUpProject(q, project, gs, before, results);
    }
  }
}
