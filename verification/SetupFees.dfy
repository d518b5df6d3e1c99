/** Setup fees from the resize history to the rows of the reports.

    The history knows clusters by their ids; a snapshot names them by slug and contract.
 */
module SetupFees {
  import opened Options
  import opened UsageDict
  import opened Shards
  import opened Rendering
  import opened Printed
  import Resizes

  /** How a snapshot names the clusters; slugs are unique. */
  datatype Naming = Naming(slug: nat -> string, contract: nat -> string)

  ghost predicate Unique(n: Naming) {
    forall a, b :: n.slug(a) == n.slug(b) ==> a == b
  }

  function ClustersNamed(n: Naming, cs: seq<Resizes.ClusterFact>): seq<ClusterFact> {
    if cs == [] then []
    else
      var c := cs[|cs| - 1];
      ClustersNamed(n, cs[..|cs| - 1])
      + [ClusterFact(n.contract(c.cluster), n.slug(c.cluster), c.groups, c.initial, c.provisioned)]
  }

  function ResizesNamed(n: Naming, rs: seq<Resizes.ResizeFact>): seq<ResizeFact> {
    if rs == [] then []
    else
      var r := rs[|rs| - 1];
      ResizesNamed(n, rs[..|rs| - 1]) + [ResizeFact(n.contract(r.cluster), n.slug(r.cluster), r.delta)]
  }

  /** A snapshot that holds the cluster and resize facts captured from a portal for its period. */
  ghost predicate CapturedFrom(sn: Snapshot, p: Resizes.Portal, selected: set<nat>, n: Naming) {
    && Unique(n)
    && sn.clusters == ClustersNamed(n, Resizes.ClusterFactsOf(p, selected, sn.start, sn.end, |p.clusters|))
    && sn.resizes == ResizesNamed(n, Resizes.ResizeFactsOf(p.requests, selected, sn.start, sn.end))
  }

  predicate SetupPriced(sn: Snapshot) {
    SnapshotPrice(sn, "cluster_setup_fee", map["group_type" := "workers"]).Some?
  }

  // ---- who sets up what ----

  /** Lines that set up groups of the cluster are its contract's. */
  ghost predicate Attributed(lines: seq<Line>, n: Naming) {
    forall i, c :: 0 <= i < |lines| && lines[i].Written? && SetsUp(lines[i].row, n.slug(c)) ==>
      lines[i].row.contract == n.contract(c)
  }

  /** Lines that set up nothing, whatever the cluster. */
  predicate SetsUpNothing(lines: seq<Line>) {
    forall i :: 0 <= i < |lines| && lines[i].Written? ==>
      !lines[i].row.kind.InitialSetup? && !lines[i].row.kind.Expansion?
  }

  lemma {:induction false} NothingSetUp(lines: seq<Line>, slug: string)
    requires SetsUpNothing(lines)
    ensures GroupsIn(lines, slug) == 0.0
  {
    if lines != [] {
      NothingSetUp(lines[..|lines| - 1], slug);
    }
  }

  lemma {:induction false} UsageSetsUpNothing(sn: Snapshot, product: Product, es: seq<Entry<Meter>>)
    ensures SetsUpNothing(UsageLines(sn, product, es))
  {
    hide RoundHalfEven, UnitPrice, SnapshotPrice, FindProject;
    if es != [] {
      UsageSetsUpNothing(sn, product, es[1..]);
    }
  }

  lemma {:induction false} MeteredSetsUpNothing(sn: Snapshot, products: seq<Product>, usage: UsageByMetric)
    requires MeteredLines(sn, products, usage).Some?
    ensures SetsUpNothing(MeteredLines(sn, products, usage).value)
  {
    hide UsageLines, ProductUsage;
    if products != [] {
      MeteredSetsUpNothing(sn, products[..|products| - 1], usage);
      var product := products[|products| - 1];
      UsageSetsUpNothing(sn, product, ProductUsage(sn, product, usage).value);
    }
  }

  lemma {:induction false} AddonsSetUpNothing(sn: Snapshot, xs: seq<AddonFact>)
    ensures SetsUpNothing(AllAddonLines(sn, xs))
  {
    hide RoundHalfEven, UnitPrice, SnapshotPrice;
    if xs != [] {
      AddonsSetUpNothing(sn, xs[..|xs| - 1]);
    }
  }

  lemma {:induction false} OneLine(l: Line, slug: string)
    ensures GroupsIn([l], slug) == GroupsOf(l, slug)
  {
    var one := [l];
    assert one[..0] == [];
    assert GroupsIn(one, slug) == GroupsIn(one[..0], slug) + GroupsOf(one[0], slug);
  }

  /** What one cluster fact sets up. */
  function InitialOf(sn: Snapshot, c: ClusterFact, slug: string): int {
    if c.slug == slug && sn.start <= c.provisionedAt < sn.end && c.initialGroups > 0 then c.initialGroups else 0
  }

  lemma ClusterSetsUp(sn: Snapshot, c: ClusterFact, slug: string)
    requires SetupPriced(sn)
    ensures GroupsIn(ClusterLines(sn, c), slug) == InitialOf(sn, c, slug) as real
    ensures forall i :: 0 <= i < |ClusterLines(sn, c)| && ClusterLines(sn, c)[i].Written? ==>
              ClusterLines(sn, c)[i].row.contract == c.contract && ClusterLines(sn, c)[i].row.project == c.slug
  {
    hide RoundHalfEven, UnitPrice, SnapshotPrice, PackageFee, GroupsIn;
    var controllers := SetupLine(sn, c.contract, c.slug, "controllers", ControllerSetup, 1);
    GroupsConcat([FeeLine(sn, c)], SetupLines(sn, c), slug);
    GroupsConcat(controllers, WorkerLines(sn, c), slug);
    NothingSetUp([FeeLine(sn, c)], slug);
    NothingSetUp(controllers, slug);
    NothingSetUp([], slug);
    if WorkerLines(sn, c) != [] {
      assert WorkerLines(sn, c) == [WorkerLines(sn, c)[0]];
      OneLine(WorkerLines(sn, c)[0], slug);
    }
  }

  // ---- clusters ----

  /** The first groups of the period's clusters, by id. */
  function InitialIn(cs: seq<Resizes.ClusterFact>, c: nat, start: int, end: int): int {
    if cs == [] then 0
    else
      var last := cs[|cs| - 1];
      InitialIn(cs[..|cs| - 1], c, start, end)
      + if last.cluster == c && start <= last.provisioned < end && last.initial > 0 then last.initial else 0
  }

  lemma {:induction false} ClustersSetUp(sn: Snapshot, cs: seq<Resizes.ClusterFact>, n: Naming, c: nat)
    requires Unique(n) && SetupPriced(sn)
    ensures GroupsIn(AllClusterLines(sn, ClustersNamed(n, cs)), n.slug(c)) == InitialIn(cs, c, sn.start, sn.end) as real
    ensures Attributed(AllClusterLines(sn, ClustersNamed(n, cs)), n)
  {
    hide ClusterLines, GroupsIn, SetupPriced;
    if cs == [] {
      NothingSetUp([], n.slug(c));
    } else {
      var init, last := cs[..|cs| - 1], cs[|cs| - 1];
      var named := ClusterFact(n.contract(last.cluster), n.slug(last.cluster), last.groups, last.initial, last.provisioned);
      ClustersSetUp(sn, init, n, c);
      ClusterSetsUp(sn, named, n.slug(c));
      assert (ClustersNamed(n, init) + [named])[..|ClustersNamed(n, init)|] == ClustersNamed(n, init);
      GroupsConcat(AllClusterLines(sn, ClustersNamed(n, init)), ClusterLines(sn, named), n.slug(c));
    }
  }

  /** Every billed cluster contributes its fact once. */
  lemma {:induction false} InitialOnce(p: Resizes.Portal, selected: set<nat>, start: int, end: int, k: nat, c: nat)
    requires k <= |p.clusters| && c < |p.clusters| && p.clusters[c].initial >= 1
    ensures InitialIn(Resizes.ClusterFactsOf(p, selected, start, end, k), c, start, end)
         == if c < k && c in selected && Resizes.Billed(p.clusters[c], start, end)
               && start <= p.clusters[c].provisioned.value < end
            then p.clusters[c].initial else 0
  {
    hide Resizes.CountAt, Resizes.Billed;
    if k > 0 {
      InitialOnce(p, selected, start, end, k - 1, c);
      var init := Resizes.ClusterFactsOf(p, selected, start, end, k - 1);
      var all := Resizes.ClusterFactsOf(p, selected, start, end, k);
      if all != init {
        assert all[..|all| - 1] == init;
      }
    }
  }

  // ---- expansions ----

  lemma {:induction false} ResizesSetUp(sn: Snapshot, rs: seq<Resizes.ResizeFact>, n: Naming, c: nat)
    requires Unique(n) && SetupPriced(sn)
    ensures GroupsIn(AllResizeLines(sn, ResizesNamed(n, rs)), n.slug(c)) == Resizes.RowDeltas(rs, c) as real
    ensures Attributed(AllResizeLines(sn, ResizesNamed(n, rs)), n)
  {
    hide RoundHalfEven, UnitPrice, SnapshotPrice, GroupsIn;
    if rs == [] {
      NothingSetUp([], n.slug(c));
    } else {
      var init, last := rs[..|rs| - 1], rs[|rs| - 1];
      var named := ResizeFact(n.contract(last.cluster), n.slug(last.cluster), last.delta);
      var lines := SetupLine(sn, named.contract, named.slug, "workers", Expansion(named.delta), named.delta);
      ResizesSetUp(sn, init, n, c);
      assert (ResizesNamed(n, init) + [named])[..|ResizesNamed(n, init)|] == ResizesNamed(n, init);
      GroupsConcat(AllResizeLines(sn, ResizesNamed(n, init)), lines, n.slug(c));
      assert lines == [lines[0]];
      OneLine(lines[0], n.slug(c));
    }
  }

  lemma {:induction false} NamedFacts(n: Naming, cs: seq<Resizes.ClusterFact>, f: ClusterFact)
    requires f in ClustersNamed(n, cs)
    ensures exists c :: c in cs && f == ClusterFact(n.contract(c.cluster), n.slug(c.cluster), c.groups, c.initial, c.provisioned)
  {
    var init, last := cs[..|cs| - 1], cs[|cs| - 1];
    if f in ClustersNamed(n, init) {
      NamedFacts(n, init, f);
    } else {
      assert last in cs;
    }
  }

  lemma FactFields(p: Resizes.Portal, selected: set<nat>, start: int, end: int, f: Resizes.ClusterFact)
    requires Resizes.TrueFact(p, selected, start, end, |p.clusters|, f)
    ensures f.cluster < |p.clusters| && f.cluster in selected && Resizes.Billed(p.clusters[f.cluster], start, end)
    ensures f.groups == Resizes.CountAt(p, f.cluster, end)
  {
  }

  /** What the management fee of a captured snapshot is charged for: a cluster that was alive in the
      period, by the count it had just before its end. */
  lemma FeeForTrueCount(sn: Snapshot, p: Resizes.Portal, selected: set<nat>, n: Naming, f: ClusterFact)
    requires CapturedFrom(sn, p, selected, n) && f in sn.clusters
    ensures exists c :: 0 <= c < |p.clusters| && c in selected && Resizes.Billed(p.clusters[c], sn.start, sn.end)
                        && f.slug == n.slug(c) && f.contract == n.contract(c)
                        && f.workerGroups == Resizes.CountAt(p, c, sn.end)
  {
    hide Resizes.CountAt, Resizes.Billed, Resizes.TrueFact, ClustersNamed, Resizes.ClusterFactsOf;
    var facts := Resizes.ClusterFactsOf(p, selected, sn.start, sn.end, |p.clusters|);
    NamedFacts(n, facts, f);
    Resizes.FactsMeaning(p, selected, sn.start, sn.end);
    var fact :| fact in facts && f == ClusterFact(n.contract(fact.cluster), n.slug(fact.cluster), fact.groups, fact.initial,
                                                  fact.provisioned);
    FactFields(p, selected, sn.start, sn.end, fact);
  }

  // ---- reports ----

  lemma LinesSetUp(sn: Snapshot, p: Resizes.Portal, selected: set<nat>, n: Naming, usage: UsageByMetric, c: nat)
    requires CapturedFrom(sn, p, selected, n) && SetupPriced(sn) && MeteredLines(sn, sn.plan, usage).Some?
    requires c in selected && c < |p.clusters| && p.clusters[c].initial >= 1
    ensures var lines := MeteredLines(sn, sn.plan, usage).value + SyntheticLines(sn);
            && Attributed(lines, n)
            && GroupsIn(lines, n.slug(c)) == Resizes.SetupBilled(p, c, sn.start, sn.end) as real
  {
    hide MeteredLines, AllClusterLines, AllResizeLines, AllAddonLines, GroupsIn, SetupPriced, ClustersNamed, ResizesNamed,
         Resizes.ClusterFactsOf, Resizes.ResizeFactsOf, Resizes.Deltas, Resizes.Billed;
    var metered := MeteredLines(sn, sn.plan, usage).value;
    var clusters, resizes := AllClusterLines(sn, sn.clusters), AllResizeLines(sn, sn.resizes);
    var addons := AllAddonLines(sn, sn.addons);
    GroupsConcat(metered, clusters + resizes + addons, n.slug(c));
    GroupsConcat(clusters + resizes, addons, n.slug(c));
    GroupsConcat(clusters, resizes, n.slug(c));
    MeteredSetsUpNothing(sn, sn.plan, usage);
    NothingSetUp(metered, n.slug(c));
    AddonsSetUpNothing(sn, sn.addons);
    NothingSetUp(addons, n.slug(c));
    ClustersSetUp(sn, Resizes.ClusterFactsOf(p, selected, sn.start, sn.end, |p.clusters|), n, c);
    InitialOnce(p, selected, sn.start, sn.end, |p.clusters|, c);
    ResizesSetUp(sn, Resizes.ResizeFactsOf(p.requests, selected, sn.start, sn.end), n, c);
    Resizes.ResizeRowsAddUp(p.requests, selected, sn.start, sn.end, c);
  }

  /** The rows of a report bill setup for exactly the worker groups the history says the cluster gained
      in the period: its first ones if it was provisioned then, and those of its resizes. */
  lemma ReportBillsSetup(sn: Snapshot, p: Resizes.Portal, selected: set<nat>, n: Naming, usage: UsageByMetric,
                         contracts: set<string>, c: nat)
    requires CapturedFrom(sn, p, selected, n) && SetupPriced(sn)
    requires c in selected && c < |p.clusters| && p.clusters[c].initial >= 1 && n.contract(c) in contracts
    requires Report(sn, usage, contracts).Some?
    ensures GroupsBilled(Report(sn, usage, contracts).value, n.slug(c))
         == Resizes.SetupBilled(p, c, sn.start, sn.end) as real
  {
    hide MeteredLines, SyntheticLines, Select, GroupsBilled, GroupsIn, SetupPriced, CapturedFrom, SetsUp;
    LinesSetUp(sn, p, selected, n, usage, c);
    SelectGroups(MeteredLines(sn, sn.plan, usage).value + SyntheticLines(sn), contracts, n.slug(c));
  }

  // ---- consecutive periods ----

  /** One period's report: its snapshot, the portal it was captured from, and the usage it billed. */
  datatype Period = Period(sn: Snapshot, portal: Resizes.Portal, later: seq<Resizes.Event>, usage: UsageByMetric)

  /** A period that was captured at some moment after its end, from the history of a portal that further
      events led to where it is now, and whose report was made. */
  ghost predicate Captured(x: Period, now: Resizes.Portal, selected: set<nat>, n: Naming, contracts: set<string>, c: nat) {
    && CapturedFrom(x.sn, x.portal, selected, n) && SetupPriced(x.sn)
    && Report(x.sn, x.usage, contracts).Some?
    && Resizes.Inv(x.portal) && c < |x.portal.clusters|
    && (forall i :: 0 <= i < |x.later| ==> Resizes.After(x.later[i], x.sn.end))
    && now == Resizes.Run(x.portal, x.later)
  }

  function EndOf(start: int, periods: seq<Period>): int {
    if periods == [] then start else periods[|periods| - 1].sn.end
  }

  /** Each period begins where the one before it ended. */
  predicate Consecutive(start: int, periods: seq<Period>) {
    periods == []
    || (Consecutive(start, periods[..|periods| - 1])
        && periods[|periods| - 1].sn.start == EndOf(start, periods[..|periods| - 1])
        && periods[|periods| - 1].sn.start <= periods[|periods| - 1].sn.end)
  }

  function Edges(start: int, periods: seq<Period>): (edges: seq<int>)
    ensures |edges| == |periods| + 1 && edges[0] == start && edges[|periods|] == EndOf(start, periods)
  {
    if periods == [] then [start]
    else Edges(start, periods[..|periods| - 1]) + [EndOf(start, periods)]
  }

  function RowsOf(x: Period, contracts: set<string>): seq<Row> {
    match Report(x.sn, x.usage, contracts)
    case None => []
    case Some(rows) => rows
  }

  function BilledOver(periods: seq<Period>, contracts: set<string>, slug: string): real {
    if periods == [] then 0.0
    else BilledOver(periods[..|periods| - 1], contracts, slug)
         + GroupsBilled(RowsOf(periods[|periods| - 1], contracts), slug)
  }

  lemma {:induction false} EdgesIncrease(start: int, periods: seq<Period>)
    requires Consecutive(start, periods)
    ensures Resizes.Increasing(Edges(start, periods))
  {
    if periods != [] {
      EdgesIncrease(start, periods[..|periods| - 1]);
    }
  }

  lemma PeriodBills(x: Period, now: Resizes.Portal, selected: set<nat>, n: Naming, contracts: set<string>, c: nat)
    requires Captured(x, now, selected, n, contracts, c) && c in selected && n.contract(c) in contracts
    ensures c < |now.clusters|
    ensures GroupsBilled(RowsOf(x, contracts), n.slug(c)) == Resizes.SetupBilled(now, c, x.sn.start, x.sn.end) as real
  {
    hide Report, GroupsBilled, Resizes.SetupBilled, CapturedFrom, SetupPriced, Resizes.Run;
    ReportBillsSetup(x.sn, x.portal, selected, n, x.usage, contracts, c);
    Resizes.SetupSettled(x.portal, x.later, x.sn.start, x.sn.end, c);
  }

  lemma {:induction false} BilledIsSetup(start: int, periods: seq<Period>, now: Resizes.Portal, selected: set<nat>, n: Naming,
                                         contracts: set<string>, c: nat)
    requires Consecutive(start, periods) && c in selected && n.contract(c) in contracts && c < |now.clusters|
    requires forall x :: x in periods ==> Captured(x, now, selected, n, contracts, c)
    ensures BilledOver(periods, contracts, n.slug(c)) == Resizes.SetupOver(now, c, Edges(start, periods)) as real
  {
    if periods != [] {
      hide GroupsBilled, Resizes.SetupBilled, Captured, RowsOf;
      var init, last := periods[..|periods| - 1], periods[|periods| - 1];
      BilledIsSetup(start, init, now, selected, n, contracts, c);
      PeriodBills(last, now, selected, n, contracts, c);
      var edges := Edges(start, periods);
      assert edges[..|edges| - 1] == Edges(start, init);
      assert edges[|edges| - 2] == last.sn.start;
    }
  }

  /** Over consecutive periods that begin before a cluster's history and end after it, and whenever
      after its end each was captured, the rows of their reports bill the setup of each of the
      cluster's worker groups exactly once: together they bill the current count. */
  lemma RowsBillEachGroupOnce(start: int, periods: seq<Period>, now: Resizes.Portal, selected: set<nat>, n: Naming,
                              contracts: set<string>, c: nat)
    requires Consecutive(start, periods) && Resizes.Inv(now) && c < |now.clusters|
    requires c in selected && n.contract(c) in contracts
    requires forall x :: x in periods ==> Captured(x, now, selected, n, contracts, c)
    requires var k := now.clusters[c];
             && k.provisioned.Some? && start <= k.provisioned.value < EndOf(start, periods)
             && (k.decommissioned.Some? ==> k.decommissioned.value > k.provisioned.value)
    requires forall i :: 0 <= i < |now.requests| && Resizes.Resized(now.requests[i]) ==>
               start <= now.requests[i].at < EndOf(start, periods)
    ensures BilledOver(periods, contracts, n.slug(c)) == now.clusters[c].groups as real
  {
    hide Captured, Resizes.Inv, Resizes.SetupOver, BilledOver, Consecutive;
    EdgesIncrease(start, periods);
    BilledIsSetup(start, periods, now, selected, n, contracts, c);
    Resizes.EachGroupBilledOnce(now, c, Edges(start, periods));
  }
}
