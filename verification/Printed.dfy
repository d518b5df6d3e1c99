/** What the rows of a rendered report say: every printed cost is a rounded one, and what a cluster
    contributes. */
module Printed {
  import opened Options
  import opened UsageDict
  import opened Shards
  import opened Rendering

  // ---- printed costs ----

  predicate Rounded(rows: seq<Row>) {
    forall i :: 0 <= i < |rows| ==> rows[i].cost == RoundHalfEven(rows[i].exact)
  }

  predicate RoundedLines(lines: seq<Line>) {
    forall i :: 0 <= i < |lines| && lines[i].Written? ==> lines[i].row.cost == RoundHalfEven(lines[i].row.exact)
  }

  lemma {:induction false} UsageRounded(sn: Snapshot, product: Product, es: seq<Entry<Meter>>)
    ensures RoundedLines(UsageLines(sn, product, es))
  {
    hide RoundHalfEven, UnitPrice, SnapshotPrice, FindProject;
    if es != [] {
      UsageRounded(sn, product, es[1..]);
    }
  }

  lemma {:induction false} MeteredRounded(sn: Snapshot, products: seq<Product>, usage: UsageByMetric)
    requires MeteredLines(sn, products, usage).Some?
    ensures RoundedLines(MeteredLines(sn, products, usage).value)
  {
    hide UsageLines, ProductUsage;
    if products != [] {
      MeteredRounded(sn, products[..|products| - 1], usage);
      var product := products[|products| - 1];
      UsageRounded(sn, product, ProductUsage(sn, product, usage).value);
    }
  }

  lemma {:induction false} ClustersRounded(sn: Snapshot, cs: seq<ClusterFact>)
    ensures RoundedLines(AllClusterLines(sn, cs))
  {
    if cs != [] {
      hide ClusterLines;
      ClustersRounded(sn, cs[..|cs| - 1]);
      ClusterRounded(sn, cs[|cs| - 1]);
    }
  }

  lemma ClusterRounded(sn: Snapshot, c: ClusterFact)
    ensures RoundedLines(ClusterLines(sn, c))
  {
    hide RoundHalfEven, UnitPrice, SnapshotPrice, PackageFee;
  }

  lemma {:induction false} ResizesRounded(sn: Snapshot, rs: seq<ResizeFact>)
    ensures RoundedLines(AllResizeLines(sn, rs))
  {
    hide RoundHalfEven, UnitPrice, SnapshotPrice;
    if rs != [] {
      ResizesRounded(sn, rs[..|rs| - 1]);
    }
  }

  lemma {:induction false} AddonsRounded(sn: Snapshot, xs: seq<AddonFact>)
    ensures RoundedLines(AllAddonLines(sn, xs))
  {
    hide RoundHalfEven, UnitPrice, SnapshotPrice;
    if xs != [] {
      AddonsRounded(sn, xs[..|xs| - 1]);
    }
  }

  lemma {:induction false} SelectRounded(lines: seq<Line>, contracts: set<string>)
    requires RoundedLines(lines) && Select(lines, contracts).Some?
    ensures Rounded(Select(lines, contracts).value)
  {
    hide RoundHalfEven;
    if lines != [] {
      SelectRounded(lines[..|lines| - 1], contracts);
    }
  }

  /** In every report, whatever the snapshot, the usage and the chosen contracts: each printed cost is
      the rounded exact one, and the printed total is within half a krona a row of the exact total. */
  lemma ReportDrift(sn: Snapshot, usage: UsageByMetric, contracts: set<string>)
    requires Report(sn, usage, contracts).Some?
    ensures var rows := Report(sn, usage, contracts).value;
            && Rounded(rows)
            && -(|rows| as real) <= 2.0 * (TotalCost(rows) as real - TotalExact(rows)) <= |rows| as real
  {
    hide MeteredLines, AllClusterLines, AllResizeLines, AllAddonLines, Select, RoundHalfEven;
    var metered := MeteredLines(sn, sn.plan, usage).value;
    MeteredRounded(sn, sn.plan, usage);
    ClustersRounded(sn, sn.clusters);
    ResizesRounded(sn, sn.resizes);
    AddonsRounded(sn, sn.addons);
    SelectRounded(metered + SyntheticLines(sn), contracts);
    RoundingDrift(Report(sn, usage, contracts).value);
  }

  // ---- the rows of one cluster ----

  /** A row that bills the setup of worker groups of a cluster: its first groups, or an expansion. */
  predicate SetsUp(row: Row, slug: string) {
    row.project == slug && (row.kind.InitialSetup? || row.kind.Expansion?)
  }

  /** The worker groups a report bills setup for. */
  function GroupsBilled(rows: seq<Row>, slug: string): real {
    if rows == [] then 0.0
    else
      var last := rows[|rows| - 1];
      GroupsBilled(rows[..|rows| - 1], slug) + if SetsUp(last, slug) then last.quantity else 0.0
  }

  function GroupsOf(l: Line, slug: string): real {
    if l.Written? && SetsUp(l.row, slug) then l.row.quantity else 0.0
  }

  function GroupsIn(lines: seq<Line>, slug: string): real {
    if lines == [] then 0.0
    else GroupsIn(lines[..|lines| - 1], slug) + GroupsOf(lines[|lines| - 1], slug)
  }

  lemma {:induction false} GroupsConcat(a: seq<Line>, b: seq<Line>, slug: string)
    ensures GroupsIn(a + b, slug) == GroupsIn(a, slug) + GroupsIn(b, slug)
  {
    if b == [] {
      assert a + b == a;
    } else {
      hide GroupsOf;
      assert (a + b)[..|a + b| - 1] == a + b[..|b| - 1];
      GroupsConcat(a, b[..|b| - 1], slug);
    }
  }

  /** Choosing contracts drops no setup of a cluster whose contract is chosen. */
  lemma {:induction false} SelectGroups(lines: seq<Line>, contracts: set<string>, slug: string)
    requires Select(lines, contracts).Some?
    requires forall i :: 0 <= i < |lines| && lines[i].Written? && SetsUp(lines[i].row, slug) ==>
               lines[i].row.contract in contracts
    ensures GroupsBilled(Select(lines, contracts).value, slug) == GroupsIn(lines, slug)
  {
    if lines != [] {
      hide SetsUp;
      var init, last := lines[..|lines| - 1], lines[|lines| - 1];
      SelectGroups(init, contracts, slug);
      var rows := Select(init, contracts).value;
      if ContractOf(last) in contracts {
        assert (rows + [last.row])[..|rows|] == rows;
      } else {
        assert rows + [] == rows;
      }
    }
  }

  /** One cluster's rows: none exactly when its count has no package fee.  Otherwise first one fee for
      one cluster at its agreed price; then, in the period it was provisioned in and as far as they
      are priced, one setup of its controllers and one of its first worker groups; nothing else. */
  lemma ClusterRows(sn: Snapshot, c: ClusterFact)
    ensures var r := Select(ClusterLines(sn, c), {c.contract});
            var first := sn.start <= c.provisionedAt < sn.end;
            var controllers := SnapshotPrice(sn, "cluster_setup_fee", map["group_type" := "controllers"]);
            var workers := SnapshotPrice(sn, "cluster_setup_fee", map["group_type" := "workers"]);
            var fee := PackageFee(sn, c.workerGroups);
            && (r.None? <==> fee.None?)
            && (r.Some? ==>
                  && |r.value| == 1 + (if first && controllers.Some? then 1 else 0)
                                  + (if first && workers.Some? && c.initialGroups > 0 then 1 else 0)
                  && (forall i :: 0 <= i < |r.value| ==>
                        r.value[i].contract == c.contract && r.value[i].project == c.slug
                        && (r.value[i].kind.ManagementFee? <==> i == 0))
                  && r.value[0].quantity == 1.0 && r.value[0].unit == fee.value.1
                  && r.value[0].exact == UnitPrice(sn, c.contract, "cluster_management_fee", fee.value.0)
                  && GroupsBilled(r.value, c.slug)
                     == if first && workers.Some? && c.initialGroups > 0 then c.initialGroups as real else 0.0)
  {
    hide UnitPrice, SnapshotPrice, PackageFee, Select, ClusterLines, GroupsBilled, RoundHalfEven;
    ClusterSelected(sn, c);
    if PackageFee(sn, c.workerGroups).Some? {
      ClusterGroups(sn, c);
    }
  }

  function ControllersOf(sn: Snapshot, c: ClusterFact): (ls: seq<Line>)
    ensures |ls| <= 1 && forall i :: 0 <= i < |ls| ==> ls[i].Written? && ls[i].row.contract == c.contract
  {
    if sn.start <= c.provisionedAt < sn.end
    then SetupLine(sn, c.contract, c.slug, "controllers", ControllerSetup, 1) else []
  }

  function WorkersOf(sn: Snapshot, c: ClusterFact): (ls: seq<Line>)
    ensures |ls| <= 1 && forall i :: 0 <= i < |ls| ==> ls[i].Written? && ls[i].row.contract == c.contract
  {
    if sn.start <= c.provisionedAt < sn.end then WorkerLines(sn, c) else []
  }

  function RowsOf(ls: seq<Line>): seq<Row> {
    if ls != [] && ls[0].Written? then [ls[0].row] else []
  }

  lemma ClusterSelected(sn: Snapshot, c: ClusterFact)
    ensures Select(ClusterLines(sn, c), {c.contract})
         == if PackageFee(sn, c.workerGroups).None? then None
            else Some(RowsOf([FeeLine(sn, c)]) + RowsOf(ControllersOf(sn, c)) + RowsOf(WorkersOf(sn, c)))
  {
    hide UnitPrice, SnapshotPrice, PackageFee, Select, RoundHalfEven, SetupLine, WorkerLines;
    var fee, setup := [FeeLine(sn, c)], ControllersOf(sn, c) + WorkersOf(sn, c);
    assert ClusterLines(sn, c) == fee + setup;
    SelectConcat(fee, setup, {c.contract});
    SelectConcat(ControllersOf(sn, c), WorkersOf(sn, c), {c.contract});
    SelectOne(FeeLine(sn, c), {c.contract});
    FewSelected(ControllersOf(sn, c), c.contract);
    FewSelected(WorkersOf(sn, c), c.contract);
    if PackageFee(sn, c.workerGroups).Some? {
      var one, two, three := RowsOf(fee), RowsOf(ControllersOf(sn, c)), RowsOf(WorkersOf(sn, c));
      assert one + (two + three) == one + two + three;
    }
  }

  lemma ClusterGroups(sn: Snapshot, c: ClusterFact)
    requires PackageFee(sn, c.workerGroups).Some?
    ensures var rows := RowsOf([FeeLine(sn, c)]) + RowsOf(ControllersOf(sn, c)) + RowsOf(WorkersOf(sn, c));
            GroupsBilled(rows, c.slug)
            == if WorkersOf(sn, c) == [] then 0.0 else c.initialGroups as real
  {
    hide UnitPrice, SnapshotPrice, PackageFee, RoundHalfEven;
    BilledConcat(RowsOf([FeeLine(sn, c)]) + RowsOf(ControllersOf(sn, c)), RowsOf(WorkersOf(sn, c)), c.slug);
    BilledConcat(RowsOf([FeeLine(sn, c)]), RowsOf(ControllersOf(sn, c)), c.slug);
    OneRow([FeeLine(sn, c)], c.slug);
    OneRow(ControllersOf(sn, c), c.slug);
    OneRow(WorkersOf(sn, c), c.slug);
  }

  lemma OneRow(ls: seq<Line>, slug: string)
    requires |ls| <= 1
    ensures GroupsBilled(RowsOf(ls), slug) == if ls == [] then 0.0 else GroupsOf(ls[0], slug)
  {
    var rows := RowsOf(ls);
    if rows != [] {
      assert rows[..0] == [];
      assert GroupsBilled(rows, slug) == GroupsBilled(rows[..0], slug) + if SetsUp(rows[0], slug) then rows[0].quantity else 0.0;
    }
  }

  lemma {:induction false} BilledConcat(a: seq<Row>, b: seq<Row>, slug: string)
    ensures GroupsBilled(a + b, slug) == GroupsBilled(a, slug) + GroupsBilled(b, slug)
  {
    if b == [] {
      assert a + b == a;
    } else {
      hide SetsUp;
      assert (a + b)[..|a + b| - 1] == a + b[..|b| - 1];
      BilledConcat(a, b[..|b| - 1], slug);
    }
  }

  lemma FewSelected(lines: seq<Line>, contract: string)
    requires |lines| <= 1 && forall i :: 0 <= i < |lines| ==> lines[i].Written? && lines[i].row.contract == contract
    ensures Select(lines, {contract}) == Some(RowsOf(lines))
  {
    if lines != [] {
      assert lines == [lines[0]];
      SelectOne(lines[0], {contract});
    }
  }
}
