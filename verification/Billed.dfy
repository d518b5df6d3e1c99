/** What a report bills, row by row: for each usage record, cluster, expansion and addon in scope, how
    much of what at which price. */
module Billed {
  import opened Options
  import opened UsageDict
  import opened Shards
  import opened Rendering

  // ---- metered rows ----

  /** The records that belong to a chosen contract, in order. */
  function InScope(sn: Snapshot, es: seq<Entry<Meter>>, contracts: set<string>): seq<Entry<Meter>> {
    if es == [] then [] else (if Chosen(sn, es[0], contracts) then [es[0]] else []) + InScope(sn, es[1..], contracts)
  }

  predicate Chosen(sn: Snapshot, e: Entry<Meter>, contracts: set<string>) {
    var project := FindProject(sn.projects, e.key.project);
    project.Some? && project.value.contract in contracts
  }

  /** What a product counts of one record: its size-months by the product's scale, or its hours. */
  predicate Counts(product: Product, t: Totals, quantity: real) {
    && (product.scale.Some? ==> quantity == product.scale.value * t.sizeMonths)
    && (product.scale.None? ==> quantity == t.hours)
  }

  /** The row of a record: its project and contract, what the product counts of it, and the price found
      for its metadata, as agreed with the contract. */
  predicate BillsRecord(sn: Snapshot, product: Product, e: Entry<Meter>, row: Row) {
    var project, price := FindProject(sn.projects, e.key.project), SnapshotPrice(sn, product.metric, e.key.meta);
    && project.Some? && price.Some?
    && row.contract == project.value.contract && row.project == project.value.name
    && row.kind == Metered(product.metric, e.key.meta)
    && Counts(product, e.totals, row.quantity) && row.unit == price.value.unit
    && row.exact == row.quantity * UnitPrice(sn, row.contract, product.metric, price.value.unitPrice)
    && row.cost == RoundHalfEven(row.exact)
  }

  lemma RecordRow(sn: Snapshot, product: Product, e: Entry<Meter>, contracts: set<string>)
    ensures var r := Select(UsageLine(sn, product, e), contracts);
            if !Chosen(sn, e, contracts) then r == Some([])
            else if SnapshotPrice(sn, product.metric, e.key.meta).None? then r.None?
            else r.Some? && |r.value| == 1 && BillsRecord(sn, product, e, r.value[0])
  {
    hide RoundHalfEven, UnitPrice, SnapshotPrice, FindProject, Select;
    var lines := UsageLine(sn, product, e);
    if lines == [] {
      SelectNothing(contracts);
    } else {
      assert lines == [lines[0]];
      SelectOne(lines[0], contracts);
    }
  }

  lemma SelectNothing(contracts: set<string>)
    ensures Select([], contracts) == Some([])
  {
  }

  predicate AllPriced(sn: Snapshot, product: Product, es: seq<Entry<Meter>>) {
    forall k :: 0 <= k < |es| ==> SnapshotPrice(sn, product.metric, es[k].key.meta).Some?
  }

  /** The rows of a product: one for each record in scope, in order; or none at all, exactly when one of
      those records has no price. */
  lemma {:induction false} ProductRows(sn: Snapshot, product: Product, es: seq<Entry<Meter>>, contracts: set<string>)
    ensures var r, scope := Select(UsageLines(sn, product, es), contracts), InScope(sn, es, contracts);
            && (r.Some? <==> AllPriced(sn, product, scope))
            && (r.Some? ==> |r.value| == |scope|
                            && forall k :: 0 <= k < |scope| ==> BillsRecord(sn, product, scope[k], r.value[k]))
  {
    hide BillsRecord, SnapshotPrice, Chosen, UsageLine, Select;
    if es == [] {
      SelectNothing(contracts);
    } else {
      ProductRows(sn, product, es[1..], contracts);
      RecordRow(sn, product, es[0], contracts);
      SelectConcat(UsageLine(sn, product, es[0]), UsageLines(sn, product, es[1..]), contracts);
      var rest, scope := InScope(sn, es[1..], contracts), InScope(sn, es, contracts);
      if Chosen(sn, es[0], contracts) {
        assert scope[0] == es[0] && scope[1..] == rest;
        assert forall k :: 0 <= k < |rest| ==> scope[k + 1] == rest[k];
        assert forall k :: 0 < k < |scope| ==> scope[k] == rest[k - 1];
      } else {
        assert scope == rest;
      }
    }
  }

  // ---- quantities add up ----

  function Quantity(rows: seq<Row>): real {
    if rows == [] then 0.0 else rows[0].quantity + Quantity(rows[1..])
  }

  /** What a product bills of some records: their size-months by its scale, or their hours. */
  function Due(product: Product, es: seq<Entry<Meter>>): real {
    if product.scale.Some? then product.scale.value * GrandTotal(es, InSize) else GrandTotal(es, InHours)
  }

  lemma {:induction false} QuantitiesAddUp(sn: Snapshot, product: Product, es: seq<Entry<Meter>>, rows: seq<Row>)
    requires |rows| == |es| && forall k :: 0 <= k < |es| ==> BillsRecord(sn, product, es[k], rows[k])
    ensures Quantity(rows) == Due(product, es)
  {
    hide RoundHalfEven, UnitPrice, SnapshotPrice, FindProject;
    if es != [] {
      QuantitiesAddUp(sn, product, es[1..], rows[1..]);
      assert BillsRecord(sn, product, es[0], rows[0]);
      if product.scale.Some? {
        Distributes(product.scale.value, es[0].totals.sizeMonths, GrandTotal(es[1..], InSize));
      }
    }
  }

  lemma Distributes(a: real, b: real, c: real)
    ensures a * (b + c) == a * b + a * c
  {
  }

  /** The quantities of a product's rows add up to its scale times the size-months of its records in
      scope when it has a scale, and to their hours when it has none. */
  lemma ProductQuantity(sn: Snapshot, product: Product, es: seq<Entry<Meter>>, contracts: set<string>)
    requires Select(UsageLines(sn, product, es), contracts).Some?
    ensures Quantity(Select(UsageLines(sn, product, es), contracts).value) == Due(product, InScope(sn, es, contracts))
  {
    hide BillsRecord, SnapshotPrice, InScope, UsageLines, Select;
    ProductRows(sn, product, es, contracts);
    QuantitiesAddUp(sn, product, InScope(sn, es, contracts), Select(UsageLines(sn, product, es), contracts).value);
  }

  // ---- the whole report ----

  function MeteredQuantity(rows: seq<Row>, metric: string): real {
    if rows == [] then 0.0
    else (if rows[0].kind.Metered? && rows[0].kind.metric == metric then rows[0].quantity else 0.0)
         + MeteredQuantity(rows[1..], metric)
  }

  lemma {:induction false} MeteredConcat(a: seq<Row>, b: seq<Row>, metric: string)
    ensures MeteredQuantity(a + b, metric) == MeteredQuantity(a, metric) + MeteredQuantity(b, metric)
  {
    if a == [] {
      assert a + b == b;
    } else {
      assert (a + b)[1..] == a[1..] + b;
      MeteredConcat(a[1..], b, metric);
    }
  }

  lemma {:induction false} OneMetric(rows: seq<Row>, metric: string, wanted: string)
    requires forall k :: 0 <= k < |rows| ==> rows[k].kind.Metered? && rows[k].kind.metric == metric
    ensures MeteredQuantity(rows, wanted) == if metric == wanted then Quantity(rows) else 0.0
  {
    if rows != [] {
      OneMetric(rows[1..], metric, wanted);
    }
  }

  lemma {:induction false} NotMetered(rows: seq<Row>, wanted: string)
    requires forall k :: 0 <= k < |rows| ==> !rows[k].kind.Metered?
    ensures MeteredQuantity(rows, wanted) == 0.0
  {
    if rows != [] {
      NotMetered(rows[1..], wanted);
    }
  }

  /** What the products of a metric bill of the usage that was merged for them. */
  function PlanDue(sn: Snapshot, products: seq<Product>, usage: UsageByMetric, contracts: set<string>, metric: string)
    : real
  {
    if products == [] then 0.0
    else
      var product := products[|products| - 1];
      var es := ProductUsage(sn, product, usage);
      PlanDue(sn, products[..|products| - 1], usage, contracts, metric)
      + if product.metric == metric && es.Some? then Due(product, InScope(sn, es.value, contracts)) else 0.0
  }

  lemma {:induction false} PlanQuantity(sn: Snapshot, products: seq<Product>, usage: UsageByMetric,
                                        contracts: set<string>, metric: string)
    requires MeteredRows(sn, products, usage, contracts).Some?
    ensures MeteredQuantity(MeteredRows(sn, products, usage, contracts).value, metric)
         == PlanDue(sn, products, usage, contracts, metric)
  {
    if products == [] {
      SelectNothing(contracts);
    } else {
      hide MeteredRows, MeteredLines, ProductUsage, UsageLines, Select, MeteredQuantity, Due, InScope, BillsRecord;
      var init, product := products[..|products| - 1], products[|products| - 1];
      MeteredStep(sn, products, usage, contracts);
      PlanQuantity(sn, init, usage, contracts, metric);
      var es := ProductUsage(sn, product, usage).value;
      var rows := Select(UsageLines(sn, product, es), contracts).value;
      MeteredConcat(MeteredRows(sn, init, usage, contracts).value, rows, metric);
      ProductRows(sn, product, es, contracts);
      ProductQuantity(sn, product, es, contracts);
      ProductMetric(sn, product, InScope(sn, es, contracts), rows);
      OneMetric(rows, product.metric, metric);
    }
  }

  lemma ProductMetric(sn: Snapshot, product: Product, es: seq<Entry<Meter>>, rows: seq<Row>)
    requires |rows| == |es| && forall k :: 0 <= k < |es| ==> BillsRecord(sn, product, es[k], rows[k])
    ensures forall k :: 0 <= k < |rows| ==> rows[k].kind.Metered? && rows[k].kind.metric == product.metric
  {
    hide SnapshotPrice, FindProject, UnitPrice, RoundHalfEven;
    forall k | 0 <= k < |rows| ensures rows[k].kind.Metered? && rows[k].kind.metric == product.metric {
      assert BillsRecord(sn, product, es[k], rows[k]);
    }
  }

  // ---- what every row charges ----

  /** The list price a row of a kind is charged by: its resource, its unit and its price. */
  ghost predicate Listed(sn: Snapshot, row: Row, resource: string, unit: string, price: real) {
    match row.kind
    case Metered(metric, meta) =>
      resource == metric && var p := SnapshotPrice(sn, metric, meta);
      p.Some? && unit == p.value.unit && price == p.value.unitPrice
    case ManagementFee =>
      && resource == "cluster_management_fee" && row.quantity == 1.0
      && exists c :: c in sn.clusters && c.contract == row.contract && c.slug == row.project
                     && PackageFee(sn, c.workerGroups) == Some((price, unit))
    case ControllerSetup => row.quantity == 1.0 && SetupListed(sn, "controllers", resource, unit, price)
    case InitialSetup(groups) => row.quantity == groups as real && SetupListed(sn, "workers", resource, unit, price)
    case Expansion(delta) => row.quantity == delta as real && SetupListed(sn, "workers", resource, unit, price)
    case AddonFee(addon) =>
      && resource == "cluster_addon_fee" && row.quantity == 1.0
      && var p := SnapshotPrice(sn, "cluster_addon_fee", map["addon" := addon]);
      p.Some? && unit == p.value.unit && price == p.value.unitPrice
  }

  predicate SetupListed(sn: Snapshot, group: string, resource: string, unit: string, price: real) {
    && resource == "cluster_setup_fee"
    && var p := SnapshotPrice(sn, "cluster_setup_fee", map["group_type" := group]);
    p.Some? && unit == p.value.unit && price == p.value.unitPrice
  }

  /** A row charges its quantity at the price its contract pays for what its kind is listed at. */
  ghost predicate ChargesListed(sn: Snapshot, row: Row) {
    exists resource, unit, price ::
      Listed(sn, row, resource, unit, price) && row.unit == unit
      && row.exact == row.quantity * UnitPrice(sn, row.contract, resource, price)
  }

  ghost predicate LinesCharge(sn: Snapshot, lines: seq<Line>) {
    forall i :: 0 <= i < |lines| && lines[i].Written? ==> ChargesListed(sn, lines[i].row)
  }

  lemma ChargedLists(sn: Snapshot, l: Line, contract: string, project: string, kind: Label, resource: string,
                     quantity: real, unit: string, price: real)
    requires l == Charged(sn, contract, project, kind, resource, quantity, unit, price)
    requires Listed(sn, l.row, resource, unit, price)
    ensures ChargesListed(sn, l.row)
  {
    hide Listed, UnitPrice, RoundHalfEven;
  }

  lemma {:induction false} UsageCharges(sn: Snapshot, product: Product, es: seq<Entry<Meter>>)
    ensures LinesCharge(sn, UsageLines(sn, product, es))
  {
    if es != [] {
      hide ChargesListed, UsageLine;
      UsageCharges(sn, product, es[1..]);
      RecordCharges(sn, product, es[0]);
    }
  }

  lemma RecordCharges(sn: Snapshot, product: Product, e: Entry<Meter>)
    ensures LinesCharge(sn, UsageLine(sn, product, e))
  {
    hide ChargesListed, UnitPrice, RoundHalfEven, SnapshotPrice, FindProject, PackageFee;
    var project, price := FindProject(sn.projects, e.key.project), SnapshotPrice(sn, product.metric, e.key.meta);
    if project.Some? && price.Some? {
      var quantity := UsageLine(sn, product, e)[0].row.quantity;
      ChargedLists(sn, UsageLine(sn, product, e)[0], project.value.contract, project.value.name,
                   Metered(product.metric, e.key.meta), product.metric, quantity, price.value.unit, price.value.unitPrice);
    }
  }

  lemma {:induction false} MeteredCharges(sn: Snapshot, products: seq<Product>, usage: UsageByMetric)
    requires MeteredLines(sn, products, usage).Some?
    ensures LinesCharge(sn, MeteredLines(sn, products, usage).value)
  {
    if products != [] {
      hide ChargesListed, UsageLines, ProductUsage;
      MeteredCharges(sn, products[..|products| - 1], usage);
      var product := products[|products| - 1];
      UsageCharges(sn, product, ProductUsage(sn, product, usage).value);
    }
  }

  lemma SetupCharges(sn: Snapshot, contract: string, slug: string, group: string, kind: Label, quantity: int)
    requires (kind == ControllerSetup && group == "controllers" && quantity == 1)
             || (group == "workers" && (kind == InitialSetup(quantity) || kind == Expansion(quantity)))
    ensures LinesCharge(sn, SetupLine(sn, contract, slug, group, kind, quantity))
  {
    hide ChargesListed, UnitPrice, RoundHalfEven, SnapshotPrice, PackageFee;
    var price := SnapshotPrice(sn, "cluster_setup_fee", map["group_type" := group]);
    if price.Some? {
      ChargedLists(sn, SetupLine(sn, contract, slug, group, kind, quantity)[0], contract, slug, kind,
                   "cluster_setup_fee", quantity as real, price.value.unit, price.value.unitPrice);
    }
  }

  lemma ClusterCharges(sn: Snapshot, c: ClusterFact)
    requires c in sn.clusters
    ensures LinesCharge(sn, ClusterLines(sn, c))
  {
    hide ChargesListed, UnitPrice, RoundHalfEven, SnapshotPrice, PackageFee, SetupLine;
    SetupCharges(sn, c.contract, c.slug, "controllers", ControllerSetup, 1);
    SetupCharges(sn, c.contract, c.slug, "workers", InitialSetup(c.initialGroups), c.initialGroups);
    var fee := PackageFee(sn, c.workerGroups);
    if fee.Some? {
      ChargedLists(sn, FeeLine(sn, c), c.contract, c.slug, ManagementFee, "cluster_management_fee", 1.0, fee.value.1,
                   fee.value.0);
    }
  }

  lemma {:induction false} ClustersCharge(sn: Snapshot, cs: seq<ClusterFact>)
    requires forall c :: c in cs ==> c in sn.clusters
    ensures LinesCharge(sn, AllClusterLines(sn, cs))
  {
    if cs != [] {
      hide ChargesListed, ClusterLines;
      ClustersCharge(sn, cs[..|cs| - 1]);
      ClusterCharges(sn, cs[|cs| - 1]);
    }
  }

  lemma {:induction false} ResizesCharge(sn: Snapshot, rs: seq<ResizeFact>)
    ensures LinesCharge(sn, AllResizeLines(sn, rs))
  {
    if rs != [] {
      hide ChargesListed, SetupLine;
      var r := rs[|rs| - 1];
      ResizesCharge(sn, rs[..|rs| - 1]);
      SetupCharges(sn, r.contract, r.slug, "workers", Expansion(r.delta), r.delta);
    }
  }

  lemma AddonCharges(sn: Snapshot, x: AddonFact)
    ensures LinesCharge(sn, AddonLine(sn, x))
  {
    hide ChargesListed, UnitPrice, RoundHalfEven, SnapshotPrice, PackageFee;
    var price := SnapshotPrice(sn, "cluster_addon_fee", map["addon" := x.addon]);
    if price.Some? {
      ChargedLists(sn, AddonLine(sn, x)[0], x.contract, x.slug, AddonFee(x.addon), "cluster_addon_fee", 1.0,
                   price.value.unit, price.value.unitPrice);
    }
  }

  lemma {:induction false} AddonsCharge(sn: Snapshot, xs: seq<AddonFact>)
    ensures LinesCharge(sn, AllAddonLines(sn, xs))
  {
    if xs != [] {
      hide ChargesListed, AddonLine;
      AddonsCharge(sn, xs[..|xs| - 1]);
      AddonCharges(sn, xs[|xs| - 1]);
    }
  }

  lemma {:induction false} SelectCharges(sn: Snapshot, lines: seq<Line>, contracts: set<string>)
    requires LinesCharge(sn, lines) && Select(lines, contracts).Some?
    ensures forall i :: 0 <= i < |Select(lines, contracts).value| ==> ChargesListed(sn, Select(lines, contracts).value[i])
  {
    if lines != [] {
      hide ChargesListed;
      SelectCharges(sn, lines[..|lines| - 1], contracts);
    }
  }

  /** Synthetic lines are never metered. */
  predicate NoneMetered(lines: seq<Line>) {
    forall i :: 0 <= i < |lines| && lines[i].Written? ==> !lines[i].row.kind.Metered?
  }

  lemma {:induction false} ClustersNotMetered(sn: Snapshot, cs: seq<ClusterFact>)
    ensures NoneMetered(AllClusterLines(sn, cs))
  {
    hide RoundHalfEven, UnitPrice, SnapshotPrice, PackageFee;
    if cs != [] {
      ClustersNotMetered(sn, cs[..|cs| - 1]);
      assert NoneMetered(ClusterLines(sn, cs[|cs| - 1]));
    }
  }

  lemma {:induction false} ResizesNotMetered(sn: Snapshot, rs: seq<ResizeFact>)
    ensures NoneMetered(AllResizeLines(sn, rs))
  {
    hide RoundHalfEven, UnitPrice, SnapshotPrice;
    if rs != [] {
      ResizesNotMetered(sn, rs[..|rs| - 1]);
    }
  }

  lemma {:induction false} AddonsNotMetered(sn: Snapshot, xs: seq<AddonFact>)
    ensures NoneMetered(AllAddonLines(sn, xs))
  {
    hide RoundHalfEven, UnitPrice, SnapshotPrice;
    if xs != [] {
      AddonsNotMetered(sn, xs[..|xs| - 1]);
    }
  }

  lemma {:induction false} SelectNotMetered(lines: seq<Line>, contracts: set<string>, metric: string)
    requires NoneMetered(lines) && Select(lines, contracts).Some?
    ensures forall i :: 0 <= i < |Select(lines, contracts).value| ==> !Select(lines, contracts).value[i].kind.Metered?
  {
    if lines != [] {
      SelectNotMetered(lines[..|lines| - 1], contracts, metric);
    }
  }

  /** Every row of every report charges its quantity at the price listed for its kind, as agreed with its
      contract; and the quantities of a metric's rows add up to what its products bill of the usage in
      scope: size-months by the scale, or hours. */
  lemma ReportBills(sn: Snapshot, usage: UsageByMetric, contracts: set<string>, metric: string)
    requires Report(sn, usage, contracts).Some?
    ensures var rows := Report(sn, usage, contracts).value;
            && (forall i :: 0 <= i < |rows| ==> ChargesListed(sn, rows[i]))
            && MeteredQuantity(rows, metric) == PlanDue(sn, sn.plan, usage, contracts, metric)
  {
    hide MeteredLines, AllClusterLines, AllResizeLines, AllAddonLines, Select, ChargesListed, MeteredQuantity, PlanDue;
    var metered := MeteredLines(sn, sn.plan, usage).value;
    MeteredCharges(sn, sn.plan, usage);
    ClustersCharge(sn, sn.clusters);
    ResizesCharge(sn, sn.resizes);
    AddonsCharge(sn, sn.addons);
    SelectCharges(sn, metered + SyntheticLines(sn), contracts);
    ClustersNotMetered(sn, sn.clusters);
    ResizesNotMetered(sn, sn.resizes);
    AddonsNotMetered(sn, sn.addons);
    SelectConcat(metered, SyntheticLines(sn), contracts);
    SelectNotMetered(SyntheticLines(sn), contracts, metric);
    NotMetered(Select(SyntheticLines(sn), contracts).value, metric);
    PlanQuantity(sn, sn.plan, usage, contracts, metric);
    MeteredConcat(Select(metered, contracts).value, Select(SyntheticLines(sn), contracts).value, metric);
  }

  // ---- addons ----

  predicate Payable(sn: Snapshot, x: AddonFact, contracts: set<string>) {
    x.contract in contracts && SnapshotPrice(sn, "cluster_addon_fee", map["addon" := x.addon]).Some?
  }

  /** The addons of the chosen contracts that have a price, in order. */
  function PricedAddons(sn: Snapshot, xs: seq<AddonFact>, contracts: set<string>): seq<AddonFact> {
    if xs == [] then []
    else PricedAddons(sn, xs[..|xs| - 1], contracts)
         + if Payable(sn, xs[|xs| - 1], contracts) then [xs[|xs| - 1]] else []
  }

  predicate BillsAddon(x: AddonFact, row: Row) {
    row.contract == x.contract && row.project == x.slug && row.kind == AddonFee(x.addon)
  }

  lemma AddonRow(sn: Snapshot, x: AddonFact, contracts: set<string>)
    ensures var r := Select(AddonLine(sn, x), contracts);
            if Payable(sn, x, contracts) then r.Some? && |r.value| == 1 && BillsAddon(x, r.value[0]) else r == Some([])
  {
    hide RoundHalfEven, UnitPrice, SnapshotPrice, Select;
    if AddonLine(sn, x) == [] {
      SelectNothing(contracts);
    } else {
      assert AddonLine(sn, x) == [AddonLine(sn, x)[0]];
      SelectOne(AddonLine(sn, x)[0], contracts);
    }
  }

  /** Addons are billed once each, in order, as far as they have a price. */
  lemma {:induction false} AddonRows(sn: Snapshot, xs: seq<AddonFact>, contracts: set<string>)
    ensures var r, scope := Select(AllAddonLines(sn, xs), contracts), PricedAddons(sn, xs, contracts);
            && r.Some? && |r.value| == |scope|
            && forall k :: 0 <= k < |scope| ==> BillsAddon(scope[k], r.value[k])
  {
    if xs == [] {
      SelectNothing(contracts);
    } else {
      hide AddonLine, Select, BillsAddon, Payable;
      var init, x := xs[..|xs| - 1], xs[|xs| - 1];
      AddonRows(sn, init, contracts);
      AddonRow(sn, x, contracts);
      SelectConcat(AllAddonLines(sn, init), AddonLine(sn, x), contracts);
    }
  }
}
