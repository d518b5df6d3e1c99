/** Rendering billing rows from a frozen snapshot and merged usage.

    A row keeps its exact cost beside the whole-krona cost that is printed.  CSV syntax is left
    out: a report is its sequence of rows.  An absent string column is the empty string.
 */
module Rendering {
  import opened Options
  import opened UsageDict
  import opened Shards
  import ShardedUsage

  datatype Contract = Contract(number: string, customer: string)
  datatype Project = Project(id: string, name: string, contract: string)
  datatype Product = Product(metric: string, scale: Option<real>)
  datatype Price = Price(resourceType: string, field: string, value: string, unit: string, unitPrice: real)
  datatype Override = Override(contract: string, resourceType: string, unitPrice: real)
  datatype Rebate = Rebate(contract: string, percent: real)
  datatype ClusterFact = ClusterFact(contract: string, slug: string, workerGroups: int,
                                     initialGroups: int, provisionedAt: int)
  datatype ResizeFact = ResizeFact(contract: string, slug: string, delta: int)
  datatype AddonFact = AddonFact(contract: string, slug: string, addon: string)

  datatype Snapshot = Snapshot(contracts: seq<Contract>, projects: seq<Project>, plan: seq<Product>,
                               prices: seq<Price>, overrides: seq<Override>, rebates: seq<Rebate>,
                               volumeTypes: map<string, string>, clusters: seq<ClusterFact>,
                               resizes: seq<ResizeFact>, addons: seq<AddonFact>, start: int, end: int)

  datatype Label = Metered(metric: string, meta: map<string, string>) | ManagementFee
                 | ControllerSetup | InitialSetup(groups: int) | Expansion(delta: int) | AddonFee(addon: string)

  datatype Row = Row(contract: string, project: string, kind: Label, quantity: real, unit: string,
                     exact: real, cost: int)

  // ---- money ----

  /** Python's `round` of a decimal to an integer: to nearest, ties to even. */
  function RoundHalfEven(x: real): int {
    var below := x.Floor;
    var rest := x - below as real;
    if rest < 0.5 then below
    else if rest > 0.5 then below + 1
    else if below % 2 == 0 then below else below + 1
  }

  /** It is the only integer within one half, except at ties, where it is the even one of two. */
  lemma RoundMeaning(x: real, n: int)
    ensures RoundHalfEven(x) == n
       <==> -0.5 <= n as real - x <= 0.5 && ((n as real - x == 0.5 || x - n as real == 0.5) ==> n % 2 == 0)
  {
  }

  function TotalCost(rows: seq<Row>): int {
    if rows == [] then 0 else rows[0].cost + TotalCost(rows[1..])
  }

  function TotalExact(rows: seq<Row>): real {
    if rows == [] then 0.0 else rows[0].exact + TotalExact(rows[1..])
  }

  /** Printed totals drift from the exact total by at most half a krona a row. */
  lemma {:induction false} RoundingDrift(rows: seq<Row>)
    requires forall i :: 0 <= i < |rows| ==> rows[i].cost == RoundHalfEven(rows[i].exact)
    ensures -(|rows| as real) <= 2.0 * (TotalCost(rows) as real - TotalExact(rows)) <= |rows| as real
  {
    if rows != [] {
      RoundingDrift(rows[1..]);
      RoundMeaning(rows[0].exact, rows[0].cost);
    }
  }

  // ---- prices ----

  predicate Specific(p: Price, metric: string, meta: map<string, string>) {
    && p.resourceType == metric && p.field != "" && p.value != ""
    && p.field in meta && meta[p.field] == p.value
  }

  predicate Base(p: Price, metric: string) {
    p.resourceType == metric && p.field == ""
  }

  /** The scan over the prices, with the base price met so far. */
  function FindPrice(prices: seq<Price>, metric: string, meta: map<string, string>, base: Option<Price>)
    : Option<Price>
  {
    if prices == [] then base
    else if prices[0].resourceType != metric then FindPrice(prices[1..], metric, meta, base)
    else if prices[0].field != "" && prices[0].value != "" then
      if prices[0].field in meta && meta[prices[0].field] == prices[0].value then Some(prices[0])
      else FindPrice(prices[1..], metric, meta, base)
    else if prices[0].field == "" then FindPrice(prices[1..], metric, meta, Some(prices[0]))
    else FindPrice(prices[1..], metric, meta, base)
  }

  function SnapshotPrice(sn: Snapshot, metric: string, meta: map<string, string>): Option<Price> {
    FindPrice(sn.prices, metric, meta, None)
  }

  /** The first specific price wins. */
  lemma {:induction false} FirstSpecific(prices: seq<Price>, metric: string, meta: map<string, string>,
                                         base: Option<Price>, i: nat)
    requires i < |prices| && Specific(prices[i], metric, meta)
    requires forall j :: 0 <= j < i ==> !Specific(prices[j], metric, meta)
    ensures FindPrice(prices, metric, meta, base) == Some(prices[i])
  {
    if i > 0 {
      FirstSpecific(prices[1..], metric, meta, if Base(prices[0], metric) then Some(prices[0]) else base, i - 1);
    }
  }

  /** Failing that the last base price, and failing that the price given. */
  lemma {:induction false} LastBase(prices: seq<Price>, metric: string, meta: map<string, string>,
                                    base: Option<Price>)
    requires forall j :: 0 <= j < |prices| ==> !Specific(prices[j], metric, meta)
    ensures (forall j :: 0 <= j < |prices| ==> !Base(prices[j], metric)) ==>
              FindPrice(prices, metric, meta, base) == base
    ensures forall i :: 0 <= i < |prices| && Base(prices[i], metric)
                        && (forall j :: i < j < |prices| ==> !Base(prices[j], metric))
                        ==> FindPrice(prices, metric, meta, base) == Some(prices[i])
  {
    if prices != [] {
      var rest := prices[1..];
      assert forall j :: 0 <= j < |rest| ==> rest[j] == prices[j + 1];
      assert !Specific(prices[0], metric, meta);
      LastBase(rest, metric, meta, if Base(prices[0], metric) then Some(prices[0]) else base);
      forall i | 0 <= i < |prices| && Base(prices[i], metric)
                 && (forall j :: i < j < |prices| ==> !Base(prices[j], metric))
        ensures FindPrice(prices, metric, meta, base) == Some(prices[i])
      {
        if i > 0 {
          assert Base(rest[i - 1], metric);
          assert forall j :: i - 1 < j < |rest| ==> !Base(rest[j], metric);
        } else {
          assert forall j :: 0 <= j < |rest| ==> !Base(rest[j], metric);
        }
      }
    }
  }

  function OverridePrice(os: seq<Override>, contract: string, resourceType: string, price: real): real {
    if os == [] then price
    else if os[0].contract == contract && os[0].resourceType == resourceType then os[0].unitPrice
    else OverridePrice(os[1..], contract, resourceType, price)
  }

  function RebatePrice(rs: seq<Rebate>, contract: string, price: real): real {
    if rs == [] then price
    else if rs[0].contract == contract then price * (1.0 - rs[0].percent / 100.0)
    else RebatePrice(rs[1..], contract, price)
  }

  function UnitPrice(sn: Snapshot, contract: string, resourceType: string, price: real): real {
    RebatePrice(sn.rebates, contract, OverridePrice(sn.overrides, contract, resourceType, price))
  }

  predicate Overrides(o: Override, contract: string, resourceType: string) {
    o.contract == contract && o.resourceType == resourceType
  }

  lemma {:induction false} FirstOverride(os: seq<Override>, contract: string, resourceType: string, price: real, i: nat)
    requires i <= |os| && (i < |os| ==> Overrides(os[i], contract, resourceType))
    requires forall k :: 0 <= k < i ==> !Overrides(os[k], contract, resourceType)
    ensures OverridePrice(os, contract, resourceType, price) == if i < |os| then os[i].unitPrice else price
  {
    if i > 0 {
      assert !Overrides(os[0], contract, resourceType);
      FirstOverride(os[1..], contract, resourceType, price, i - 1);
    }
  }

  lemma {:induction false} FirstRebate(rs: seq<Rebate>, contract: string, price: real, j: nat)
    requires j <= |rs| && (j < |rs| ==> rs[j].contract == contract)
    requires forall k :: 0 <= k < j ==> rs[k].contract != contract
    ensures RebatePrice(rs, contract, price)
         == if j < |rs| then price * (1.0 - rs[j].percent / 100.0) else price
  {
    if j > 0 {
      FirstRebate(rs[1..], contract, price, j - 1);
    }
  }

  /** A contract pays its first override of a resource instead of the list price, less its first
      rebate; `i` and `j` are where those stand, or past the end where it has none. */
  lemma ContractPrice(sn: Snapshot, contract: string, resourceType: string, price: real, i: nat, j: nat)
    requires i <= |sn.overrides| && (i < |sn.overrides| ==> Overrides(sn.overrides[i], contract, resourceType))
    requires forall k :: 0 <= k < i ==> !Overrides(sn.overrides[k], contract, resourceType)
    requires j <= |sn.rebates| && (j < |sn.rebates| ==> sn.rebates[j].contract == contract)
    requires forall k :: 0 <= k < j ==> sn.rebates[k].contract != contract
    ensures var agreed := if i < |sn.overrides| then sn.overrides[i].unitPrice else price;
            UnitPrice(sn, contract, resourceType, price)
            == if j < |sn.rebates| then agreed * (1.0 - sn.rebates[j].percent / 100.0) else agreed
  {
    FirstOverride(sn.overrides, contract, resourceType, price, i);
    FirstRebate(sn.rebates, contract, if i < |sn.overrides| then sn.overrides[i].unitPrice else price, j);
  }

  function ParseNat(s: string): Option<nat> {
    if s == [] then None
    else if !('0' <= s[|s| - 1] <= '9') then None
    else
      var digit := s[|s| - 1] as int - '0' as int;
      if |s| == 1 then Some(digit)
      else match ParseNat(s[..|s| - 1])
           case None => None
           case Some(n) => Some(10 * n + digit)
  }

  function PackageGroups(p: Price): Option<nat> {
    if p.resourceType == "cluster_management_fee" && p.field == "worker_groups" then ParseNat(p.value) else None
  }

  /** The packages in stable order of their group count. */
  function Packages(prices: seq<Price>): seq<(nat, Price)> {
    if prices == [] then []
    else match PackageGroups(prices[|prices| - 1])
         case None => Packages(prices[..|prices| - 1])
         case Some(n) => InsertPackage(Packages(prices[..|prices| - 1]), n, prices[|prices| - 1])
  }

  function InsertPackage(ps: seq<(nat, Price)>, n: nat, p: Price): seq<(nat, Price)> {
    if ps == [] || ps[|ps| - 1].0 <= n then ps + [(n, p)]
    else InsertPackage(ps[..|ps| - 1], n, p) + [ps[|ps| - 1]]
  }

  function ExactPackage(ps: seq<(nat, Price)>, groups: int): Option<Price> {
    if ps == [] then None else if ps[0].0 == groups then Some(ps[0].1) else ExactPackage(ps[1..], groups)
  }

  /** The package fee of a worker-group count; beyond the largest package, one increment a group. */
  function PackageFee(sn: Snapshot, groups: int): Option<(real, string)> {
    var ps := Packages(sn.prices);
    if ps == [] then None
    else match ExactPackage(ps, groups)
         case Some(p) => Some((p.unitPrice, p.unit))
         case None =>
           if groups < ps[0].0 then None
           else match SnapshotPrice(sn, "cluster_management_fee_increment", map[])
                case None => None
                case Some(inc) =>
                  var largest := ps[|ps| - 1];
                  Some((largest.1.unitPrice + (groups - largest.0) as real * inc.unitPrice, largest.1.unit))
  }

  // ---- volume types ----

  /** Resolve a Gnocchi volume-type id to its Cinder name; a name stands for itself. */
  function Resolve(value: string, types: map<string, string>): Option<string> {
    if value in types then Some(types[value]) else if value in types.Values then Some(value) else None
  }

  function Recode(e: Entry<Meter>, types: map<string, string>): Option<Entry<Meter>> {
    if "volume_type" !in e.key.meta || e.key.meta["volume_type"] == "" then None
    else match Resolve(e.key.meta["volume_type"], types)
         case None => None
         case Some(name) =>
           Some(Entry(Meter(e.key.project, e.key.meta["volume_type" := name]), e.totals))
  }

  /** A recoded record keeps its project, its usage and its other metadata, and names a type of the
      catalogue; recoding it again changes nothing exactly when that name is not the id of another. */
  lemma RecodeMeaning(e: Entry<Meter>, types: map<string, string>)
    requires Recode(e, types).Some?
    ensures var r := Recode(e, types).value;
            && r.key.project == e.key.project && r.totals == e.totals
            && r.key.meta.Keys == e.key.meta.Keys
            && (forall k :: k in e.key.meta && k != "volume_type" ==> r.key.meta[k] == e.key.meta[k])
            && "volume_type" in e.key.meta && e.key.meta["volume_type"] != ""
            && var name := r.key.meta["volume_type"];
            && name in types.Values
            && (name != "" ==> (Recode(r, types) == Some(r) <==> name !in types || types[name] == name))
  {
    assert "volume_type" in e.key.meta;
    var r := Recode(e, types).value;
    var name := r.key.meta["volume_type"];
    assert r.key.meta["volume_type" := name] == r.key.meta;
    if Recode(r, types) == Some(r) && name in types {
      assert Recode(r, types).value.key.meta["volume_type"] == types[name];
    }
  }

  predicate Resolvable(es: seq<Entry<Meter>>, types: map<string, string>) {
    forall i :: 0 <= i < |es| ==> Recode(es[i], types).Some?
  }

  function Recoded(es: seq<Entry<Meter>>, types: map<string, string>): (r: seq<Entry<Meter>>)
    requires Resolvable(es, types)
    ensures |r| == |es| && forall i :: 0 <= i < |r| ==> r[i] == Recode(es[i], types).value
  {
    seq(|es|, i requires 0 <= i < |es| => Recode(es[i], types).value)
  }

  /** Resolve every record and roll equivalent ones together. */
  method CanonicalizeVolumeUsage(es: seq<Entry<Meter>>, types: map<string, string>)
    returns (r: Option<seq<Entry<Meter>>>)
    ensures r.Some? <==> Resolvable(es, types)
    ensures r.Some? ==> Valid(Accumulate(Recoded(es, types)))
                        && r.value == Entries(Accumulate(Recoded(es, types)))
  {
    var canonical: Dict<Meter> := Dict([], map[]);
    for i := 0 to |es|
      invariant Resolvable(es[..i], types) && canonical == Accumulate(Recoded(es[..i], types))
    {
      var entry := Recode(es[i], types);
      if entry.None? {
        return None;
      }
      assert es[..i + 1] == es[..i] + [es[i]];
      assert Recoded(es[..i + 1], types)[..i] == Recoded(es[..i], types);
      canonical := Add(canonical, entry.value.key, entry.value.totals);
    }
    assert es[..|es|] == es;
    AccumulateMeaning(Recoded(es, types));
    return Some(Entries(canonical));
  }

  /** The same, as a specification. */
  function Canonical(es: seq<Entry<Meter>>, types: map<string, string>): Option<seq<Entry<Meter>>> {
    if Resolvable(es, types) then
      AccumulateMeaning(Recoded(es, types)); Some(Entries(Accumulate(Recoded(es, types))))
    else None
  }

  lemma {:induction false} RecodedTotal(es: seq<Entry<Meter>>, types: map<string, string>, f: Figure)
    requires Resolvable(es, types)
    ensures GrandTotal(Recoded(es, types), f) == GrandTotal(es, f)
  {
    if es != [] {
      assert Resolvable(es[1..], types) by {
        assert forall i :: 0 <= i < |es[1..]| ==> es[1..][i] == es[i + 1];
      }
      assert Recoded(es, types)[1..] == Recoded(es[1..], types);
      RecodedTotal(es[1..], types, f);
    }
  }

  /** Canonicalisation conserves total hours and total size-months. */
  lemma CanonicalConserves(es: seq<Entry<Meter>>, types: map<string, string>, f: Figure)
    requires Canonical(es, types).Some?
    ensures GrandTotal(Canonical(es, types).value, f) == GrandTotal(es, f)
  {
    AccumulateConserves(Recoded(es, types), f);
    RecodedTotal(es, types, f);
  }

  /** It does not depend on the order of its input, except in the order of its output. */
  lemma CanonicalPermutation(a: seq<Entry<Meter>>, b: seq<Entry<Meter>>, types: map<string, string>)
    requires multiset(a) == multiset(b)
    ensures Canonical(a, types).Some? <==> Canonical(b, types).Some?
    ensures Canonical(a, types).Some? ==>
              multiset(Canonical(a, types).value) == multiset(Canonical(b, types).value)
  {
    SameMembers(a, b);
    assert Resolvable(a, types) <==> forall e :: e in a ==> Recode(e, types).Some?;
    assert Resolvable(b, types) <==> forall e :: e in b ==> Recode(e, types).Some?;
    if Resolvable(a, types) {
      RecodedPermutation(a, b, types);
      AccumulatePermutation(Recoded(a, types), Recoded(b, types));
    }
  }

  lemma SameMembers<T>(a: seq<T>, b: seq<T>)
    requires multiset(a) == multiset(b)
    ensures forall x :: x in a <==> x in b
  {
    forall x ensures x in a <==> x in b {
      assert x in a <==> x in multiset(a);
    }
  }

  lemma {:induction false} RecodedPermutation(a: seq<Entry<Meter>>, b: seq<Entry<Meter>>,
                                              types: map<string, string>)
    requires multiset(a) == multiset(b) && Resolvable(a, types) && Resolvable(b, types)
    ensures multiset(Recoded(a, types)) == multiset(Recoded(b, types))
  {
    if a == [] {
      assert |b| == |multiset(b)| == |multiset(a)| == 0;
    } else {
      hide Recode;
      var i := Pick(a, b);
      RecodedWithout(a, 0, types);
      RecodedWithout(b, i, types);
      assert a[..0] + a[1..] == a[1..];
      RecodedPermutation(a[1..], b[..i] + b[i + 1..], types);
    }
  }

  lemma RecodedWithout(es: seq<Entry<Meter>>, i: nat, types: map<string, string>)
    requires i < |es| && Resolvable(es, types)
    ensures Resolvable(es[..i] + es[i + 1..], types)
    ensures multiset(Recoded(es, types))
         == multiset{Recode(es[i], types).value} + multiset(Recoded(es[..i] + es[i + 1..], types))
  {
    hide Recode;
    var rest := es[..i] + es[i + 1..];
    assert forall j :: 0 <= j < |rest| ==> rest[j] == if j < i then es[j] else es[j + 1];
    var r := Recoded(es, types);
    assert Recoded(rest, types) == r[..i] + r[i + 1..];
    CountAround(r, i);
  }

  lemma CountAround<T>(s: seq<T>, i: nat)
    requires i < |s|
    ensures multiset(s) == multiset{s[i]} + multiset(s[..i] + s[i + 1..])
  {
    assert s == s[..i] + [s[i]] + s[i + 1..];
  }

  // ---- lines: what a report would print for each contract ----

  /** One line, before any choice of contracts: a row, or a pricing error. */
  datatype Line = Written(row: Row) | Unpriced(contract: string)

  function ContractOf(l: Line): string {
    match l
    case Written(row) => row.contract
    case Unpriced(contract) => contract
  }

  function FindProject(ps: seq<Project>, id: string): Option<Project> {
    if ps == [] then None
    else if ps[|ps| - 1].id == id then Some(ps[|ps| - 1]) else FindProject(ps[..|ps| - 1], id)
  }

  /** The last project listed under an id is the one that counts. */
  lemma {:induction false} LastProject(ps: seq<Project>, id: string)
    ensures FindProject(ps, id).None? <==> forall i :: 0 <= i < |ps| ==> ps[i].id != id
    ensures forall i :: 0 <= i < |ps| && ps[i].id == id && (forall j :: i < j < |ps| ==> ps[j].id != id)
                        ==> FindProject(ps, id) == Some(ps[i])
  {
    if ps != [] {
      LastProject(ps[..|ps| - 1], id);
    }
  }

  function Charged(sn: Snapshot, contract: string, project: string, kind: Label, resourceType: string,
                   quantity: real, unit: string, price: real): (l: Line)
    ensures l.Written? && l.row.contract == contract
  {
    var exact := quantity * UnitPrice(sn, contract, resourceType, price);
    Written(Row(contract, project, kind, quantity, unit, exact, RoundHalfEven(exact)))
  }

  /** The line of one usage record; none when its project is outside the frozen scope. */
  function UsageLine(sn: Snapshot, product: Product, e: Entry<Meter>): seq<Line> {
    match FindProject(sn.projects, e.key.project)
    case None => []
    case Some(project) =>
      match SnapshotPrice(sn, product.metric, e.key.meta)
      case None => [Unpriced(project.contract)]
      case Some(price) =>
        var quantity := if product.scale.Some? then e.totals.sizeMonths * product.scale.value
                        else e.totals.hours;
        [Charged(sn, project.contract, project.name, Metered(product.metric, e.key.meta), product.metric,
                 quantity, price.unit, price.unitPrice)]
  }

  function UsageLines(sn: Snapshot, product: Product, es: seq<Entry<Meter>>): seq<Line> {
    if es == [] then [] else UsageLine(sn, product, es[0]) + UsageLines(sn, product, es[1..])
  }

  function FeeLine(sn: Snapshot, c: ClusterFact): Line {
    match PackageFee(sn, c.workerGroups)
    case None => Unpriced(c.contract)
    case Some(fee) => Charged(sn, c.contract, c.slug, ManagementFee, "cluster_management_fee", 1.0, fee.1, fee.0)
  }

  /** The setup fees of the period a cluster was provisioned in. */
  function SetupLines(sn: Snapshot, c: ClusterFact): seq<Line> {
    if sn.start <= c.provisionedAt < sn.end then
      SetupLine(sn, c.contract, c.slug, "controllers", ControllerSetup, 1) + WorkerLines(sn, c)
    else []
  }

  function WorkerLines(sn: Snapshot, c: ClusterFact): seq<Line> {
    if c.initialGroups > 0
    then SetupLine(sn, c.contract, c.slug, "workers", InitialSetup(c.initialGroups), c.initialGroups)
    else []
  }

  function ClusterLines(sn: Snapshot, c: ClusterFact): seq<Line> {
    [FeeLine(sn, c)] + SetupLines(sn, c)
  }

  function SetupLine(sn: Snapshot, contract: string, slug: string, group: string, kind: Label, quantity: int)
    : (ls: seq<Line>)
    ensures forall i :: 0 <= i < |ls| ==> ContractOf(ls[i]) == contract
  {
    match SnapshotPrice(sn, "cluster_setup_fee", map["group_type" := group])
    case None => []
    case Some(p) => [Charged(sn, contract, slug, kind, "cluster_setup_fee", quantity as real, p.unit, p.unitPrice)]
  }

  function AddonLine(sn: Snapshot, a: AddonFact): (ls: seq<Line>)
    ensures forall i :: 0 <= i < |ls| ==> ContractOf(ls[i]) == a.contract
  {
    match SnapshotPrice(sn, "cluster_addon_fee", map["addon" := a.addon])
    case None => []
    case Some(p) => [Charged(sn, a.contract, a.slug, AddonFee(a.addon), "cluster_addon_fee", 1.0, p.unit, p.unitPrice)]
  }

  function AllClusterLines(sn: Snapshot, cs: seq<ClusterFact>): seq<Line> {
    if cs == [] then [] else AllClusterLines(sn, cs[..|cs| - 1]) + ClusterLines(sn, cs[|cs| - 1])
  }

  function AllResizeLines(sn: Snapshot, rs: seq<ResizeFact>): seq<Line> {
    if rs == [] then []
    else var r := rs[|rs| - 1];
         AllResizeLines(sn, rs[..|rs| - 1])
         + SetupLine(sn, r.contract, r.slug, "workers", Expansion(r.delta), r.delta)
  }

  function AllAddonLines(sn: Snapshot, xs: seq<AddonFact>): seq<Line> {
    if xs == [] then [] else AllAddonLines(sn, xs[..|xs| - 1]) + AddonLine(sn, xs[|xs| - 1])
  }

  function SyntheticLines(sn: Snapshot): seq<Line> {
    AllClusterLines(sn, sn.clusters) + AllResizeLines(sn, sn.resizes) + AllAddonLines(sn, sn.addons)
  }

  type UsageByMetric = map<string, seq<Entry<Meter>>>

  function ProductUsage(sn: Snapshot, product: Product, usage: UsageByMetric): Option<seq<Entry<Meter>>> {
    var es := ShardedUsage.Lookup(usage, product.metric);
    if product.metric == "volume.size" && es != [] then Canonical(es, sn.volumeTypes) else Some(es)
  }

  /** Every metered line of the products, or nothing when a volume type cannot be resolved. */
  function MeteredLines(sn: Snapshot, products: seq<Product>, usage: UsageByMetric): Option<seq<Line>> {
    if products == [] then Some([])
    else
      var product := products[|products| - 1];
      match MeteredLines(sn, products[..|products| - 1], usage)
      case None => None
      case Some(lines) =>
        match ProductUsage(sn, product, usage)
        case None => None
        case Some(es) => Some(lines + UsageLines(sn, product, es))
  }

  // ---- choosing contracts ----

  /** The rows of the chosen contracts in order, or nothing when one of their lines has no price. */
  function Select(lines: seq<Line>, contracts: set<string>): Option<seq<Row>> {
    if lines == [] then Some([])
    else Join(Select(lines[..|lines| - 1], contracts), SelectLine(lines[|lines| - 1], contracts))
  }

  function SelectLine(l: Line, contracts: set<string>): Option<seq<Row>> {
    if ContractOf(l) !in contracts then Some([])
    else match l
         case Written(row) => Some([row])
         case Unpriced(_) => None
  }

  function Join(a: Option<seq<Row>>, b: Option<seq<Row>>): Option<seq<Row>> {
    if a.Some? && b.Some? then Some(a.value + b.value) else None
  }

  function Numbers(cs: seq<Contract>): set<string> {
    set c | c in cs :: c.number
  }

  /** The whole report for a choice of contracts: its rows, or nothing when generation fails. */
  function Report(sn: Snapshot, usage: UsageByMetric, contracts: set<string>): Option<seq<Row>> {
    if !(contracts <= Numbers(sn.contracts)) then None
    else match MeteredLines(sn, sn.plan, usage)
         case None => None
         case Some(lines) => Select(lines + SyntheticLines(sn), contracts)
  }

  lemma {:induction false} SelectConcat(a: seq<Line>, b: seq<Line>, contracts: set<string>)
    ensures Select(a + b, contracts) == Join(Select(a, contracts), Select(b, contracts))
  {
    if b == [] {
      assert a + b == a;
      JoinUnit(Select(a, contracts));
    } else {
      var n := |b| - 1;
      assert (a + b)[..|a + b| - 1] == a + b[..n];
      SelectConcat(a, b[..n], contracts);
      JoinAssociates(Select(a, contracts), Select(b[..n], contracts), SelectLine(b[n], contracts));
    }
  }

  lemma JoinUnit(a: Option<seq<Row>>)
    ensures Join(a, Some([])) == a == Join(Some([]), a)
  {
    assert a.Some? ==> a.value + [] == a.value == [] + a.value;
  }

  lemma JoinAssociates(a: Option<seq<Row>>, b: Option<seq<Row>>, c: Option<seq<Row>>)
    ensures Join(Join(a, b), c) == Join(a, Join(b, c))
  {
    if a.Some? && b.Some? && c.Some? {
      assert a.value + b.value + c.value == a.value + (b.value + c.value);
    }
  }

  lemma SelectOne(l: Line, contracts: set<string>)
    ensures Select([l], contracts) == SelectLine(l, contracts)
  {
    var none: seq<Line> := [];
    var one := [l];
    assert one[..|one| - 1] == none;
    assert Select(one, contracts) == Join(Select(none, contracts), SelectLine(one[|one| - 1], contracts));
    JoinUnit(SelectLine(l, contracts));
  }

  lemma {:induction false} SelectUniform(lines: seq<Line>, contract: string, contracts: set<string>)
    requires forall i :: 0 <= i < |lines| ==> ContractOf(lines[i]) == contract
    ensures Select(lines, contracts) == if contract in contracts then Select(lines, {contract}) else Some([])
  {
    if lines != [] {
      SelectUniform(lines[..|lines| - 1], contract, contracts);
      JoinUnit(Some([]));
    }
  }

  // ---- the writing loops ----

  /** The rows of one metered product. */
  method RenderProduct(sn: Snapshot, product: Product, es: seq<Entry<Meter>>, contracts: set<string>)
    returns (r: Option<seq<Row>>)
    ensures r == Select(UsageLines(sn, product, es), contracts)
  {
    var rows: seq<Row> := [];
    for i := 0 to |es|
      invariant Some(rows) == Select(UsageLines(sn, product, es[..i]), contracts)
    {
      UsageLinesSnoc(sn, product, es, i);
      SelectConcat(UsageLines(sn, product, es[..i]), UsageLine(sn, product, es[i]), contracts);
      SelectConcat(UsageLines(sn, product, es[..i + 1]), UsageLines(sn, product, es[i + 1..]), contracts);
      var more := RenderRecord(sn, product, es[i], contracts);
      if more.None? {
        return None;
      }
      rows := rows + more.value;
    }
    assert es[..|es|] == es;
    return Some(rows);
  }

  /** The row of one usage record: skipped outside the chosen contracts, an error without a price. */
  method RenderRecord(sn: Snapshot, product: Product, e: Entry<Meter>, contracts: set<string>)
    returns (r: Option<seq<Row>>)
    ensures r == Select(UsageLine(sn, product, e), contracts)
  {
    var project := FindProject(sn.projects, e.key.project);
    if project.None? {
      return Some([]);
    }
    ghost var line := UsageLine(sn, product, e)[0];
    assert UsageLine(sn, product, e) == [line];
    SelectOne(line, contracts);
    var contract := project.value.contract;
    if contract !in contracts {
      return Some([]);
    }
    var price := SnapshotPrice(sn, product.metric, e.key.meta);
    if price.None? {
      return None;
    }
    var quantity := e.totals.hours;
    if product.scale.Some? {
      quantity := e.totals.sizeMonths * product.scale.value;
    }
    var exact := quantity * UnitPrice(sn, contract, product.metric, price.value.unitPrice);
    var row := Row(contract, project.value.name, Metered(product.metric, e.key.meta), quantity,
                   price.value.unit, exact, RoundHalfEven(exact));
    assert line == Written(row);
    return Some([row]);
  }

  lemma {:induction false} UsageLinesConcat(sn: Snapshot, product: Product, a: seq<Entry<Meter>>, b: seq<Entry<Meter>>)
    ensures UsageLines(sn, product, a + b) == UsageLines(sn, product, a) + UsageLines(sn, product, b)
  {
    if a == [] {
      assert a + b == b;
    } else {
      assert (a + b)[1..] == a[1..] + b;
      UsageLinesConcat(sn, product, a[1..], b);
    }
  }

  lemma UsageLinesSnoc(sn: Snapshot, product: Product, es: seq<Entry<Meter>>, i: nat)
    requires i < |es|
    ensures UsageLines(sn, product, es[..i + 1]) == UsageLines(sn, product, es[..i]) + UsageLine(sn, product, es[i])
    ensures UsageLines(sn, product, es) == UsageLines(sn, product, es[..i + 1]) + UsageLines(sn, product, es[i + 1..])
  {
    assert es[..i + 1] == es[..i] + [es[i]];
    assert es == es[..i + 1] + es[i + 1..];
    assert [es[i]][1..] == [];
    UsageLinesConcat(sn, product, es[..i], [es[i]]);
    UsageLinesConcat(sn, product, es[..i + 1], es[i + 1..]);
  }

  /** The cluster, expansion and addon rows of the chosen contracts. */
  method RenderSynthetic(sn: Snapshot, contracts: set<string>) returns (r: Option<seq<Row>>)
    ensures r == Select(SyntheticLines(sn), contracts)
  {
    var clusters := RenderClusters(sn, contracts);
    SelectConcat(AllClusterLines(sn, sn.clusters) + AllResizeLines(sn, sn.resizes),
                 AllAddonLines(sn, sn.addons), contracts);
    SelectConcat(AllClusterLines(sn, sn.clusters), AllResizeLines(sn, sn.resizes), contracts);
    if clusters.None? {
      return None;
    }
    var resizes := RenderResizes(sn, contracts);
    var addons := RenderAddons(sn, contracts);
    return Some(clusters.value + resizes + addons);
  }

  method RenderClusters(sn: Snapshot, contracts: set<string>) returns (r: Option<seq<Row>>)
    ensures r == Select(AllClusterLines(sn, sn.clusters), contracts)
  {
    r := Some([]);
    for i := 0 to |sn.clusters|
      invariant r == Select(AllClusterLines(sn, sn.clusters[..i]), contracts)
    {
      var c := sn.clusters[i];
      ClusterStep(sn, i, contracts);
      if c.contract in contracts {
        var more := RenderCluster(sn, c);
        r := Join(r, more);
      }
    }
    assert sn.clusters[..|sn.clusters|] == sn.clusters;
  }

  lemma ClusterStep(sn: Snapshot, i: nat, contracts: set<string>)
    requires i < |sn.clusters|
    ensures Select(AllClusterLines(sn, sn.clusters[..i + 1]), contracts)
         == (var before := Select(AllClusterLines(sn, sn.clusters[..i]), contracts);
             var c := sn.clusters[i];
             if c.contract in contracts then Join(before, Select(ClusterLines(sn, c), {c.contract})) else before)
  {
    hide ClusterLines, Select, Join;
    var c := sn.clusters[i];
    assert sn.clusters[..i + 1][..i] == sn.clusters[..i];
    SelectConcat(AllClusterLines(sn, sn.clusters[..i]), ClusterLines(sn, c), contracts);
    OneContract(sn, c);
    SelectUniform(ClusterLines(sn, c), c.contract, contracts);
    JoinUnit(Select(AllClusterLines(sn, sn.clusters[..i]), contracts));
  }

  lemma OneContract(sn: Snapshot, c: ClusterFact)
    ensures forall i :: 0 <= i < |ClusterLines(sn, c)| ==> ContractOf(ClusterLines(sn, c)[i]) == c.contract
  {
    hide Charged, PackageFee, SnapshotPrice;
  }

  /** One cluster: its management fee and, in the period it was provisioned, its setup fees. */
  method RenderCluster(sn: Snapshot, c: ClusterFact) returns (r: Option<seq<Row>>)
    ensures r == Select(ClusterLines(sn, c), {c.contract})
  {
    var fee := PackageFee(sn, c.workerGroups);
    SelectOne(FeeLine(sn, c), {c.contract});
    SelectConcat([FeeLine(sn, c)], SetupLines(sn, c), {c.contract});
    if fee.None? {
      return None;
    }
    var exact := 1.0 * UnitPrice(sn, c.contract, "cluster_management_fee", fee.value.0);
    var rows := [Row(c.contract, c.slug, ManagementFee, 1.0, fee.value.1, exact, RoundHalfEven(exact))];
    if sn.start <= c.provisionedAt < sn.end {
      var setup := RenderClusterSetup(sn, c);
      rows := rows + setup;
    } else {
      assert rows + [] == rows;
    }
    return Some(rows);
  }

  method RenderClusterSetup(sn: Snapshot, c: ClusterFact) returns (rows: seq<Row>)
    requires sn.start <= c.provisionedAt < sn.end
    ensures Some(rows) == Select(SetupLines(sn, c), {c.contract})
  {
    rows := RenderSetup(sn, c.contract, c.slug, "controllers", ControllerSetup, 1);
    var more: seq<Row> := [];
    if c.initialGroups > 0 {
      more := RenderSetup(sn, c.contract, c.slug, "workers", InitialSetup(c.initialGroups), c.initialGroups);
    }
    SelectConcat(SetupLine(sn, c.contract, c.slug, "controllers", ControllerSetup, 1), WorkerLines(sn, c), {c.contract});
    rows := rows + more;
  }

  /** A setup-fee row, skipped when no such price is configured. */
  method RenderSetup(sn: Snapshot, contract: string, slug: string, group: string, kind: Label, quantity: int)
    returns (rows: seq<Row>)
    ensures Some(rows) == Select(SetupLine(sn, contract, slug, group, kind, quantity), {contract})
  {
    var price := SnapshotPrice(sn, "cluster_setup_fee", map["group_type" := group]);
    if price.None? {
      return [];
    }
    var exact := quantity as real * UnitPrice(sn, contract, "cluster_setup_fee", price.value.unitPrice);
    ghost var line := SetupLine(sn, contract, slug, group, kind, quantity)[0];
    assert SetupLine(sn, contract, slug, group, kind, quantity) == [line];
    SelectOne(line, {contract});
    var row := Row(contract, slug, kind, quantity as real, price.value.unit, exact, RoundHalfEven(exact));
    assert line == Written(row);
    return [row];
  }

  method RenderResizes(sn: Snapshot, contracts: set<string>) returns (rows: seq<Row>)
    ensures Some(rows) == Select(AllResizeLines(sn, sn.resizes), contracts)
  {
    rows := [];
    for i := 0 to |sn.resizes|
      invariant Some(rows) == Select(AllResizeLines(sn, sn.resizes[..i]), contracts)
    {
      var x := sn.resizes[i];
      ResizeStep(sn, i, contracts);
      if x.contract in contracts {
        var more := RenderSetup(sn, x.contract, x.slug, "workers", Expansion(x.delta), x.delta);
        rows := rows + more;
      }
    }
    assert sn.resizes[..|sn.resizes|] == sn.resizes;
  }

  lemma ResizeStep(sn: Snapshot, i: nat, contracts: set<string>)
    requires i < |sn.resizes|
    ensures Select(AllResizeLines(sn, sn.resizes[..i + 1]), contracts)
         == (var before := Select(AllResizeLines(sn, sn.resizes[..i]), contracts);
             var x := sn.resizes[i];
             if x.contract in contracts then
               Join(before, Select(SetupLine(sn, x.contract, x.slug, "workers", Expansion(x.delta), x.delta), {x.contract}))
             else before)
  {
    hide SetupLine, Select, Join;
    var x := sn.resizes[i];
    var lines := SetupLine(sn, x.contract, x.slug, "workers", Expansion(x.delta), x.delta);
    assert sn.resizes[..i + 1][..i] == sn.resizes[..i];
    SelectConcat(AllResizeLines(sn, sn.resizes[..i]), lines, contracts);
    SelectUniform(lines, x.contract, contracts);
    JoinUnit(Select(AllResizeLines(sn, sn.resizes[..i]), contracts));
  }

  method RenderAddons(sn: Snapshot, contracts: set<string>) returns (rows: seq<Row>)
    ensures Some(rows) == Select(AllAddonLines(sn, sn.addons), contracts)
  {
    rows := [];
    for i := 0 to |sn.addons|
      invariant Some(rows) == Select(AllAddonLines(sn, sn.addons[..i]), contracts)
    {
      AddonStep(sn, i, contracts);
      if sn.addons[i].contract in contracts {
        var more := RenderAddon(sn, sn.addons[i]);
        rows := rows + more;
      }
    }
    assert sn.addons[..|sn.addons|] == sn.addons;
  }

  lemma AddonStep(sn: Snapshot, i: nat, contracts: set<string>)
    requires i < |sn.addons|
    ensures Select(AllAddonLines(sn, sn.addons[..i + 1]), contracts)
         == (var before := Select(AllAddonLines(sn, sn.addons[..i]), contracts);
             var x := sn.addons[i];
             if x.contract in contracts then Join(before, Select(AddonLine(sn, x), {x.contract})) else before)
  {
    hide AddonLine, Select, Join;
    var x := sn.addons[i];
    assert sn.addons[..i + 1][..i] == sn.addons[..i];
    SelectConcat(AllAddonLines(sn, sn.addons[..i]), AddonLine(sn, x), contracts);
    SelectUniform(AddonLine(sn, x), x.contract, contracts);
    JoinUnit(Select(AllAddonLines(sn, sn.addons[..i]), contracts));
  }

  method RenderAddon(sn: Snapshot, x: AddonFact) returns (rows: seq<Row>)
    ensures Some(rows) == Select(AddonLine(sn, x), {x.contract})
  {
    var price := SnapshotPrice(sn, "cluster_addon_fee", map["addon" := x.addon]);
    if price.None? {
      return [];
    }
    var exact := 1.0 * UnitPrice(sn, x.contract, "cluster_addon_fee", price.value.unitPrice);
    ghost var line := AddonLine(sn, x)[0];
    assert AddonLine(sn, x) == [line];
    SelectOne(line, {x.contract});
    var row := Row(x.contract, x.slug, AddonFee(x.addon), 1.0, price.value.unit, exact, RoundHalfEven(exact));
    assert line == Written(row);
    return [row];
  }

  /** The whole rendering loop. */
  method RenderBilling(sn: Snapshot, usage: UsageByMetric, contracts: set<string>)
    returns (r: Option<seq<Row>>)
    ensures r == Report(sn, usage, contracts)
  {
    if !(contracts <= Numbers(sn.contracts)) {
      return None;
    }
    var metered := RenderMetered(sn, usage, contracts);
    if metered.None? {
      if MeteredLines(sn, sn.plan, usage).Some? {
        SelectConcat(MeteredLines(sn, sn.plan, usage).value, SyntheticLines(sn), contracts);
      }
      return None;
    }
    SelectConcat(MeteredLines(sn, sn.plan, usage).value, SyntheticLines(sn), contracts);
    var synthetic := RenderSynthetic(sn, contracts);
    return Join(metered, synthetic);
  }

  /** The rows of every product; none when a volume type is unknown or a price is missing. */
  method RenderMetered(sn: Snapshot, usage: UsageByMetric, contracts: set<string>)
    returns (r: Option<seq<Row>>)
    ensures r == MeteredRows(sn, sn.plan, usage, contracts)
  {
    var rows: seq<Row> := [];
    for i := 0 to |sn.plan|
      invariant Some(rows) == MeteredRows(sn, sn.plan[..i], usage, contracts)
    {
      var product := sn.plan[i];
      assert sn.plan[..i + 1][..i] == sn.plan[..i];
      MeteredPrefix(sn, usage, i + 1, contracts);
      MeteredStep(sn, sn.plan[..i + 1], usage, contracts);
      var es := Some(ShardedUsage.Lookup(usage, product.metric));
      if product.metric == "volume.size" && es.value != [] {
        es := CanonicalizeVolumeUsage(es.value, sn.volumeTypes);
      }
      if es.None? {
        return None;
      }
      var more := RenderProduct(sn, product, es.value, contracts);
      if more.None? {
        return None;
      }
      rows := rows + more.value;
    }
    assert sn.plan[..|sn.plan|] == sn.plan;
    return Some(rows);
  }

  /** The chosen rows of the metered lines, or nothing when they cannot all be made. */
  function MeteredRows(sn: Snapshot, products: seq<Product>, usage: UsageByMetric, contracts: set<string>)
    : Option<seq<Row>>
  {
    match MeteredLines(sn, products, usage)
    case None => None
    case Some(lines) => Select(lines, contracts)
  }

  lemma MeteredStep(sn: Snapshot, products: seq<Product>, usage: UsageByMetric, contracts: set<string>)
    requires products != []
    ensures MeteredRows(sn, products, usage, contracts)
         == (var last := products[|products| - 1];
             var es := ProductUsage(sn, last, usage);
             Join(MeteredRows(sn, products[..|products| - 1], usage, contracts),
                  if es.None? then None else Select(UsageLines(sn, last, es.value), contracts)))
  {
    var last := products[|products| - 1];
    hide ProductUsage, UsageLines, Select;
    var lines := MeteredLines(sn, products[..|products| - 1], usage);
    var es := ProductUsage(sn, last, usage);
    if lines.Some? && es.Some? {
      SelectConcat(lines.value, UsageLines(sn, last, es.value), contracts);
    }
  }

  /** A product that fails makes the whole plan fail. */
  lemma {:induction false} MeteredPrefix(sn: Snapshot, usage: UsageByMetric, n: nat, contracts: set<string>)
    requires n <= |sn.plan|
    ensures MeteredRows(sn, sn.plan, usage, contracts).Some?
        ==> MeteredRows(sn, sn.plan[..n], usage, contracts).Some?
    decreases |sn.plan| - n
  {
    hide MeteredRows, MeteredLines, ProductUsage, UsageLines, Select;
    if n == |sn.plan| {
      assert sn.plan[..n] == sn.plan;
    } else {
      MeteredPrefix(sn, usage, n + 1, contracts);
      assert sn.plan[..n + 1][..n] == sn.plan[..n];
      MeteredStep(sn, sn.plan[..n + 1], usage, contracts);
    }
  }
}
