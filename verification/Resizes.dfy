/** The resize history of managed clusters, and the worker-group counts billing reads back from it.

    Requests are in id order.  A resize stamps the count it found into its own payload when it is
    applied; billing uses those stamps alone to recover the count of an earlier moment.
 */
module Resizes {
  import opened Options

  /** A managed cluster: its worker groups now and at first, its lifetime, whether it has a managed
      project, its enabled addons, and whether it has a backup project. */
  datatype Cluster = Cluster(groups: int, initial: int, provisioned: Option<int>, decommissioned: Option<int>,
                             project: bool, addons: set<string>, backup: bool)

  /** A stored payload: not JSON, or with the two counts as far as they are integers. */
  datatype Payload = Malformed | Counts(before: Option<int>, target: Option<int>)

  datatype Kind = Resize | Addon(addon: string, enable: bool) | Backup(enable: bool) | Other

  datatype Status = Pending | Applied | Denied

  datatype Request = Request(cluster: nat, kind: Kind, payload: Payload, status: Status, at: int)

  datatype Portal = Portal(clusters: seq<Cluster>, requests: seq<Request>)

  // ---- applying requests ----

  datatype Refusal = NotPending | Decommissioned | Unreadable | NotLarger | NoProject | NoBackend
                   | AlreadyEnabled | NotEnabled | UnknownType

  datatype Answer = Done | Refused(refusal: Refusal)

  /** The checks of one kind of request against its cluster. */
  function CheckKind(c: Cluster, r: Request, backend: bool): Answer
    requires r.payload.Counts?
  {
    match r.kind
    case Resize =>
      if r.payload.target.None? then Refused(Unreadable)
      else if r.payload.target.value <= c.groups then Refused(NotLarger)
      else if !c.project then Refused(NoProject)
      else if !backend then Refused(NoBackend)
      else Done
    case Addon(addon, enable) =>
      if (addon in c.addons) == enable then Refused(if enable then AlreadyEnabled else NotEnabled) else Done
    case Backup(enable) =>
      if c.backup == enable then Refused(if enable then AlreadyEnabled else NotEnabled)
      else if !backend then Refused(NoBackend)
      else Done
    case Other => Refused(UnknownType)
  }

  function CheckApply(p: Portal, i: nat, backend: bool): (a: Answer)
    requires i < |p.requests| && p.requests[i].cluster < |p.clusters|
  {
    var r := p.requests[i];
    var c := p.clusters[r.cluster];
    if r.status != Pending then Refused(NotPending)
    else if c.decommissioned.Some? then Refused(Decommissioned)
    else if r.payload.Malformed? then Refused(Unreadable)
    else CheckKind(c, r, backend)
  }

  /** What an applied request makes of its cluster. */
  function Effect(c: Cluster, r: Request): Cluster
    requires r.kind.Resize? ==> r.payload.Counts? && r.payload.target.Some?
  {
    match r.kind
    case Resize => c.(groups := r.payload.target.value)
    case Addon(addon, enable) => c.(addons := if enable then c.addons + {addon} else c.addons - {addon})
    case Backup(enable) => c.(backup := enable)
    case Other => c
  }

  /** A resize stamps the count it found. */
  function Stamped(c: Cluster, r: Request): Payload
    requires r.kind.Resize? ==> r.payload.Counts?
  {
    if r.kind.Resize? then Counts(Some(c.groups), r.payload.target) else r.payload
  }

  /** The portal after a request was applied at some moment; a refused one changes nothing. */
  function AfterApply(p: Portal, i: nat, backend: bool, now: int): Portal {
    if i >= |p.requests| || p.requests[i].cluster >= |p.clusters| || CheckApply(p, i, backend).Refused? then p
    else
      var r := p.requests[i];
      var c := p.clusters[r.cluster];
      Portal(p.clusters[r.cluster := Effect(c, r)],
             p.requests[i := r.(payload := Stamped(c, r), status := Applied, at := now)])
  }

  datatype Event = Create(initial: int, project: bool) | Provision(cluster: nat, now: int)
                 | Ask(cluster: nat, kind: Kind, payload: Payload)
                 | Apply(i: nat, backend: bool, now: int) | Deny(i: nat, now: int)
                 | Decommission(cluster: nat, now: int)

  function NewCluster(initial: int, project: bool): Cluster {
    Cluster(initial, initial, None, None, project, {}, false)
  }

  function Step(p: Portal, e: Event): Portal {
    match e
    case Create(initial, project) =>
      if initial >= 1 then p.(clusters := p.clusters + [NewCluster(initial, project)]) else p
    case Provision(c, now) =>
      if c < |p.clusters| && p.clusters[c].provisioned.None? && p.clusters[c].decommissioned.None?
      then p.(clusters := p.clusters[c := p.clusters[c].(provisioned := Some(now))]) else p
    case Ask(c, kind, payload) =>
      if c < |p.clusters| then p.(requests := p.requests + [Request(c, kind, payload, Pending, 0)]) else p
    case Apply(i, backend, now) => AfterApply(p, i, backend, now)
    case Deny(i, now) =>
      if i < |p.requests| && p.requests[i].status == Pending
      then p.(requests := p.requests[i := p.requests[i].(status := Denied, at := now)]) else p
    case Decommission(c, now) =>
      if c < |p.clusters| && p.clusters[c].decommissioned.None?
      then p.(clusters := p.clusters[c := p.clusters[c].(decommissioned := Some(now))]) else p
  }

  function Run(p: Portal, es: seq<Event>): Portal {
    if es == [] then p else Step(Run(p, es[..|es| - 1]), es[|es| - 1])
  }

  /** What a portal has settled: initial counts, decommissioned clusters and decided requests stay as
      they are, and no cluster ever shrinks. */
  predicate Settled(before: Portal, after: Portal) {
    && |before.clusters| <= |after.clusters| && |before.requests| <= |after.requests|
    && (forall c :: 0 <= c < |before.clusters| ==>
          && after.clusters[c].initial == before.clusters[c].initial
          && after.clusters[c].groups >= before.clusters[c].groups
          && (before.clusters[c].provisioned.Some? ==> after.clusters[c].provisioned == before.clusters[c].provisioned)
          && (before.clusters[c].decommissioned.Some? ==> after.clusters[c] == before.clusters[c]))
    && (forall i :: 0 <= i < |before.requests| && before.requests[i].status != Pending ==>
          after.requests[i] == before.requests[i])
  }

  lemma StepSettles(p: Portal, e: Event)
    ensures Settled(p, Step(p, e))
  {
  }

  /** Over every run counts only grow, a decommissioned cluster is never resized, and a request is
      decided once. */
  lemma {:induction false} SettledForever(p: Portal, es: seq<Event>)
    ensures Settled(p, Run(p, es))
  {
    if es != [] {
      hide Step;
      SettledForever(p, es[..|es| - 1]);
      StepSettles(Run(p, es[..|es| - 1]), es[|es| - 1]);
    }
  }

  /** Exactly when a request is applied, and what it does.  It is pending, readable and its cluster is
      alive; a resize grows a cluster that has a project and a backend; an addon or a backup project is
      enabled where it is not and disabled where it is, and a backup needs the backend too.  A resize
      then sets the count and stamps the one it found; nothing else of the portal changes. */
  lemma AppliedIff(p: Portal, i: nat, backend: bool, now: int)
    requires i < |p.requests| && p.requests[i].cluster < |p.clusters|
    ensures var r := p.requests[i];
            var c := p.clusters[r.cluster];
            var after := Step(p, Apply(i, backend, now));
            var sound := r.status == Pending && c.decommissioned.None? && r.payload.Counts?;
            var target := if r.payload.Counts? then r.payload.target else None;
            && (r.kind == Resize ==>
                  if sound && target.Some? && target.value > c.groups && c.project && backend then
                    after == Portal(p.clusters[r.cluster := c.(groups := target.value)],
                                    p.requests[i := Request(r.cluster, Resize, Counts(Some(c.groups), target), Applied, now)])
                  else after == p)
            && (r.kind.Addon? ==>
                  if sound && (r.kind.enable <==> r.kind.addon !in c.addons) then
                    && after.clusters == p.clusters[r.cluster := after.clusters[r.cluster]]
                    && after.clusters[r.cluster].(addons := c.addons) == c
                    && (forall a :: a in after.clusters[r.cluster].addons <==>
                                      if a == r.kind.addon then r.kind.enable else a in c.addons)
                    && after.requests == p.requests[i := r.(status := Applied, at := now)]
                  else after == p)
            && (r.kind.Backup? ==>
                  if sound && r.kind.enable != c.backup && backend then
                    after == Portal(p.clusters[r.cluster := c.(backup := r.kind.enable)],
                                    p.requests[i := r.(status := Applied, at := now)])
                  else after == p)
            && (r.kind == Other ==> after == p)
  {
  }

  /** What the other events do: clusters begin unprovisioned with the count they were created with, are
      provisioned once while alive, and decommissioned once; requests begin pending, and a pending one
      can be denied. */
  lemma EventMeaning(p: Portal, e: Event)
    requires !e.Apply?
    ensures var after := Step(p, e);
            match e
            case Create(initial, project) =>
              if initial >= 1 then
                && after.requests == p.requests && |after.clusters| == |p.clusters| + 1
                && after.clusters[..|p.clusters|] == p.clusters
                && after.clusters[|p.clusters|] == Cluster(initial, initial, None, None, project, {}, false)
              else after == p
            case Provision(c, now) =>
              if c < |p.clusters| && p.clusters[c].provisioned.None? && p.clusters[c].decommissioned.None? then
                after == Portal(p.clusters[c := p.clusters[c].(provisioned := Some(now))], p.requests)
              else after == p
            case Ask(c, kind, payload) =>
              if c < |p.clusters| then
                after == Portal(p.clusters, p.requests + [Request(c, kind, payload, Pending, 0)])
              else after == p
            case Deny(i, now) =>
              if i < |p.requests| && p.requests[i].status == Pending then
                after == Portal(p.clusters, p.requests[i := p.requests[i].(status := Denied, at := now)])
              else after == p
            case Decommission(c, now) =>
              if c < |p.clusters| && p.clusters[c].decommissioned.None? then
                after == Portal(p.clusters[c := p.clusters[c].(decommissioned := Some(now))], p.requests)
              else after == p
  {
  }

  // ---- the deltas of a history ----

  datatype Span = Ever | Since(from: int) | Within(from: int, to: int)

  predicate In(t: int, s: Span) {
    match s
    case Ever => true
    case Since(from) => t >= from
    case Within(from, to) => from <= t < to
  }

  /** A resize billing can read: both counts are integers, and it grew. */
  predicate Readable(r: Request) {
    r.payload.Counts? && r.payload.before.Some? && r.payload.target.Some?
    && r.payload.before.value < r.payload.target.value
  }

  predicate Resized(r: Request) {
    r.kind.Resize? && r.status == Applied
  }

  function Delta(r: Request): int {
    if Resized(r) && Readable(r) then r.payload.target.value - r.payload.before.value else 0
  }

  function DeltaIn(r: Request, c: nat, s: Span): int {
    if r.cluster == c && In(r.at, s) then Delta(r) else 0
  }

  /** Worker groups added to a cluster by the resizes of a span. */
  function Deltas(rs: seq<Request>, c: nat, s: Span): int {
    if rs == [] then 0 else Deltas(rs[..|rs| - 1], c, s) + DeltaIn(rs[|rs| - 1], c, s)
  }

  lemma {:induction false} DeltasUpdate(rs: seq<Request>, i: nat, r: Request, c: nat, s: Span)
    requires i < |rs|
    ensures Deltas(rs[i := r], c, s) == Deltas(rs, c, s) - DeltaIn(rs[i], c, s) + DeltaIn(r, c, s)
  {
    var n := |rs| - 1;
    if i < n {
      assert rs[i := r][..n] == rs[..n][i := r];
      DeltasUpdate(rs[..n], i, r, c, s);
    } else {
      assert rs[i := r][..n] == rs[..n];
    }
  }

  /** Spans that meet add up. */
  lemma {:induction false} DeltasSplit(rs: seq<Request>, c: nat, a: int, b: int)
    requires a <= b
    ensures Deltas(rs, c, Within(a, b)) + Deltas(rs, c, Since(b)) == Deltas(rs, c, Since(a))
    ensures forall z :: b <= z ==> Deltas(rs, c, Within(a, b)) + Deltas(rs, c, Within(b, z)) == Deltas(rs, c, Within(a, z))
  {
    if rs != [] {
      DeltasSplit(rs[..|rs| - 1], c, a, b);
    }
  }

  // ---- the invariant ----

  /** Every applied resize is readable, and a cluster's count is what it started with plus every delta
      applied since; the order of the moments does not matter. */
  predicate Inv(p: Portal) {
    && (forall i :: 0 <= i < |p.requests| ==>
          p.requests[i].cluster < |p.clusters| && (Resized(p.requests[i]) ==> Readable(p.requests[i])))
    && (forall c :: 0 <= c < |p.clusters| ==>
          p.clusters[c].initial >= 1 && p.clusters[c].groups == p.clusters[c].initial + Deltas(p.requests, c, Ever))
  }

  lemma {:induction false} DeltasElsewhere(rs: seq<Request>, c: nat, s: Span)
    requires forall i :: 0 <= i < |rs| ==> rs[i].cluster != c
    ensures Deltas(rs, c, s) == 0
  {
    if rs != [] {
      DeltasElsewhere(rs[..|rs| - 1], c, s);
    }
  }

  lemma ApplyInv(p: Portal, i: nat, backend: bool, now: int)
    requires Inv(p)
    ensures Inv(AfterApply(p, i, backend, now))
  {
    var after := AfterApply(p, i, backend, now);
    if after != p {
      forall c | 0 <= c < |p.clusters|
        ensures after.clusters[c].groups == after.clusters[c].initial + Deltas(after.requests, c, Ever)
      {
        DeltasUpdate(p.requests, i, after.requests[i], c, Ever);
      }
    }
  }

  lemma AskInv(p: Portal, r: Request)
    requires Inv(p) && r.cluster < |p.clusters| && r.status == Pending
    ensures Inv(p.(requests := p.requests + [r]))
  {
    forall c | 0 <= c < |p.clusters| ensures Deltas(p.requests + [r], c, Ever) == Deltas(p.requests, c, Ever) {
      AskedAfter(p.requests, r, c, Ever);
    }
  }

  lemma DenyInv(p: Portal, i: nat, now: int)
    requires Inv(p) && i < |p.requests| && p.requests[i].status == Pending
    ensures Inv(p.(requests := p.requests[i := p.requests[i].(status := Denied, at := now)]))
  {
    var after := p.requests[i := p.requests[i].(status := Denied, at := now)];
    forall c | 0 <= c < |p.clusters| ensures Deltas(after, c, Ever) == Deltas(p.requests, c, Ever) {
      DenyAfter(p.requests, i, now, c, Ever);
    }
  }

  lemma CreateInv(p: Portal, initial: int, project: bool)
    requires Inv(p) && initial >= 1
    ensures Inv(p.(clusters := p.clusters + [NewCluster(initial, project)]))
  {
    DeltasElsewhere(p.requests, |p.clusters|, Ever);
  }

  lemma StepInv(p: Portal, e: Event)
    requires Inv(p)
    ensures Inv(Step(p, e))
  {
    match e {
      case Create(initial, project) =>
        if initial >= 1 {
          CreateInv(p, initial, project);
        }
      case Provision(_, _) =>
      case Ask(c, kind, payload) =>
        if c < |p.clusters| {
          AskInv(p, Request(c, kind, payload, Pending, 0));
        }
      case Apply(i, backend, now) => ApplyInv(p, i, backend, now);
      case Deny(i, now) =>
        if i < |p.requests| && p.requests[i].status == Pending {
          DenyInv(p, i, now);
        }
      case Decommission(c, now) =>
    }
  }

  lemma {:induction false} RunInv(p: Portal, es: seq<Event>)
    requires Inv(p)
    ensures Inv(Run(p, es))
  {
    if es != [] {
      RunInv(p, es[..|es| - 1]);
      StepInv(Run(p, es[..|es| - 1]), es[|es| - 1]);
    }
  }

  // ---- what billing captures ----

  datatype ClusterFact = ClusterFact(cluster: nat, groups: int, initial: int, provisioned: int)

  datatype ResizeFact = ResizeFact(cluster: nat, delta: int)

  /** A resize the period's capture has to look at. */
  predicate Considered(r: Request, selected: set<nat>, start: int) {
    Resized(r) && r.at >= start && r.cluster in selected
  }

  function ResizeFactsOf(rs: seq<Request>, selected: set<nat>, start: int, end: int): seq<ResizeFact> {
    if rs == [] then []
    else
      var r := rs[|rs| - 1];
      ResizeFactsOf(rs[..|rs| - 1], selected, start, end)
      + if Considered(r, selected, start) && r.at < end && Readable(r) then [ResizeFact(r.cluster, Delta(r))] else []
  }

  predicate Reconstructible(rs: seq<Request>, selected: set<nat>, start: int, end: int) {
    forall i :: 0 <= i < |rs| && Considered(rs[i], selected, start) && rs[i].at >= end ==> Readable(rs[i])
  }

  function Later(future: map<nat, int>, c: nat): int {
    if c in future then future[c] else 0
  }

  lemma CaptureStep(rs: seq<Request>, i: nat, selected: set<nat>, start: int, end: int)
    requires i < |rs|
    ensures forall c :: Deltas(rs[..i + 1], c, Since(end)) == Deltas(rs[..i], c, Since(end)) + DeltaIn(rs[i], c, Since(end))
    ensures ResizeFactsOf(rs[..i + 1], selected, start, end)
         == ResizeFactsOf(rs[..i], selected, start, end)
            + if Considered(rs[i], selected, start) && rs[i].at < end && Readable(rs[i])
              then [ResizeFact(rs[i].cluster, Delta(rs[i]))] else []
    ensures Reconstructible(rs[..i + 1], selected, start, end)
       <==> Reconstructible(rs[..i], selected, start, end)
            && (Considered(rs[i], selected, start) && rs[i].at >= end ==> Readable(rs[i]))
    ensures !Reconstructible(rs[..i + 1], selected, start, end) ==> !Reconstructible(rs, selected, start, end)
  {
    hide Considered, Readable;
    assert rs[..i + 1][..i] == rs[..i] && rs[..i + 1] == rs[..i] + [rs[i]];
  }

  /** Scan the resizes: those of the period are billed, later ones are only undone.  A later one that
      cannot be read makes the count irrecoverable. */
  method CaptureResizes(rs: seq<Request>, selected: set<nat>, start: int, end: int)
    returns (ok: bool, facts: seq<ResizeFact>, future: map<nat, int>)
    requires start <= end
    ensures ok <==> Reconstructible(rs, selected, start, end)
    ensures ok ==> facts == ResizeFactsOf(rs, selected, start, end)
    ensures ok ==> forall c :: c in selected ==> Later(future, c) == Deltas(rs, c, Since(end))
  {
    facts, future := [], map[];
    for i := 0 to |rs|
      invariant Reconstructible(rs[..i], selected, start, end)
      invariant facts == ResizeFactsOf(rs[..i], selected, start, end)
      invariant forall c :: c in selected ==> Later(future, c) == Deltas(rs[..i], c, Since(end))
    {
      hide Deltas, ResizeFactsOf;
      var r := rs[i];
      CaptureStep(rs, i, selected, start, end);
      if !Considered(r, selected, start) {
        continue;
      }
      if !Readable(r) {
        if r.at >= end {
          return false, facts, future;
        }
        continue;
      }
      var delta := r.payload.target.value - r.payload.before.value;
      if r.at >= end {
        future := future[r.cluster := Later(future, r.cluster) + delta];
      } else {
        facts := facts + [ResizeFact(r.cluster, delta)];
      }
    }
    assert rs[..|rs|] == rs;
    ok := true;
  }

  /** Is the cluster part of the period? */
  predicate Billed(c: Cluster, start: int, end: int) {
    && c.provisioned.Some? && c.provisioned.value < end
    && (c.decommissioned.None? || c.decommissioned.value > start)
  }

  predicate AliveAt(c: Cluster, t: int) {
    c.provisioned.Some? && c.provisioned.value <= t && (c.decommissioned.Some? ==> t < c.decommissioned.value)
  }

  /** A cluster is billed for exactly the periods it was alive in at some moment. */
  lemma BilledIffAlive(c: Cluster, start: int, end: int)
    requires start < end
    requires c.provisioned.Some? && c.decommissioned.Some? ==> c.provisioned.value < c.decommissioned.value
    ensures Billed(c, start, end) <==> exists t :: start <= t < end && AliveAt(c, t)
  {
    if Billed(c, start, end) {
      var t := if c.provisioned.value < start then start else c.provisioned.value;
      assert AliveAt(c, t);
    }
  }

  /** The count of a cluster just before a moment, read off its current count and its later resizes. */
  function CountAt(p: Portal, c: nat, end: int): int
    requires c < |p.clusters|
  {
    p.clusters[c].groups - Deltas(p.requests, c, Since(end))
  }

  function ClusterFactsOf(p: Portal, selected: set<nat>, start: int, end: int, n: nat): seq<ClusterFact>
    requires n <= |p.clusters|
  {
    if n == 0 then []
    else
      var c := p.clusters[n - 1];
      ClusterFactsOf(p, selected, start, end, n - 1)
      + if n - 1 in selected && Billed(c, start, end)
        then [ClusterFact(n - 1, CountAt(p, n - 1, end), c.initial, c.provisioned.value)] else []
  }

  /** Capture the cluster facts of a period. */
  method CaptureClusters(p: Portal, selected: set<nat>, start: int, end: int, future: map<nat, int>)
    returns (ok: bool, facts: seq<ClusterFact>)
    requires forall c :: c in selected ==> Later(future, c) == Deltas(p.requests, c, Since(end))
    ensures ok <==> forall c :: 0 <= c < |p.clusters| && c in selected && Billed(p.clusters[c], start, end) ==>
                      CountAt(p, c, end) > 0
    ensures ok ==> facts == ClusterFactsOf(p, selected, start, end, |p.clusters|)
  {
    facts := [];
    for i := 0 to |p.clusters|
      invariant forall c :: 0 <= c < i && c in selected && Billed(p.clusters[c], start, end) ==> CountAt(p, c, end) > 0
      invariant facts == ClusterFactsOf(p, selected, start, end, i)
    {
      var c := p.clusters[i];
      if i in selected && Billed(c, start, end) {
        var groups := c.groups - Later(future, i);
        if groups <= 0 {
          return false, facts;
        }
        facts := facts + [ClusterFact(i, groups, c.initial, c.provisioned.value)];
      }
    }
    ok := true;
  }

  /** A fact about one of the first `n` clusters, selected and alive in the period: the count it had just
      before the end, the one it began with and when it was provisioned. */
  predicate TrueFact(p: Portal, selected: set<nat>, start: int, end: int, n: nat, f: ClusterFact) {
    && f.cluster < n <= |p.clusters| && f.cluster in selected && Billed(p.clusters[f.cluster], start, end)
    && f == ClusterFact(f.cluster, CountAt(p, f.cluster, end), p.clusters[f.cluster].initial,
                        p.clusters[f.cluster].provisioned.value)
  }

  /** The facts of a period are true, and there is one for each selected cluster that was alive in it. */
  lemma FactsMeaning(p: Portal, selected: set<nat>, start: int, end: int)
    ensures var facts := ClusterFactsOf(p, selected, start, end, |p.clusters|);
            && (forall f :: f in facts ==> TrueFact(p, selected, start, end, |p.clusters|, f))
            && (forall c :: 0 <= c < |p.clusters| && c in selected && Billed(p.clusters[c], start, end) ==>
                  exists f :: f in facts && f.cluster == c)
  {
    hide *;
    FactsTrue(p, selected, start, end, |p.clusters|);
    FactsAll(p, selected, start, end, |p.clusters|);
  }

  lemma {:induction false} FactsTrue(p: Portal, selected: set<nat>, start: int, end: int, n: nat)
    requires n <= |p.clusters|
    ensures forall f :: f in ClusterFactsOf(p, selected, start, end, n) ==> TrueFact(p, selected, start, end, n, f)
  {
    if n > 0 {
      hide CountAt, Billed;
      FactsTrue(p, selected, start, end, n - 1);
    }
  }

  lemma {:induction false} FactsAll(p: Portal, selected: set<nat>, start: int, end: int, n: nat)
    requires n <= |p.clusters|
    ensures forall c :: 0 <= c < n && c in selected && Billed(p.clusters[c], start, end) ==>
              exists f :: f in ClusterFactsOf(p, selected, start, end, n) && f.cluster == c
  {
    if n > 0 {
      hide CountAt, Billed;
      FactsAll(p, selected, start, end, n - 1);
      var before, facts := ClusterFactsOf(p, selected, start, end, n - 1), ClusterFactsOf(p, selected, start, end, n);
      assert before <= facts;
      forall c | 0 <= c < n && c in selected && Billed(p.clusters[c], start, end) ensures exists f :: f in facts && f.cluster == c {
        if c < n - 1 {
          var f :| f in before && f.cluster == c;
          assert f in facts;
        } else {
          assert facts[|facts| - 1].cluster == c && facts[|facts| - 1] in facts;
        }
      }
    }
  }

  // ---- the history telescopes ----

  lemma {:induction false} DeltasNonNegative(rs: seq<Request>, c: nat, s: Span)
    ensures Deltas(rs, c, s) >= 0
  {
    if rs != [] {
      DeltasNonNegative(rs[..|rs| - 1], c, s);
    }
  }

  lemma {:induction false} EverIsBeforeAndSince(rs: seq<Request>, c: nat, a: int, end: int)
    requires forall i :: 0 <= i < |rs| ==> rs[i].at >= a || !Resized(rs[i])
    requires a <= end
    ensures Deltas(rs, c, Ever) == Deltas(rs, c, Within(a, end)) + Deltas(rs, c, Since(end))
  {
    if rs != [] {
      EverIsBeforeAndSince(rs[..|rs| - 1], c, a, end);
    }
  }

  /** For a reachable history, capture never fails, and the count it recovers is the true one: what the
      cluster started with plus every resize applied before the end of the period. */
  lemma CountIsTrue(p: Portal, selected: set<nat>, start: int, end: int, c: nat, epoch: int)
    requires Inv(p) && c < |p.clusters| && epoch <= end
    requires forall i :: 0 <= i < |p.requests| ==> p.requests[i].at >= epoch || !Resized(p.requests[i])
    ensures Reconstructible(p.requests, selected, start, end)
    ensures CountAt(p, c, end) == p.clusters[c].initial + Deltas(p.requests, c, Within(epoch, end))
    ensures CountAt(p, c, end) > 0
  {
    EverIsBeforeAndSince(p.requests, c, epoch, end);
    DeltasNonNegative(p.requests, c, Within(epoch, end));
  }

  /** That is the count the cluster had: when no resize was applied from some moment on, then after any
      later events, and whatever counts clusters have by then, it is the count before those events. */
  lemma CountedBack(p: Portal, es: seq<Event>, end: int, c: nat)
    requires Inv(p) && c < |p.clusters|
    requires forall i :: 0 <= i < |p.requests| && Resized(p.requests[i]) ==> p.requests[i].at < end
    requires forall i :: 0 <= i < |es| ==> After(es[i], end)
    ensures c < |Run(p, es).clusters|
    ensures CountAt(Run(p, es), c, end) == p.clusters[c].groups
  {
    CaptureTimeIrrelevant(p, es, end, end, c);
    NoneSince(p.requests, c, end);
  }

  /** An event after the end of a period. */
  predicate After(e: Event, end: int) {
    match e
    case Apply(_, _, now) => now >= end
    case Deny(_, now) => now >= end
    case Provision(_, now) => now >= end
    case Decommission(_, now) => now >= end
    case _ => true
  }

  /** Applying a request after the end of a period leaves what the period's capture reads. */
  lemma ApplyAfter(p: Portal, i: nat, backend: bool, now: int, start: int, end: int, c: nat)
    requires Inv(p) && c < |p.clusters| && now >= end
    ensures var after := AfterApply(p, i, backend, now);
            && c < |after.clusters| && CountAt(after, c, end) == CountAt(p, c, end)
            && Deltas(after.requests, c, Within(start, end)) == Deltas(p.requests, c, Within(start, end))
  {
    var after := AfterApply(p, i, backend, now);
    if after != p {
      hide Deltas, Inv;
      DeltasUpdate(p.requests, i, after.requests[i], c, Since(end));
      DeltasUpdate(p.requests, i, after.requests[i], c, Within(start, end));
    }
  }

  lemma DenyAfter(rs: seq<Request>, i: nat, now: int, c: nat, s: Span)
    requires i < |rs| && rs[i].status == Pending
    ensures Deltas(rs[i := rs[i].(status := Denied, at := now)], c, s) == Deltas(rs, c, s)
  {
    DeltasUpdate(rs, i, rs[i].(status := Denied, at := now), c, s);
  }

  lemma AskedAfter(rs: seq<Request>, r: Request, c: nat, s: Span)
    requires r.status == Pending
    ensures Deltas(rs + [r], c, s) == Deltas(rs, c, s)
  {
    assert (rs + [r])[..|rs|] == rs;
  }

  lemma StepAfter(p: Portal, e: Event, start: int, end: int, c: nat)
    requires Inv(p) && c < |p.clusters| && After(e, end)
    ensures c < |Step(p, e).clusters|
    ensures CountAt(Step(p, e), c, end) == CountAt(p, c, end)
    ensures Deltas(Step(p, e).requests, c, Within(start, end)) == Deltas(p.requests, c, Within(start, end))
  {
    hide AfterApply, Deltas, Inv;
    match e {
      case Create(_, _) =>
      case Provision(_, _) =>
      case Ask(cluster, kind, payload) =>
        AskedAfter(p.requests, Request(cluster, kind, payload, Pending, 0), c, Since(end));
        AskedAfter(p.requests, Request(cluster, kind, payload, Pending, 0), c, Within(start, end));
      case Apply(i, backend, now) => ApplyAfter(p, i, backend, now, start, end, c);
      case Deny(i, now) =>
        if i < |p.requests| && p.requests[i].status == Pending {
          DenyAfter(p.requests, i, now, c, Since(end));
          DenyAfter(p.requests, i, now, c, Within(start, end));
        }
      case Decommission(_, _) =>
    }
  }

  /** The captured count, and the period's own resizes, do not depend on how long after the end of the
      period, and after which further requests, they are captured. */
  lemma {:induction false} CaptureTimeIrrelevant(p: Portal, es: seq<Event>, start: int, end: int, c: nat)
    requires Inv(p) && c < |p.clusters|
    requires forall i :: 0 <= i < |es| ==> After(es[i], end)
    ensures c < |Run(p, es).clusters|
    ensures CountAt(Run(p, es), c, end) == CountAt(p, c, end)
    ensures Deltas(Run(p, es).requests, c, Within(start, end)) == Deltas(p.requests, c, Within(start, end))
  {
    if es != [] {
      CaptureTimeIrrelevant(p, es[..|es| - 1], start, end, c);
      RunInv(p, es[..|es| - 1]);
      StepAfter(Run(p, es[..|es| - 1]), es[|es| - 1], start, end, c);
    }
  }

  // ---- every worker group's setup is billed once ----

  /** What one period bills as setup for a cluster: its first groups in the period it was provisioned
      in, and the growth of the period. */
  function SetupBilled(p: Portal, c: nat, start: int, end: int): int
    requires c < |p.clusters|
  {
    (if Billed(p.clusters[c], start, end) && start <= p.clusters[c].provisioned.value < end
     then p.clusters[c].initial else 0)
    + Deltas(p.requests, c, Within(start, end))
  }

  /** Events after a moment record a beginning or an end of a cluster only from that moment on. */
  lemma {:induction false} LifeAfter(p: Portal, es: seq<Event>, end: int, c: nat)
    requires c < |p.clusters| && forall i :: 0 <= i < |es| ==> After(es[i], end)
    ensures c < |Run(p, es).clusters|
    ensures var k, l := p.clusters[c], Run(p, es).clusters[c];
            && l.initial == k.initial
            && (l.provisioned == k.provisioned || (k.provisioned.None? && l.provisioned.value >= end))
            && (l.decommissioned == k.decommissioned || (k.decommissioned.None? && l.decommissioned.value >= end))
  {
    if es != [] {
      LifeAfter(p, es[..|es| - 1], end, c);
    }
  }

  /** So what a period bills as setup does not depend on when after its end it is looked at. */
  lemma SetupSettled(p: Portal, es: seq<Event>, start: int, end: int, c: nat)
    requires Inv(p) && c < |p.clusters| && forall i :: 0 <= i < |es| ==> After(es[i], end)
    ensures c < |Run(p, es).clusters|
    ensures SetupBilled(Run(p, es), c, start, end) == SetupBilled(p, c, start, end)
  {
    hide Run, Deltas, Inv;
    LifeAfter(p, es, end, c);
    CaptureTimeIrrelevant(p, es, start, end, c);
  }

  predicate Increasing(edges: seq<int>) {
    forall i :: 0 <= i < |edges| - 1 ==> edges[i] <= edges[i + 1]
  }

  /** Setup billed over consecutive periods, the k-th from edges[k] to edges[k + 1]. */
  function SetupOver(p: Portal, c: nat, edges: seq<int>): int
    requires c < |p.clusters|
  {
    if |edges| < 2 then 0
    else SetupOver(p, c, edges[..|edges| - 1]) + SetupBilled(p, c, edges[|edges| - 2], edges[|edges| - 1])
  }

  /** The billed resize rows of a period add up to its deltas. */
  lemma {:induction false} ResizeRowsAddUp(rs: seq<Request>, selected: set<nat>, start: int, end: int, c: nat)
    requires c in selected
    ensures RowDeltas(ResizeFactsOf(rs, selected, start, end), c) == Deltas(rs, c, Within(start, end))
  {
    if rs != [] {
      var r := rs[|rs| - 1];
      var init := ResizeFactsOf(rs[..|rs| - 1], selected, start, end);
      ResizeRowsAddUp(rs[..|rs| - 1], selected, start, end, c);
      if Considered(r, selected, start) && r.at < end && Readable(r) {
        assert (init + [ResizeFact(r.cluster, Delta(r))])[..|init|] == init;
      } else {
        assert init + [] == init;
      }
    }
  }

  function RowDeltas(facts: seq<ResizeFact>, c: nat): int {
    if facts == [] then 0
    else RowDeltas(facts[..|facts| - 1], c)
         + if facts[|facts| - 1].cluster == c then facts[|facts| - 1].delta else 0
  }

  lemma {:induction false} IncreasingEnds(edges: seq<int>)
    requires Increasing(edges) && |edges| >= 1
    ensures edges[0] <= edges[|edges| - 1]
  {
    if |edges| > 1 {
      IncreasingEnds(edges[..|edges| - 1]);
    }
  }

  lemma {:induction false} SetupTelescopes(p: Portal, c: nat, edges: seq<int>)
    requires c < |p.clusters| && Increasing(edges) && |edges| >= 1
    requires var k := p.clusters[c];
             k.provisioned.Some? && (k.decommissioned.Some? ==> k.decommissioned.value > k.provisioned.value)
    ensures var k := p.clusters[c];
            var last := edges[|edges| - 1];
            SetupOver(p, c, edges)
            == (if edges[0] <= k.provisioned.value < last then k.initial else 0)
               + Deltas(p.requests, c, Within(edges[0], last))
  {
    var n := |edges| - 1;
    if n == 0 {
      EmptySpan(p.requests, c, edges[0]);
    } else {
      SetupTelescopes(p, c, edges[..n]);
      IncreasingEnds(edges[..n]);
      DeltasSplit(p.requests, c, edges[0], edges[n - 1]);
    }
  }

  lemma {:induction false} EmptySpan(rs: seq<Request>, c: nat, a: int)
    ensures Deltas(rs, c, Within(a, a)) == 0
  {
    if rs != [] {
      EmptySpan(rs[..|rs| - 1], c, a);
    }
  }

  /** Over consecutive periods that begin before a cluster's history and end after it, each worker
      group is billed for setup exactly once: together they bill the current count. */
  lemma EachGroupBilledOnce(p: Portal, c: nat, edges: seq<int>)
    requires Inv(p) && c < |p.clusters| && Increasing(edges) && |edges| >= 1
    requires var k := p.clusters[c];
             && k.provisioned.Some? && edges[0] <= k.provisioned.value < edges[|edges| - 1]
             && (k.decommissioned.Some? ==> k.decommissioned.value > k.provisioned.value)
    requires forall i :: 0 <= i < |p.requests| && Resized(p.requests[i]) ==>
               edges[0] <= p.requests[i].at < edges[|edges| - 1]
    ensures SetupOver(p, c, edges) == p.clusters[c].groups
  {
    var last := edges[|edges| - 1];
    SetupTelescopes(p, c, edges);
    EverIsBeforeAndSince(p.requests, c, edges[0], last);
    NoneSince(p.requests, c, last);
  }

  lemma {:induction false} NoneSince(rs: seq<Request>, c: nat, end: int)
    requires forall i :: 0 <= i < |rs| && Resized(rs[i]) ==> rs[i].at < end
    ensures Deltas(rs, c, Since(end)) == 0
  {
    if rs != [] {
      NoneSince(rs[..|rs| - 1], c, end);
    }
  }

  // ---- the service ----

  class RequestService {
    var clusters: seq<Cluster>
    var requests: seq<Request>

    constructor ()
      ensures Now() == Portal([], []) && Inv(Now())
    {
      clusters, requests := [], [];
    }

    function Now(): Portal
      reads this
    {
      Portal(clusters, requests)
    }

    /** Apply one request: refused requests change nothing. */
    method ApplyRequest(i: nat, backend: bool, now: int) returns (a: Answer)
      requires Inv(Now()) && i < |requests|
      modifies this
      ensures Now() == Step(old(Now()), Apply(i, backend, now)) && Inv(Now())
      ensures a == CheckApply(old(Now()), i, backend)
    {
      ApplyInv(Now(), i, backend, now);
      var r, c := requests[i], clusters[requests[i].cluster];
      if r.status != Pending {
        return Refused(NotPending);
      }
      if c.decommissioned.Some? {
        return Refused(Decommissioned);
      }
      if r.payload.Malformed? {
        return Refused(Unreadable);
      }
      match r.kind {
        case Addon(addon, enable) => a := ApplyAddon(i);
        case Resize => a := ApplyResize(i, backend);
        case Backup(enable) => a := ApplyBackup(i, backend);
        case Other => a := Refused(UnknownType);
      }
      if a.Done? {
        requests := requests[i := requests[i].(status := Applied, at := now)];
      }
    }

    method ApplyAddon(i: nat) returns (a: Answer)
      requires i < |requests| && requests[i].cluster < |clusters| && requests[i].kind.Addon? && requests[i].payload.Counts?
      modifies this`clusters
      ensures var r := requests[i];
              && a == CheckKind(old(clusters)[r.cluster], r, true)
              && clusters == if a.Done? then old(clusters)[r.cluster := Effect(old(clusters)[r.cluster], r)] else old(clusters)
    {
      var c := requests[i].cluster;
      var addon := requests[i].kind.addon;
      if requests[i].kind.enable {
        if addon in clusters[c].addons {
          return Refused(AlreadyEnabled);
        }
        clusters := clusters[c := clusters[c].(addons := clusters[c].addons + {addon})];
      } else {
        if addon !in clusters[c].addons {
          return Refused(NotEnabled);
        }
        clusters := clusters[c := clusters[c].(addons := clusters[c].addons - {addon})];
      }
      return Done;
    }

    method ApplyBackup(i: nat, backend: bool) returns (a: Answer)
      requires i < |requests| && requests[i].cluster < |clusters| && requests[i].kind.Backup? && requests[i].payload.Counts?
      modifies this`clusters
      ensures var r := requests[i];
              && a == CheckKind(old(clusters)[r.cluster], r, backend)
              && clusters == if a.Done? then old(clusters)[r.cluster := Effect(old(clusters)[r.cluster], r)] else old(clusters)
    {
      var c := requests[i].cluster;
      if requests[i].kind.enable {
        if clusters[c].backup {
          return Refused(AlreadyEnabled);
        }
      } else if !clusters[c].backup {
        return Refused(NotEnabled);
      }
      if !backend {
        return Refused(NoBackend);
      }
      clusters := clusters[c := clusters[c].(backup := requests[i].kind.enable)];
      return Done;
    }

    /** Check a resize; then stamp the count it found and grow the cluster. */
    method ApplyResize(i: nat, backend: bool) returns (a: Answer)
      requires i < |requests| && requests[i].cluster < |clusters| && requests[i].kind.Resize? && requests[i].payload.Counts?
      modifies this
      ensures var r := old(requests)[i];
              var c := old(clusters)[r.cluster];
              && a == CheckKind(c, r, backend)
              && (a.Done? ==>
                    && clusters == old(clusters)[r.cluster := c.(groups := r.payload.target.value)]
                    && requests == old(requests)[i := r.(payload := Counts(Some(c.groups), r.payload.target))])
              && (a.Refused? ==> Now() == old(Now()))
    {
      var c := requests[i].cluster;
      var target := requests[i].payload.target;
      if target.None? {
        return Refused(Unreadable);
      }
      if target.value <= clusters[c].groups {
        return Refused(NotLarger);
      }
      if !clusters[c].project {
        return Refused(NoProject);
      }
      if !backend {
        return Refused(NoBackend);
      }
      requests := requests[i := requests[i].(payload := Counts(Some(clusters[c].groups), target))];
      clusters := clusters[c := clusters[c].(groups := target.value)];
      return Done;
    }
  }
}
