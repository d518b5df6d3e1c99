/** One durable report, from the queue to its last delivery, over whole runs.

    Every committed transaction is one event; a crash falls between two of them.  What the outside
    has accepted is recorded beside each output: the program itself never reads it.
 */
module ReportRun {
  import opened Options
  import opened UsageDict
  import opened Shards
  import opened Rendering
  import opened Artifacts
  import Gnocchi
  import ShardedUsage

  datatype Phase = Queued | Running | Succeeded | Failed | Expired

  datatype Delivery = Unsent | Ready | Sent

  datatype Output = Output(file: File, delivery: Delivery)

  /** How often the outside accepted an output, and how often the checkpoint of that was lost. */
  datatype Account = Account(accepted: nat, lost: nat)

  /** Everything frozen by the first visit of a report. */
  datatype Frozen = Frozen(sn: Snapshot, perContract: bool, names: Names)

  /** `delivers` is whether there is a delivery method; `config` whether its configuration is still stored. */
  datatype Report = Report(phase: Phase, input: Option<Frozen>, shards: seq<Shard>, outputs: seq<Output>,
                           accounts: seq<Account>, delivers: bool, config: bool, result: Option<seq<File>>)

  /** How one delivery went: accepted and checkpointed; accepted, with the checkpoint lost to a crash
      or a failed commit; or not accepted. */
  datatype Sending = Checkpointed | CheckpointLost | Refused

  datatype Event = Claim | Capture(frozen: Frozen) | Supplement(retired: map<string, string>) | Plan
                 | Query(outcome: Outcome) | Render | Deliver(sending: Sending) | Finish | Fail | Requeue | Purge

  function Metrics(ps: seq<Product>): seq<string> {
    if ps == [] then [] else Metrics(ps[..|ps| - 1]) + [ps[|ps| - 1].metric]
  }

  function ProjectIds(ps: seq<Project>): seq<string> {
    if ps == [] then [] else ProjectIds(ps[..|ps| - 1]) + [ps[|ps| - 1].id]
  }

  /** What a snapshot says to query. */
  function ScopeOf(sn: Snapshot): Scope {
    Scope(Metrics(sn.plan), ProjectIds(sn.projects), sn.start, sn.end)
  }

  predicate BillsVolumes(sn: Snapshot) {
    exists p | p in sn.plan :: p.metric == "volume.size"
  }

  /** Retired volume types fill the gaps of the stored catalogue; its own names win. */
  function Supplemented(sn: Snapshot, retired: map<string, string>): Snapshot {
    if BillsVolumes(sn) then sn.(volumeTypes := retired + sn.volumeTypes) else sn
  }

  function FirstUnsent(os: seq<Output>): (i: nat)
    ensures i <= |os|
    ensures forall k :: 0 <= k < i ==> os[k].delivery == Sent
    ensures i < |os| ==> os[i].delivery != Sent
  {
    if os == [] || os[0].delivery != Sent then 0 else 1 + FirstUnsent(os[1..])
  }

  function FilesIn(os: seq<Output>): seq<File> {
    seq(|os|, i requires 0 <= i < |os| => os[i].file)
  }

  function NewOutputs(files: seq<File>, delivers: bool): seq<Output> {
    seq(|files|, i requires 0 <= i < |files| => Output(files[i], if delivers then Unsent else Ready))
  }

  function NoAccounts(n: nat): seq<Account> {
    seq(n, i => Account(0, 0))
  }

  /** The files a report's frozen input and checkpoints determine. */
  ghost function Determined(f: Frozen, shards: seq<Shard>): Option<seq<File>> {
    FilesOf(f.sn, ShardedUsage.Merged(shards), f.perContract, f.names)
  }

  predicate AllSucceeded(f: Frozen, shards: seq<Shard>) {
    FirstPending(shards) == |shards| && (shards == [] ==> Planned(ScopeOf(f.sn)) == [])
  }

  /** One event.  An event whose guard fails changes nothing. */
  ghost function Transact(r: Report, e: Event): Report {
    match e
    case Claim => if r.phase == Queued then r.(phase := Running) else r
    case Capture(frozen) =>
      if r.phase == Running && r.input.None? && r.shards == [] && ValidScope(ScopeOf(frozen.sn))
      then r.(input := Some(frozen)) else r
    case Supplement(retired) =>
      if r.phase == Running && r.input.Some? && r.outputs == []
      then r.(input := Some(r.input.value.(sn := Supplemented(r.input.value.sn, retired)))) else r
    case Plan =>
      if r.phase == Running && r.input.Some? && r.shards == []
      then r.(shards := Planned(ScopeOf(r.input.value.sn))) else r
    case Query(outcome) =>
      if r.phase == Running && r.input.Some? then r.(shards := Shards.Step(r.shards, outcome)) else r
    case Render =>
      if r.phase == Running && r.input.Some? && AllSucceeded(r.input.value, r.shards) && r.outputs == []
      then Rendered(r) else r
    case Deliver(sending) =>
      if r.phase == Running && r.delivers && r.config && FirstUnsent(r.outputs) < |r.outputs|
      then Delivered(r, FirstUnsent(r.outputs), sending) else r
    case Finish =>
      if r.phase == Running && r.outputs != [] && (r.delivers ==> r.config && FirstUnsent(r.outputs) == |r.outputs|)
      then r.(phase := Succeeded, config := false) else r
    case Fail => if r.phase == Running then r.(phase := Phase.Failed) else r
    case Requeue => if r.phase == Phase.Failed then r.(phase := Queued) else r
    case Purge =>
      if r.phase == Succeeded || r.phase == Phase.Failed
      then r.(phase := Expired, input := None, shards := [], outputs := [], config := false, result := None) else r
  }

  ghost function Rendered(r: Report): Report
    requires r.input.Some?
  {
    match Determined(r.input.value, r.shards)
    case None => r
    case Some(files) =>
      r.(outputs := NewOutputs(files, r.delivers), accounts := NoAccounts(|files|),
         result := if r.delivers then r.result else Some(files))
  }

  function Delivered(r: Report, i: nat, sending: Sending): Report
    requires i < |r.outputs|
  {
    if i >= |r.accounts| then r
    else
      var a := r.accounts[i];
      match sending
      case Checkpointed => r.(outputs := r.outputs[i := r.outputs[i].(delivery := Sent)],
                              accounts := r.accounts[i := Account(a.accepted + 1, a.lost)])
      case CheckpointLost => r.(accounts := r.accounts[i := Account(a.accepted + 1, a.lost + 1)])
      case Refused => r
  }

  ghost function Run(r: Report, es: seq<Event>): Report {
    if es == [] then r else Transact(Run(r, es[..|es| - 1]), es[|es| - 1])
  }

  // ---- what every reachable report satisfies ----

  ghost predicate ShardsOk(r: Report) {
    if r.input.None? then r.shards == [] && r.outputs == []
    else ValidScope(ScopeOf(r.input.value.sn)) && Shards.Inv(ScopeOf(r.input.value.sn), r.shards)
  }

  /** Outputs are what the frozen input and the finished checkpoints determine. */
  ghost predicate OutputsOk(r: Report) {
    r.outputs != [] ==>
      && r.input.Some? && AllSucceeded(r.input.value, r.shards)
      && Determined(r.input.value, r.shards) == Some(FilesIn(r.outputs))
      && (!r.delivers ==> r.result == Some(FilesIn(r.outputs)))
  }

  /** Each output was accepted once if it is marked sent, and otherwise once for every lost checkpoint. */
  predicate AccountsOk(r: Report) {
    && (r.outputs != [] ==> |r.accounts| == |r.outputs|)
    && (forall i :: 0 <= i < |r.outputs| ==>
          r.outputs[i].delivery in (if r.delivers then {Unsent, Sent} else {Ready}))
    && (forall i :: 0 <= i < |r.outputs| && i < |r.accounts| ==>
          r.accounts[i].accepted == r.accounts[i].lost + if r.outputs[i].delivery == Sent then 1 else 0)
    && (forall i :: 0 <= i < |r.accounts| ==> r.accounts[i].accepted <= r.accounts[i].lost + 1)
  }

  predicate PhaseOk(r: Report) {
    match r.phase
    case Succeeded => r.outputs != [] && (r.delivers ==> FirstUnsent(r.outputs) == |r.outputs|)
    case Expired => r.input.None? && r.outputs == []
    case _ => true
  }

  ghost predicate Sound(r: Report) {
    ShardsOk(r) && OutputsOk(r) && AccountsOk(r) && PhaseOk(r)
  }

  /** A report as it is enqueued. */
  predicate Enqueued(r: Report) {
    && r.phase == Queued && r.input.None? && r.shards == [] && r.outputs == [] && r.accounts == []
    && r.result.None? && (r.delivers ==> r.config)
  }

  lemma EnqueuedSound(r: Report)
    requires Enqueued(r)
    ensures Sound(r)
  {
  }

  /** Shard steps and re-planning only happen while nothing is rendered. */
  lemma FinishedShardsStay(t: seq<Shard>, o: Outcome)
    requires FirstPending(t) == |t|
    ensures Shards.Step(t, o) == t
  {
  }

  lemma SameScope(sn: Snapshot, retired: map<string, string>)
    ensures ScopeOf(Supplemented(sn, retired)) == ScopeOf(sn)
  {
  }

  lemma StepShards(r: Report, e: Event)
    requires Sound(r)
    ensures ShardsOk(Transact(r, e))
  {
    hide OutputsOk, AccountsOk, PhaseOk, ValidScope, Determined;
    match e {
      case Supplement(retired) =>
        if r.input.Some? {
          SameScope(r.input.value.sn, retired);
        }
      case Plan =>
        if r.input.Some? {
          PlannedInv(ScopeOf(r.input.value.sn));
        }
      case Query(outcome) =>
        if r.input.Some? {
          StepInv(ScopeOf(r.input.value.sn), r.shards, outcome);
        }
      case _ =>
    }
  }

  lemma FilesInNew(files: seq<File>, delivers: bool)
    ensures FilesIn(NewOutputs(files, delivers)) == files
  {
  }

  lemma FilesInSent(os: seq<Output>, i: nat)
    requires i < |os|
    ensures FilesIn(os[i := os[i].(delivery := Sent)]) == FilesIn(os)
  {
  }

  lemma StepOutputs(r: Report, e: Event)
    requires Sound(r)
    ensures OutputsOk(Transact(r, e))
  {
    hide AccountsOk, Determined, ValidScope, Shards.Inv, Planned, FilesIn, NewOutputs, Supplemented;
    match e {
      case Query(outcome) =>
        if r.outputs != [] {
          FinishedShardsStay(r.shards, outcome);
        }
      case Render =>
        if r.input.Some? && Determined(r.input.value, r.shards).Some? {
          FilesInNew(Determined(r.input.value, r.shards).value, r.delivers);
        }
      case Deliver(sending) =>
        if FirstUnsent(r.outputs) < |r.outputs| {
          FilesInSent(r.outputs, FirstUnsent(r.outputs));
        }
      case _ =>
    }
  }

  lemma StepAccounts(r: Report, e: Event)
    requires Sound(r)
    ensures AccountsOk(Transact(r, e))
  {
    hide ShardsOk, Determined, ValidScope, Shards.Inv, Planned, FilesIn, AllSucceeded, Supplemented, Shards.Step;
  }

  lemma StepPhase(r: Report, e: Event)
    requires Sound(r)
    ensures PhaseOk(Transact(r, e))
  {
    hide Determined, ValidScope, Shards.Inv, Planned, FilesIn, AllSucceeded, Supplemented, Shards.Step;
  }

  lemma StepKeepsSound(r: Report, e: Event)
    requires Sound(r)
    ensures Sound(Transact(r, e))
  {
    hide Transact, ShardsOk, OutputsOk, AccountsOk, PhaseOk;
    StepShards(r, e);
    StepOutputs(r, e);
    StepAccounts(r, e);
    StepPhase(r, e);
  }

  lemma {:induction false} RunSound(r: Report, es: seq<Event>)
    requires Sound(r)
    ensures Sound(Run(r, es))
  {
    if es != [] {
      hide Sound, Transact;
      RunSound(r, es[..|es| - 1]);
      StepKeepsSound(Run(r, es[..|es| - 1]), es[|es| - 1]);
    }
  }

  // ---- what each transaction does ----

  /** How a report moves.  A queued one is claimed, a running one succeeds when its outputs are there and,
      if they are to be delivered, all sent, or fails; a failed one is queued again as it is; one that
      succeeded or failed expires and keeps nothing.  No other transaction moves it. */
  lemma PhaseMoves(r: Report, e: Event)
    ensures var s := Transact(r, e);
            && (e == Claim && r.phase == Queued ==> s == r.(phase := Running))
            && (e == Fail && r.phase == Running ==> s == r.(phase := Phase.Failed))
            && (e == Requeue && r.phase == Phase.Failed ==> s == r.(phase := Queued))
            && (e == Finish && r.phase == Running && r.outputs != []
                && (r.delivers ==> r.config && forall i :: 0 <= i < |r.outputs| ==> r.outputs[i].delivery == Sent) ==>
                  s == r.(phase := Succeeded, config := false))
            && (e == Purge && (r.phase == Succeeded || r.phase == Phase.Failed) ==>
                  s == Report(Expired, None, [], [], r.accounts, r.delivers, false, None))
    ensures var s := Transact(r, e);
            s.phase != r.phase ==>
              || (e == Claim && r.phase == Queued) || ((e == Fail || e == Finish) && r.phase == Running)
              || (e == Requeue && r.phase == Phase.Failed)
              || (e == Purge && (r.phase == Succeeded || r.phase == Phase.Failed))
    ensures r.phase != Running && e !in {Claim, Requeue, Purge} ==> Transact(r, e) == r
  {
    hide Supplemented, Planned, Shards.Step, Determined, NewOutputs, AllSucceeded, ValidScope;
  }

  /** What a running report does: it captures its input once, plans once, steps its table, renders once,
      and delivers the first output that is not sent. */
  lemma WorkMoves(r: Report)
    requires Sound(r) && r.phase == Running
    ensures forall f: Frozen :: r.input.None? && ValidScope(ScopeOf(f.sn)) ==> Transact(r, Capture(f)) == r.(input := Some(f))
    ensures r.input.Some? && r.shards == [] ==>
              Transact(r, Plan) == r.(shards := Planned(ScopeOf(r.input.value.sn)))
    ensures forall o: Outcome :: r.input.Some? ==> Transact(r, Query(o)) == r.(shards := Shards.Step(r.shards, o))
    ensures r.input.Some? && r.outputs == [] && AllSucceeded(r.input.value, r.shards)
            && Determined(r.input.value, r.shards).Some? ==>
              var s := Transact(r, Render);
              && FilesIn(s.outputs) == Determined(r.input.value, r.shards).value
              && (forall i :: 0 <= i < |s.outputs| ==> s.outputs[i].delivery == if r.delivers then Unsent else Ready)
              && s.phase == Running && s.input == r.input && s.shards == r.shards
    ensures r.delivers && r.config && FirstUnsent(r.outputs) < |r.outputs| ==>
              var i := FirstUnsent(r.outputs);
              && Transact(r, Deliver(Checkpointed)).outputs == r.outputs[i := r.outputs[i].(delivery := Sent)]
              && Transact(r, Deliver(Refused)) == r
              && Transact(r, Deliver(CheckpointLost)).outputs == r.outputs
  {
    hide OutputsOk, PhaseOk, Planned, Shards.Step, Determined, AllSucceeded, ValidScope, FilesIn, NewOutputs;
    if r.input.Some? && Determined(r.input.value, r.shards).Some? {
      FilesInNew(Determined(r.input.value, r.shards).value, r.delivers);
      NewUnsent(Determined(r.input.value, r.shards).value, r.delivers);
    }
  }

  lemma NewUnsent(files: seq<File>, delivers: bool)
    ensures forall i :: 0 <= i < |NewOutputs(files, delivers)| ==>
              NewOutputs(files, delivers)[i].delivery == if delivers then Unsent else Ready
  {
  }

  /** Over every run, a report that succeeded or expired no longer holds its delivery configuration. */
  lemma {:induction false} ConfigurationForgotten(r: Report, es: seq<Event>)
    requires Enqueued(r)
    ensures Forgotten(Run(r, es))
  {
    if es != [] {
      hide Enqueued, Forgotten, Transact;
      ConfigurationForgotten(r, es[..|es| - 1]);
      StepForgets(Run(r, es[..|es| - 1]), es[|es| - 1]);
    }
  }

  predicate Forgotten(r: Report) {
    r.phase in {Succeeded, Expired} ==> !r.config
  }

  lemma StepForgets(r: Report, e: Event)
    requires Forgotten(r)
    ensures Forgotten(Transact(r, e))
  {
    hide Supplemented, Planned, Shards.Step, AllSucceeded, ValidScope, Determined, NewOutputs;
  }

  /** What a snapshot says to query: the metrics of its plan and its projects, in order, over its period. */
  lemma ScopeMeaning(sn: Snapshot)
    ensures var sc := ScopeOf(sn);
            && sc.start == sn.start && sc.end == sn.end
            && |sc.metrics| == |sn.plan| && (forall i :: 0 <= i < |sn.plan| ==> sc.metrics[i] == sn.plan[i].metric)
            && |sc.projects| == |sn.projects| && (forall i :: 0 <= i < |sn.projects| ==> sc.projects[i] == sn.projects[i].id)
  {
    MetricsMeaning(sn.plan);
    ProjectsMeaning(sn.projects);
  }

  lemma {:induction false} MetricsMeaning(ps: seq<Product>)
    ensures |Metrics(ps)| == |ps| && forall i :: 0 <= i < |ps| ==> Metrics(ps)[i] == ps[i].metric
  {
    if ps != [] {
      MetricsMeaning(ps[..|ps| - 1]);
    }
  }

  lemma {:induction false} ProjectsMeaning(ps: seq<Project>)
    ensures |ProjectIds(ps)| == |ps| && forall i :: 0 <= i < |ps| ==> ProjectIds(ps)[i] == ps[i].id
  {
    if ps != [] {
      ProjectsMeaning(ps[..|ps| - 1]);
    }
  }

  // ---- what no run ever does ----

  /** What one event leaves of rendered outputs: the same files in the same order, and what was sent
      stays sent and is never accepted again; or nothing at all, once purged. */
  ghost predicate Kept(a: Report, b: Report) {
    || b.phase == Expired
    || (&& FilesIn(b.outputs) == FilesIn(a.outputs) && |b.outputs| == |a.outputs|
        && forall i :: 0 <= i < |a.outputs| && a.outputs[i].delivery == Sent ==> b.outputs[i].delivery == Sent)
  }

  lemma StepKeepsOutputs(r: Report, e: Event)
    requires Sound(r) && r.outputs != []
    ensures Kept(r, Transact(r, e))
    ensures Transact(r, e).phase == Expired || Transact(r, e).outputs != []
  {
    hide ShardsOk, OutputsOk, AccountsOk, Determined, Supplemented, Shards.Step, Planned, FilesIn, AllSucceeded;
    if e.Deliver? && FirstUnsent(r.outputs) < |r.outputs| {
      FilesInSent(r.outputs, FirstUnsent(r.outputs));
    }
  }

  /** An expired report is never resumed, and none of its history is rewritten. */
  lemma {:induction false} ExpiredForever(r: Report, es: seq<Event>)
    requires r.phase == Expired && Sound(r)
    ensures Run(r, es) == r
  {
    if es != [] {
      hide Sound;
      ExpiredForever(r, es[..|es| - 1]);
    }
  }

  /** Committed outputs never change their names or contents, whatever crashes, retries and
      re-queues follow, until the report expires. */
  lemma {:induction false} OutputsImmutable(r: Report, es: seq<Event>)
    requires Sound(r) && r.outputs != []
    ensures Kept(r, Run(r, es))
    ensures Run(r, es).phase == Expired || Run(r, es).outputs != []
  {
    if es != [] {
      hide Sound, Transact, FilesIn;
      var before := Run(r, es[..|es| - 1]);
      OutputsImmutable(r, es[..|es| - 1]);
      RunSound(r, es[..|es| - 1]);
      if before.phase == Expired {
        ExpiredForever(before, [es[|es| - 1]]);
        assert [es[|es| - 1]][..0] == [];
      } else {
        StepKeepsOutputs(before, es[|es| - 1]);
      }
    }
  }

  /** The account of a sent output is closed. */
  predicate Closed(a: Report, b: Report, i: nat) {
    i < |a.accounts| && i < |b.accounts| && b.accounts[i] == a.accounts[i]
    && (b.phase == Expired || (i < |b.outputs| && b.outputs[i].delivery == Sent))
  }

  lemma StepCloses(r: Report, e: Event, i: nat)
    requires Sound(r) && Closed(r, r, i)
    ensures Closed(r, Transact(r, e), i)
  {
    hide ShardsOk, OutputsOk, Determined, Supplemented, Shards.Step, Planned, FilesIn, AllSucceeded;
  }

  /** A sent output is never sent again: however the run goes on, the outside accepts it no more. */
  lemma {:induction false} SentOnce(r: Report, es: seq<Event>, i: nat)
    requires Sound(r) && i < |r.outputs| && r.outputs[i].delivery == Sent
    ensures i < |r.accounts| && Closed(r, Run(r, es), i)
  {
    if es != [] {
      hide Sound, Transact;
      SentOnce(r, es[..|es| - 1], i);
      RunSound(r, es[..|es| - 1]);
      StepCloses(Run(r, es[..|es| - 1]), es[|es| - 1], i);
    }
  }

  /** Over any run from the queue, an output is accepted at most once more than its checkpoint was
      lost; a successfully delivered report has every output sent, and its files are what its frozen
      input and checkpoints determine. */
  lemma DeliveryGuarantee(r: Report, es: seq<Event>)
    requires Enqueued(r)
    ensures var s := Run(r, es);
            && (forall i :: 0 <= i < |s.accounts| ==> s.accounts[i].accepted <= 1 + s.accounts[i].lost)
            && (s.phase == Succeeded ==>
                  && s.outputs != [] && s.input.Some?
                  && Determined(s.input.value, s.shards) == Some(FilesIn(s.outputs))
                  && (s.delivers ==> forall i :: 0 <= i < |s.outputs| ==> s.outputs[i].delivery == Sent)
                  && (!s.delivers ==> s.result == Some(FilesIn(s.outputs))))
  {
    hide Transact, Determined, FilesIn;
    EnqueuedSound(r);
    RunSound(r, es);
  }

  lemma {:induction false} MetricListed(ps: seq<Product>, p: Product)
    requires p in ps
    ensures p.metric in Metrics(ps)
  {
    if ps[|ps| - 1] != p {
      assert ps == ps[..|ps| - 1] + [ps[|ps| - 1]];
      MetricListed(ps[..|ps| - 1], p);
    }
  }

  /** Every query of a run that is answered is answered with what the store holds for its window. */
  ghost predicate TruthfulRun(r: Report, es: seq<Event>, store: seq<ShardedUsage.Sample>, plan: ShardedUsage.Plan)
    requires ShardedUsage.Period(plan) > 0.0
  {
    es != [] ==>
      var last := es[|es| - 1];
      TruthfulRun(r, es[..|es| - 1], store, plan)
      && (last.Query? ==> ShardedUsage.Truthful(store, plan, Run(r, es[..|es| - 1]).shards, last.outcome))
  }

  lemma PlannedFaithful(store: seq<ShardedUsage.Sample>, plan: ShardedUsage.Plan, scope: Scope)
    requires ShardedUsage.Period(plan) > 0.0 && ValidScope(scope)
    ensures ShardedUsage.TableFaithful(store, plan, Planned(scope))
  {
    hide Planned;
    PlannedInv(scope);
  }

  lemma {:induction false} TableStaysFaithful(r: Report, es: seq<Event>, store: seq<ShardedUsage.Sample>,
                                              plan: ShardedUsage.Plan)
    requires Enqueued(r) && ShardedUsage.Period(plan) > 0.0 && TruthfulRun(r, es, store, plan)
    ensures ShardedUsage.TableFaithful(store, plan, Run(r, es).shards)
  {
    if es != [] {
      hide ShardedUsage.Truthful, Determined, Planned, Shards.Step, Rendered, Delivered, Supplemented, AllSucceeded,
           ShardedUsage.RowFaithful, OutputsOk, AccountsOk, PhaseOk, Shards.Inv, ValidScope;
      var before, e := Run(r, es[..|es| - 1]), es[|es| - 1];
      TableStaysFaithful(r, es[..|es| - 1], store, plan);
      EnqueuedSound(r);
      RunSound(r, es[..|es| - 1]);
      if e.Query? {
        ShardedUsage.StepFaithful(store, plan, before.shards, e.outcome);
      }
      if e.Plan? && before.input.Some? {
        PlannedFaithful(store, plan, ScopeOf(before.input.value.sn));
      }
      TransactShards(before, e);
    }
  }

  lemma TransactShards(r: Report, e: Event)
    ensures var s := Transact(r, e);
            || s.shards == r.shards || s.shards == []
            || (e.Query? && s.shards == Shards.Step(r.shards, e.outcome))
            || (e.Plan? && r.input.Some? && s.shards == Planned(ScopeOf(r.input.value.sn)))
  {
    hide Determined, Planned, Shards.Step, Supplemented, AllSucceeded, ValidScope, FirstUnsent;
  }

  /** From the queue to the files: whatever crashes, splits, retries and re-queues a report went
      through, if every query that was answered was answered faithfully, then what it delivered is what
      its frozen input renders from the merged usage; and one query of the whole period would have
      given the same rows, for any choice of contracts, and the same files, up to the order of rows. */
  lemma DeliveredAsUnsharded(r: Report, es: seq<Event>, store: seq<ShardedUsage.Sample>, plan: ShardedUsage.Plan,
                             additive: set<string>, answers: string -> seq<Gnocchi.Response>,
                             whole: UsageByMetric, contracts: set<string>)
    requires Enqueued(r) && Run(r, es).phase == Succeeded && ShardedUsage.Period(plan) > 0.0
    requires TruthfulRun(r, es, store, plan)
    requires Run(r, es).input.Some? ==> plan.scope == ScopeOf(Run(r, es).input.value.sn)
    requires WholeUsage(store, plan, additive, answers, whole)
    ensures var s := Run(r, es);
            && s.input.Some? && Determined(s.input.value, s.shards) == Some(FilesIn(s.outputs))
            && SameRows(Rendering.Report(s.input.value.sn, ShardedUsage.Merged(s.shards), contracts),
                        Rendering.Report(s.input.value.sn, whole, contracts))
            && SameFiles(Some(FilesIn(s.outputs)),
                         FilesOf(s.input.value.sn, whole, s.input.value.perContract, s.input.value.names))
  {
    hide FilesIn, Rendering.Report, Run, WholeUsage, ShardedUsage.TableFaithful, Planned, FilesOf, SameFiles, SameRows,
         TruthfulRun;
    DeliveryGuarantee(r, es);
    EnqueuedSound(r);
    RunSound(r, es);
    TableStaysFaithful(r, es, store, plan);
    var s := Run(r, es);
    var sn := s.input.value.sn;
    PlannedInv(ScopeOf(sn));
    forall p | p in sn.plan ensures p.metric in plan.scope.metrics {
      MetricListed(sn.plan, p);
    }
    FinishedTableRows(sn, store, plan, s.shards, additive, answers, whole, contracts, s.input.value.perContract,
                      s.input.value.names);
  }

  // ---- the frozen snapshot ----

  /** A later snapshot: the same but for volume types added to the catalogue. */
  predicate Grown(a: Frozen, b: Frozen) {
    && b.perContract == a.perContract && b.names == a.names
    && b.sn == a.sn.(volumeTypes := b.sn.volumeTypes)
    && (forall t | t in a.sn.volumeTypes :: t in b.sn.volumeTypes && b.sn.volumeTypes[t] == a.sn.volumeTypes[t])
    && (!BillsVolumes(a.sn) ==> b.sn == a.sn)
  }

  /** A supplement before rendering fills every gap the retired types can fill: the catalogue then has
      them all, and a name it had stays. */
  lemma SupplementFills(r: Report, retired: map<string, string>)
    requires r.phase == Running && r.input.Some? && r.outputs == [] && BillsVolumes(r.input.value.sn)
    ensures var before, s := r.input.value.sn.volumeTypes, Transact(r, Supplement(retired));
            && s.input.Some? && var after := s.input.value.sn.volumeTypes;
            && after.Keys == before.Keys + retired.Keys
            && forall t :: t in after ==> after[t] == if t in before then before[t] else retired[t]
  {
    hide BillsVolumes;
  }

  lemma GrownTransitive(a: Frozen, b: Frozen, c: Frozen)
    requires Grown(a, b) && Grown(b, c)
    ensures Grown(a, c)
  {
  }

  lemma StepGrows(r: Report, e: Event)
    requires Sound(r) && r.input.Some?
    ensures var s := Transact(r, e);
            if s.input.None? then s.phase == Expired
            else Grown(r.input.value, s.input.value) && (r.outputs != [] ==> s.input == r.input)
  {
    hide ShardsOk, OutputsOk, AccountsOk, Determined, Shards.Step, Planned, FilesIn, AllSucceeded;
  }

  /** Once captured, the snapshot changes only by gaining volume types that were missing, and only
      while no output exists; it is dropped only when the report expires. */
  lemma {:induction false} SnapshotFrozen(r: Report, es: seq<Event>)
    requires Sound(r) && r.input.Some?
    ensures var s := Run(r, es);
            if s.input.None? then s.phase == Expired
            else Grown(r.input.value, s.input.value) && (r.outputs != [] ==> s.input == r.input)
  {
    if es != [] {
      hide Sound, Transact, Grown;
      var before := Run(r, es[..|es| - 1]);
      SnapshotFrozen(r, es[..|es| - 1]);
      RunSound(r, es[..|es| - 1]);
      if before.phase == Expired {
        ExpiredForever(before, [es[|es| - 1]]);
        assert [es[|es| - 1]][..0] == [];
      } else {
        StepGrows(before, es[|es| - 1]);
        if Transact(before, es[|es| - 1]).input.Some? {
          GrownTransitive(r.input.value, before.input.value, Transact(before, es[|es| - 1]).input.value);
        }
        if r.outputs != [] {
          OutputsImmutable(r, es[..|es| - 1]);
        }
      }
    } else {
      assert Grown(r.input.value, r.input.value);
    }
  }

  // ---- the processor ----

  function Queries(os: seq<Outcome>): (es: seq<Event>)
    ensures |es| == |os| && forall i :: 0 <= i < |os| ==> es[i] == Query(os[i])
  {
    seq(|os|, i requires 0 <= i < |os| => Query(os[i]))
  }

  lemma {:induction false} RunQueries(r: Report, os: seq<Outcome>)
    requires r.phase == Running && r.input.Some?
    ensures Run(r, Queries(os)) == r.(shards := Replay(r.shards, os))
  {
    hide Shards.Step, Rendered, Delivered, Supplemented, Planned, AllSucceeded, FirstUnsent, ValidScope;
    if os != [] {
      assert Queries(os)[..|os| - 1] == Queries(os[..|os| - 1]);
      RunQueries(r, os[..|os| - 1]);
    }
  }

  lemma {:induction false} RunConcat(r: Report, a: seq<Event>, b: seq<Event>)
    ensures Run(r, a + b) == Run(Run(r, a), b)
  {
    if b == [] {
      assert a + b == a;
    } else {
      hide Transact;
      assert (a + b)[..|a + b| - 1] == a + b[..|b| - 1];
      RunConcat(r, a, b[..|b| - 1]);
    }
  }

  lemma RunOne(r: Report, e: Event)
    ensures Run(r, [e]) == Transact(r, e)
  {
    hide Transact;
    var one := [e];
    assert one[..|one| - 1] == [];
  }

  lemma RunNothing(r: Report)
    ensures Run(r, []) == r
  {
  }

  /** The first transaction of a visit: a capture, or a supplement while there is something to fill. */
  function Freezing(r: Report, captured: Option<Frozen>, retired: Option<map<string, string>>): seq<Event> {
    if r.input.None? then (if captured.Some? then [Capture(captured.value)] else [])
    else if r.outputs == [] && BillsVolumes(r.input.value.sn) && retired.Some? then [Supplement(retired.value)]
    else []
  }

  /** What that transaction leaves behind.  Once it could be frozen the input is the captured one, or the
      frozen one, whose catalogue, while volumes are billed and nothing is rendered, then names every
      retired type. */
  lemma FrozenAs(r: Report, captured: Option<Frozen>, retired: Option<map<string, string>>)
    requires r.phase == Running && Sound(r) && (captured.Some? ==> ValidScope(ScopeOf(captured.value.sn)))
    ensures var s := Run(r, Freezing(r, captured, retired));
            && (r.input.None? ==> s == r.(input := captured))
            && (r.input.Some? ==>
                  && s.input.Some? && s == r.(input := s.input)
                  && s.input.value.sn.volumeTypes.Keys >= r.input.value.sn.volumeTypes.Keys
                  && (r.outputs == [] && BillsVolumes(r.input.value.sn) && retired.Some? ==>
                        s.input.value.sn.volumeTypes.Keys >= retired.value.Keys))
  {
    hide OutputsOk, PhaseOk, AccountsOk, BillsVolumes, Planned, Shards.Step, ValidScope;
    RunNothing(r);
    if Freezing(r, captured, retired) != [] {
      RunOne(r, Freezing(r, captured, retired)[0]);
    }
  }

  /** A visit raises at once: its first capture failed, or it needs a setting that is malformed. */
  predicate CannotFreeze(r: Report, captured: Option<Frozen>, retired: Option<map<string, string>>) {
    if r.input.None? then captured.None?
    else r.outputs == [] && BillsVolumes(r.input.value.sn) && retired.None?
  }

  class DurableReport {
    const delivers: bool
    var phase: Phase
    var input: Option<Frozen>
    var shards: seq<Shard>
    var outputs: seq<Output>
    var config: bool
    var result: Option<seq<File>>
    /** Outside the program: what was accepted, per output. */
    var accounts: seq<Account>

    constructor (delivers: bool)
      ensures this.delivers == delivers && Enqueued(State())
    {
      this.delivers, this.config := delivers, delivers;
      this.phase, this.input, this.shards, this.outputs := Queued, None, [], [];
      this.result, this.accounts := None, [];
    }

    ghost function State(): Report
      reads this
    {
      Report(phase, input, shards, outputs, accounts, delivers, config, result)
    }

    method Claim()
      modifies this
      ensures State() == Transact(old(State()), Event.Claim)
    {
      if phase == Queued {
        phase := Running;
      }
    }

    /** Capture the snapshot on the first visit; later ones only fill gaps in its volume types.  A capture
        may fail, and the setting of retired types may be malformed; the setting is read only while
        volumes are billed and nothing is rendered. */
    method FreezeInput(captured: Option<Frozen>, retired: Option<map<string, string>>) returns (ok: bool)
      requires phase == Running && (captured.Some? ==> ValidScope(ScopeOf(captured.value.sn))) && Sound(State())
      modifies this
      ensures State() == Run(old(State()), Freezing(old(State()), captured, retired))
      ensures ok <==> !CannotFreeze(old(State()), captured, retired)
      ensures ok ==> input.Some?
      ensures phase == Running
    {
      ghost var start := State();
      RunNothing(start);
      if input.None? {
        if captured.None? {
          return false;
        }
        RunOne(start, Capture(captured.value));
        input := captured;
      } else if outputs == [] && BillsVolumes(input.value.sn) {
        if retired.None? {
          return false;
        }
        RunOne(start, Supplement(retired.value));
        var merged := retired.value + input.value.sn.volumeTypes;
        if merged != input.value.sn.volumeTypes {
          input := Some(input.value.(sn := input.value.sn.(volumeTypes := merged)));
        }
      }
      return true;
    }

    /** Plan the windows once, then query until nothing is pending or a query raises. */
    method FinishShards(answer: nat -> Outcome) returns (ok: bool, ghost es: seq<Event>)
      requires phase == Running && input.Some? && Sound(State())
      modifies this
      ensures State() == Run(old(State()), es) && phase == Running && input == old(input)
      ensures ok ==> AllSucceeded(input.value, shards)
      ensures !ok ==> exists n: nat :: !answer(n).Answered?
    {
      ghost var start := State();
      var table := new ReportShards(ScopeOf(input.value.sn));
      if shards == [] {
        table.CreateShards();
      } else {
        table.rows := shards;
      }
      shards := table.rows;
      ghost var first: seq<Event> := if start.shards == [] then [Event.Plan] else [];
      RunOne(start, Event.Plan);
      assert State() == Run(start, first);
      ghost var planned := State();
      var stop, queries := table.ProcessPending(answer);
      shards := table.rows;
      ok := stop == Finished;
      RunQueries(planned, Consulted(answer, queries));
      RunConcat(start, first, Queries(Consulted(answer, queries)));
      es := first + Queries(Consulted(answer, queries));
      NothingPlanned(input.value, planned.shards, Consulted(answer, queries));
    }

    /** Render the outputs once: a report is never rendered over outputs it already has. */
    method RenderOutputs() returns (ok: bool)
      requires phase == Running && input.Some? && AllSucceeded(input.value, shards)
      modifies this
      ensures State() == Transact(old(State()), Event.Render)
      ensures ok ==> outputs != []
      ensures ok <==> old(outputs) != [] || Determined(input.value, shards).Some?
    {
      hide AllSucceeded, FilesOf, ShardedUsage.Merged;
      if outputs != [] {
        return true;
      }
      var usage := ShardedUsage.MergeUsage(shards);
      var rendered := RenderFiles(input.value.sn, usage, input.value.perContract, input.value.names);
      match rendered {
        case Files(files) =>
          outputs := NewOutputs(files, delivers);
          accounts := NoAccounts(|files|);
          if !delivers {
            result := Some(files);
          }
          FilesNotEmpty(input.value.sn, usage, input.value.perContract, input.value.names);
          return true;
        case _ =>
          return false;
      }
    }

    /** Deliver every output that is not marked sent, in order, with a checkpoint after each. */
    method DeliverOutputs(sending: nat -> Sending) returns (ok: bool, ghost es: seq<Event>)
      requires phase == Running && delivers && config && Sound(State())
      modifies this
      ensures State() == Run(old(State()), es) && phase == Running && config && Sound(State())
      ensures ok ==> FirstUnsent(outputs) == |outputs|
      ensures !ok ==> exists n: nat :: sending(n) != Checkpointed
      ensures |outputs| == |old(outputs)|
    {
      ghost var start := State();
      es := [];
      while FirstUnsent(outputs) < |outputs|
        invariant State() == Run(start, es) && phase == Running && config && Sound(State())
        invariant |outputs| == |start.outputs|
        decreases |outputs| - FirstUnsent(outputs)
      {
        hide Sound, Transact, Run;
        ghost var before := State();
        var s := sending(FirstUnsent(outputs));
        DeliverNext(s);
        StepKeepsSound(before, Deliver(s));
        RunConcat(start, es, [Deliver(s)]);
        RunOne(before, Deliver(s));
        es := es + [Deliver(s)];
        if s != Checkpointed {
          return false, es;
        }
      }
      ok := true;
    }

    method DeliverNext(s: Sending)
      requires phase == Running && delivers && config && FirstUnsent(outputs) < |outputs|
      requires AccountsOk(State())
      modifies this
      ensures State() == Transact(old(State()), Deliver(s))
      ensures phase == Running && config && |outputs| == |old(outputs)|
      ensures s == Checkpointed ==> FirstUnsent(outputs) > FirstUnsent(old(outputs))
    {
      var i := FirstUnsent(outputs);
      if s != Refused {
        accounts := accounts[i := Account(accounts[i].accepted + 1,
                                          accounts[i].lost + if s == CheckpointLost then 1 else 0)];
      }
      if s == Checkpointed {
        SentMoves(outputs, i);
        outputs := outputs[i := outputs[i].(delivery := Sent)];
      }
    }

    /** The last transaction. */
    method Finish()
      requires phase == Running && outputs != [] && (delivers ==> config && FirstUnsent(outputs) == |outputs|)
      modifies this
      ensures State() == Transact(old(State()), Event.Finish) && phase == Succeeded
    {
      phase, config := Succeeded, false;
    }

    method Fail()
      modifies this
      ensures State() == Transact(old(State()), Event.Fail)
    {
      if phase == Running {
        phase := Phase.Failed;
      }
    }

    /** Only a failed report can be retried; its delivery checkpoints survive. */
    method RequeueFailed() returns (ok: bool)
      modifies this
      ensures ok <==> old(phase) == Phase.Failed
      ensures State() == Transact(old(State()), Requeue)
    {
      ok := phase == Phase.Failed;
      if ok {
        phase := Queued;
      }
    }

    method Purge()
      modifies this
      ensures State() == Transact(old(State()), Event.Purge)
    {
      if phase == Succeeded || phase == Phase.Failed {
        phase, input, shards, outputs, config, result := Expired, None, [], [], false, None;
      }
    }

    /** One visit of the processor, wherever an earlier one stopped.  Returning is succeeding; raising
        leaves the last commit.  Either way the visit is a run of events, so every statement about
        runs holds of it.  It raises only when its input cannot be captured or supplemented, a query was
        not answered, there is nothing to render, the delivery configuration is gone or cannot be
        decrypted, or a delivery failed. */
    method ProcessReport(captured: Option<Frozen>, retired: Option<map<string, string>>, answer: nat -> Outcome,
                         decrypts: bool, sending: nat -> Sending)
      returns (done: bool, ghost es: seq<Event>)
      requires phase == Running && Sound(State()) && (captured.Some? ==> ValidScope(ScopeOf(captured.value.sn)))
      modifies this
      ensures State() == Run(old(State()), es) && Sound(State())
      ensures done <==> phase == Succeeded
      ensures !done ==>
                || CannotFreeze(old(State()), captured, retired)
                || (exists n: nat :: !answer(n).Answered?)
                || (outputs == [] && input.Some? && AllSucceeded(input.value, shards)
                    && Determined(input.value, shards).None?)
                || (delivers && !(config && decrypts))
                || (exists n: nat :: sending(n) != Checkpointed)
    {
      hide Sound, AllSucceeded, Determined, ValidScope;
      ghost var start := State();
      var ok := FreezeInput(captured, retired);
      es := Freezing(start, captured, retired);
      RunSound(start, es);
      if !ok {
        return false, es;
      }
      ghost var frozen, queried := State(), [];
      ok, queried := FinishShards(answer);
      RunConcat(start, es, queried);
      RunSound(frozen, queried);
      es := es + queried;
      if !ok {
        return false, es;
      }
      ghost var finished := State();
      ok := RenderOutputs();
      RunConcat(start, es, [Event.Render]);
      RunOne(finished, Event.Render);
      RunSound(finished, [Event.Render]);
      es := es + [Event.Render];
      if !ok || (delivers && !(config && decrypts)) {
        return false, es;
      }
      ghost var last: seq<Event>;
      done, last := DeliverAndFinish(sending);
      RunConcat(start, es, last);
      es := es + last;
    }

    method DeliverAndFinish(sending: nat -> Sending) returns (done: bool, ghost es: seq<Event>)
      requires phase == Running && Sound(State()) && outputs != [] && (delivers ==> config)
      modifies this
      ensures State() == Run(old(State()), es) && Sound(State())
      ensures done <==> phase == Succeeded
      ensures !done ==> exists n: nat :: sending(n) != Checkpointed
    {
      hide Sound;
      ghost var start := State();
      es := [];
      if delivers {
        var ok;
        ok, es := DeliverOutputs(sending);
        RunSound(start, es);
        if !ok {
          return false, es;
        }
      }
      ghost var delivered := State();
      Finish();
      RunConcat(start, es, [Event.Finish]);
      RunOne(delivered, Event.Finish);
      RunSound(start, es + [Event.Finish]);
      es := es + [Event.Finish];
      done := true;
    }
  }

  lemma SentMoves(os: seq<Output>, i: nat)
    requires i == FirstUnsent(os) && i < |os|
    ensures FirstUnsent(os[i := os[i].(delivery := Sent)]) > i
  {
    var next := os[i := os[i].(delivery := Sent)];
    assert forall k :: 0 <= k <= i ==> next[k].delivery == Sent;
  }

  lemma FilesNotEmpty(sn: Snapshot, usage: UsageByMetric, perContract: bool, names: Names)
    requires FilesOf(sn, usage, perContract, names).Some?
    ensures FilesOf(sn, usage, perContract, names).value != []
  {
  }

  /** An empty plan stays empty: querying neither adds rows to it nor removes rows from another. */
  lemma {:induction false} NothingPlanned(f: Frozen, t: seq<Shard>, os: seq<Outcome>)
    requires t == [] ==> Planned(ScopeOf(f.sn)) == []
    ensures Replay(t, os) == [] ==> Planned(ScopeOf(f.sn)) == []
  {
    hide Planned;
    if os != [] {
      NothingPlanned(f, t, os[..|os| - 1]);
    }
  }
}
