/** Preview and publication operations of one customer repository.

    Every step holds the repository lock, so steps are atomic.  Operations are in order of creation.
    What Git and the operator's source answer is given with the step.
 */
module Operations {
  import opened Options
  import opened Manifests
  import opened Git
  import opened Preview
  import opened Convergence
  import opened Publish

  datatype Kind = Previewing | Publishing

  datatype Status = Queued | Running | PreviewReady | Superseded | Succeeded | Conflicting | Failed

  /** An operation: the configuration it was requested under, its stored preview, its approval, and the
      commit it published. */
  datatype Operation = Operation(cluster: nat, kind: Kind, status: Status, repositoryVersion: nat,
                                 settingsVersion: nat, adopt: bool, preview: Option<Draft>,
                                 approved: bool, result: Option<Commit>)

  datatype Repository = Repository(url: string, version: nat, pinned: bool, valid: bool)

  /** A cluster's settings and its last publication. */
  datatype State = State(version: nat, contact: Option<string>, baseline: Tree, lastCommit: Option<Commit>)

  datatype World = World(repository: Repository, states: map<nat, State>, operations: seq<Operation>)

  function StateOf(w: World, cluster: nat): State {
    if cluster in w.states then w.states[cluster] else State(1, None, map[], None)
  }

  predicate Active(o: Operation) {
    o.status == Queued || o.status == Running
  }

  // ---- requests ----

  predicate Usable(r: Repository) {
    r.pinned && r.valid
  }

  predicate HasActive(os: seq<Operation>, cluster: nat) {
    exists i :: 0 <= i < |os| && os[i].cluster == cluster && Active(os[i])
  }

  predicate OtherActive(os: seq<Operation>, cluster: nat, but: nat) {
    exists i :: 0 <= i < |os| && i != but && os[i].cluster == cluster && Active(os[i])
  }

  function Retired(o: Operation, cluster: nat): Operation {
    if o.cluster == cluster && o.status == PreviewReady then o.(status := Superseded) else o
  }

  function Supersede(os: seq<Operation>, cluster: nat): (r: seq<Operation>)
    ensures |r| == |os| && forall i :: 0 <= i < |r| ==> r[i] == Retired(os[i], cluster)
  {
    seq(|os|, i requires 0 <= i < |os| => Retired(os[i], cluster))
  }

  function NewPreview(w: World, cluster: nat, adopt: bool): Operation {
    Operation(cluster, Previewing, Queued, w.repository.version, StateOf(w, cluster).version, adopt, None, false, None)
  }

  /** Request a preview: an active operation of the cluster is returned instead; an unpublished preview
      is superseded. */
  function PreviewRequested(w: World, cluster: nat, adopt: bool): World {
    if !Usable(w.repository) || HasActive(w.operations, cluster) then w
    else World(w.repository, w.states[cluster := StateOf(w, cluster)],
               Supersede(w.operations, cluster) + [NewPreview(w, cluster, adopt)])
  }

  /** May this operation be approved, or retried? */
  predicate Approvable(w: World, i: nat)
    requires i < |w.operations|
  {
    var o := w.operations[i];
    && !OtherActive(w.operations, o.cluster, i)
    && o.preview.Some? && (o.status == PreviewReady || o.status == Failed)
    && (o.kind != Publishing ==>
          && o.settingsVersion == StateOf(w, o.cluster).version && o.repositoryVersion == w.repository.version
          && Usable(w.repository) && o.status != Failed)
  }

  /** An approved publication that is on its way or done. */
  predicate Publishes(o: Operation) {
    o.kind == Publishing && o.status in {Queued, Running, Succeeded}
  }

  function PublishRequested(w: World, i: nat): World {
    if i >= |w.operations| || !Approvable(w, i) then w
    else w.(operations := w.operations[i := w.operations[i].(kind := Publishing, status := Queued, approved := true)])
  }

  function SettingsSaved(w: World, cluster: nat, expected: nat, contact: string): World {
    var before := if cluster in w.states then w.states[cluster].version else 0;
    var state := StateOf(w, cluster);
    if expected != before then w
    else if state.contact == Some(contact) then w.(states := w.states[cluster := state])
    else w.(states := w.states[cluster := state.(contact := Some(contact), version := state.version + 1)])
  }

  /** Publication intent, or an operation in progress, locks the repository's address. */
  predicate Locked(w: World) {
    || (exists c | c in w.states :: w.states[c].lastCommit.Some?)
    || exists i :: 0 <= i < |w.operations| &&
         (w.operations[i].kind == Publishing || Active(w.operations[i]) || w.operations[i].status == PreviewReady
          || w.operations[i].result.Some?)
  }

  function AddressSaved(w: World, url: string): World {
    if url == w.repository.url || Locked(w) then w
    else w.(repository := Repository(url, w.repository.version + 1, false, false))
  }

  // ---- the worker ----

  /** The operation a worker takes: the oldest that is queued or running. */
  function Next(os: seq<Operation>): (i: nat)
    ensures i <= |os| && (i < |os| ==> Active(os[i]))
    ensures forall k :: 0 <= k < i ==> !Active(os[k])
  {
    if os == [] || Active(os[0]) then 0 else 1 + Next(os[1..])
  }

  /** What executing an operation met: an error before any Git work; the proposal, and the repository it
      was prepared against; a published commit read back; or the outcome of publishing. */
  datatype Work = Broken(conflict: bool)
                | Propose(files: Tree, order: seq<Path>, settings: Settings, head: Option<Commit>, built: bool,
                          later: Option<Commit>)
                | Recovered(commit: Commit)
                | Published(outcome: Outcome<Commit>, sourceChanged: bool)

  /** The error codes that end an operation as a conflict rather than a failure. */
  const CONFLICTS: set<Code> := {StalePreview, ManualConflict, IncompatibleAdoption, AdoptionRequired}

  function Ended(o: Operation, conflict: bool): Operation {
    o.(status := if conflict then Conflicting else Failed)
  }

  /** Record a publication: the manifests it published are the next baseline, and their contact is the
      cluster's, unless its settings changed meanwhile. */
  function Recorded(w: World, i: nat, commit: Commit): World
    requires i < |w.operations| && w.operations[i].preview.Some?
  {
    var o := w.operations[i];
    var d := o.preview.value;
    var state := StateOf(w, o.cluster);
    match Validate(d.files, d.repo, d.bases)
    case Accepted(e) =>
      var settled := if state.version == o.settingsVersion && state.contact != Some(e.contact)
                     then state.(contact := Some(e.contact), version := state.version + 1) else state;
      World(w.repository,
            w.states[o.cluster := settled.(baseline := d.files, lastCommit := Some(commit))],
            w.operations[i := o.(status := Succeeded, result := Some(commit))])
    case _ => w.(operations := w.operations[i := Ended(o, false)])
  }

  /** Configuration unchanged since the request? */
  predicate Current(w: World, o: Operation) {
    && o.repositoryVersion == w.repository.version && o.settingsVersion == StateOf(w, o.cluster).version
    && w.repository.valid
  }

  function Executed(w: World, i: nat, work: Work): World
    requires i < |w.operations|
  {
    var o := w.operations[i];
    var conflicting := w.(operations := w.operations[i := Ended(o, true)]);
    match work
    case Broken(conflict) => w.(operations := w.operations[i := Ended(o, conflict)])
    case Recovered(commit) => if o.kind == Publishing && o.preview.Some? then Recorded(w, i, commit) else w
    case Propose(files, order, settings, head, built, later) =>
      if o.kind != Previewing then w
      else if !Current(w, o) then conflicting
      else
        var q := Request(w.repository.url, files, order, StateOf(w, o.cluster).baseline, settings, o.adopt);
        (match Prepare(q, head, built, later)
         case Ok(d) => w.(operations := w.operations[i := o.(preview := Some(d), status := PreviewReady)])
         case Err(code) => w.(operations := w.operations[i := Ended(o, code in CONFLICTS)]))
    case Published(outcome, sourceChanged) =>
      if o.kind != Publishing || o.preview.None? then w
      else if !Current(w, o) || sourceChanged then conflicting
      else match outcome
           case Ok(commit) => Recorded(w, i, commit)
           case Err(code) => w.(operations := w.operations[i := Ended(o, code in CONFLICTS)])
  }

  /** One visit of a worker: claim the oldest operation, or execute it if it was claimed before. */
  function Worked(w: World, work: Work): World {
    var i := Next(w.operations);
    if i == |w.operations| then w
    else if w.operations[i].status == Queued then
      w.(operations := w.operations[i := w.operations[i].(status := Running)])
    else Executed(w, i, work)
  }

  datatype Event = RequestPreview(cluster: nat, adopt: bool) | Approve(i: nat) | Work(work: Work)
                 | SaveSettings(cluster: nat, expected: nat, contact: string) | SaveAddress(url: string)
                 | SetAccess(pinned: bool, valid: bool, bump: bool)

  /** `SetAccess` is replacing credentials or validating access. */
  function Step(w: World, e: Event): World {
    match e
    case RequestPreview(cluster, adopt) => PreviewRequested(w, cluster, adopt)
    case Approve(i) => PublishRequested(w, i)
    case Work(work) => Worked(w, work)
    case SaveSettings(cluster, expected, contact) => SettingsSaved(w, cluster, expected, contact)
    case SaveAddress(url) => AddressSaved(w, url)
    case SetAccess(pinned, valid, bump) =>
      var r := w.repository;
      w.(repository := Repository(r.url, if bump then r.version + 1 else r.version, pinned, valid))
  }

  function Run(w: World, es: seq<Event>): World {
    if es == [] then w else Step(Run(w, es[..|es| - 1]), es[|es| - 1])
  }

  // ---- the invariant ----

  /** Could this operation's stored preview still be published? */
  predicate Publishable(o: Operation) {
    o.preview.Some? && (o.status == PreviewReady || (o.kind == Publishing && (Active(o) || o.status == Failed)))
  }

  predicate OperationOk(o: Operation) {
    && (o.kind == Publishing <==> o.approved)
    && (o.kind == Publishing ==> o.preview.Some? && o.status != PreviewReady && o.status != Superseded)
    && (o.kind == Previewing && Active(o) ==> o.preview.None?)
    && (o.status == PreviewReady ==> o.kind == Previewing && o.preview.Some?)
    && (o.status == Succeeded <==> o.result.Some?)
    && (o.result.Some? ==> o.kind == Publishing)
  }

  /** No two active operations, no two ready previews, and no preview being made beside a ready one. */
  predicate Apart(a: Operation, b: Operation) {
    a.cluster == b.cluster ==>
      && !(Active(a) && Active(b))
      && !(a.status == PreviewReady && b.status == PreviewReady)
      && !(a.status == PreviewReady && b.kind == Previewing && Active(b))
      && !(b.status == PreviewReady && a.kind == Previewing && Active(a))
  }

  /** Every preview that can still be published carries the repository's address, and passes the
      publisher's validation for it. */
  ghost predicate PreviewOk(w: World, o: Operation) {
    Publishable(o) ==> ValidDraft(o.preview.value, w.repository.url)
  }

  ghost predicate Inv(w: World) {
    && (forall i :: 0 <= i < |w.operations| ==> OperationOk(w.operations[i]) && PreviewOk(w, w.operations[i]))
    && (forall i, j :: 0 <= i < j < |w.operations| ==> Apart(w.operations[i], w.operations[j]))
  }

  /** Files of a proposal are listed once they are rendered. */
  ghost predicate WellFormed(e: Event) {
    e.Work? && e.work.Propose? ==> forall p :: p in e.work.order <==> p in e.work.files
  }

  /** Replacing one operation keeps the invariant if the new one fits beside all others. */
  lemma ReplaceInv(w: World, i: nat, o: Operation, states: map<nat, State>)
    requires Inv(w) && i < |w.operations| && OperationOk(o) && PreviewOk(w, o)
    requires forall k :: 0 <= k < |w.operations| && k != i ==> Apart(w.operations[k], o) && Apart(o, w.operations[k])
    ensures Inv(World(w.repository, states, w.operations[i := o]))
  {
    hide OperationOk, Publishable, Apart, ValidDraft;
  }

  /** Ending an active operation, or moving it from queued to running, keeps it apart from the rest. */
  lemma StaysApart(w: World, i: nat, o: Operation)
    requires Inv(w) && i < |w.operations| && o.cluster == w.operations[i].cluster
    requires Active(w.operations[i])
    requires o.status == PreviewReady ==> w.operations[i].kind == Previewing
    requires Active(o) ==> o.kind == w.operations[i].kind
    ensures forall k :: 0 <= k < |w.operations| && k != i ==> Apart(w.operations[k], o) && Apart(o, w.operations[k])
  {
    hide ValidDraft, OperationOk;
    forall k | 0 <= k < |w.operations| && k != i ensures Apart(w.operations[k], o) && Apart(o, w.operations[k]) {
      if k < i {
        assert Apart(w.operations[k], w.operations[i]);
      } else {
        assert Apart(w.operations[i], w.operations[k]);
      }
    }
  }

  lemma PreviewInv(w: World, cluster: nat, adopt: bool)
    requires Inv(w)
    ensures Inv(PreviewRequested(w, cluster, adopt))
  {
    hide ValidDraft;
    var after := PreviewRequested(w, cluster, adopt);
    if after != w {
      forall i, j | 0 <= i < j < |after.operations| ensures Apart(after.operations[i], after.operations[j]) {
        if j < |w.operations| {
          assert Apart(w.operations[i], w.operations[j]);
        }
      }
    }
  }

  lemma ApproveInv(w: World, i: nat)
    requires Inv(w)
    ensures Inv(PublishRequested(w, i))
  {
    hide ValidDraft;
    if i < |w.operations| && Approvable(w, i) {
      var o := w.operations[i].(kind := Publishing, status := Queued, approved := true);
      assert OperationOk(w.operations[i]) && PreviewOk(w, w.operations[i]);
      forall k | 0 <= k < |w.operations| && k != i ensures Apart(w.operations[k], o) && Apart(o, w.operations[k]) {
      }
      ReplaceInv(w, i, o, w.states);
    }
  }

  lemma RecordInv(w: World, i: nat, commit: Commit)
    requires Inv(w) && i < |w.operations| && Active(w.operations[i])
    requires w.operations[i].kind == Publishing && w.operations[i].preview.Some?
    ensures Inv(Recorded(w, i, commit))
  {
    hide ValidDraft, Validate;
    var o := Recorded(w, i, commit).operations[i];
    assert OperationOk(w.operations[i]) && PreviewOk(w, w.operations[i]);
    StaysApart(w, i, o);
    ReplaceInv(w, i, o, Recorded(w, i, commit).states);
  }

  lemma EndInv(w: World, i: nat, conflict: bool)
    requires Inv(w) && i < |w.operations| && Active(w.operations[i])
    ensures Inv(w.(operations := w.operations[i := Ended(w.operations[i], conflict)]))
  {
    hide ValidDraft;
    assert OperationOk(w.operations[i]) && PreviewOk(w, w.operations[i]);
    StaysApart(w, i, Ended(w.operations[i], conflict));
    ReplaceInv(w, i, Ended(w.operations[i], conflict), w.states);
  }

  lemma ProposeInv(w: World, i: nat, work: Work)
    requires Inv(w) && i < |w.operations| && Active(w.operations[i]) && work.Propose?
    requires forall p :: p in work.order <==> p in work.files
    ensures Inv(Executed(w, i, work))
  {
    hide ValidDraft, Prepare, Inv, Current;
    var o := w.operations[i];
    EndInv(w, i, true);
    EndInv(w, i, false);
    if o.kind == Previewing && Current(w, o) {
      var q := Request(w.repository.url, work.files, work.order, StateOf(w, o.cluster).baseline, work.settings, o.adopt);
      if Prepare(q, work.head, work.built, work.later).Ok? {
        PreparedIsValid(q, work.head, work.built, work.later);
        ReadyInv(w, i, Prepare(q, work.head, work.built, work.later).value);
      }
    }
  }

  lemma ReadyInv(w: World, i: nat, d: Draft)
    requires Inv(w) && i < |w.operations| && Active(w.operations[i]) && w.operations[i].kind == Previewing
    requires ValidDraft(d, w.repository.url)
    ensures Inv(w.(operations := w.operations[i := w.operations[i].(preview := Some(d), status := PreviewReady)]))
  {
    hide ValidDraft;
    var ready := w.operations[i].(preview := Some(d), status := PreviewReady);
    assert OperationOk(w.operations[i]);
    StaysApart(w, i, ready);
    ReplaceInv(w, i, ready, w.states);
  }

  lemma WorkInv(w: World, work: Work)
    requires Inv(w) && (work.Propose? ==> forall p :: p in work.order <==> p in work.files)
    ensures Inv(Worked(w, work))
  {
    hide ValidDraft, Prepare, Recorded, Apart;
    var i := Next(w.operations);
    if i < |w.operations| {
      var o := w.operations[i];
      assert OperationOk(o) && PreviewOk(w, o);
      if o.status == Queued {
        StaysApart(w, i, o.(status := Running));
        ReplaceInv(w, i, o.(status := Running), w.states);
      } else {
        EndInv(w, i, true);
        EndInv(w, i, false);
        match work {
          case Propose(_, _, _, _, _, _) => ProposeInv(w, i, work);
          case Recovered(commit) =>
            if o.kind == Publishing && o.preview.Some? {
              RecordInv(w, i, commit);
            }
          case Published(outcome, _) =>
            if o.kind == Publishing && o.preview.Some? && outcome.Ok? {
              RecordInv(w, i, outcome.value);
            }
          case Broken(_) =>
        }
      }
    }
  }

  lemma AddressInv(w: World, url: string)
    requires Inv(w)
    ensures Inv(AddressSaved(w, url))
  {
    hide ValidDraft, Apart;
    if AddressSaved(w, url) != w {
      forall i | 0 <= i < |w.operations| ensures !Publishable(w.operations[i]) {
        assert OperationOk(w.operations[i]);
      }
    }
  }

  lemma StepInv(w: World, e: Event)
    requires Inv(w) && WellFormed(e)
    ensures Inv(Step(w, e))
  {
    hide ValidDraft, OperationOk, Apart, PreviewRequested, PublishRequested, Worked, AddressSaved;
    match e {
      case RequestPreview(cluster, adopt) => PreviewInv(w, cluster, adopt);
      case Approve(i) => ApproveInv(w, i);
      case Work(work) => WorkInv(w, work);
      case SaveSettings(_, _, _) =>
      case SaveAddress(url) => AddressInv(w, url);
      case SetAccess(_, _, _) =>
    }
  }

  /** Over every run: a cluster has at most one active operation and at most one ready preview;
      publications were approved on a stored preview; succeeded operations are publications with a
      recorded commit; and every preview that can still be published carries the current address. */
  lemma {:induction false} RunInv(w: World, es: seq<Event>)
    requires Inv(w) && forall i :: 0 <= i < |es| ==> WellFormed(es[i])
    ensures Inv(Run(w, es))
  {
    if es != [] {
      hide Inv, Step, WellFormed;
      RunInv(w, es[..|es| - 1]);
      StepInv(Run(w, es[..|es| - 1]), es[|es| - 1]);
    }
  }

  // ---- what no step does ----

  function RequestOf(w: World, cluster: nat, adopt: bool, propose: Work): Request
    requires propose.Propose?
  {
    Request(w.repository.url, propose.files, propose.order, StateOf(w, cluster).baseline, propose.settings, adopt)
  }

  function PreparedBy(w: World, cluster: nat, adopt: bool, propose: Work): Outcome<Draft>
    requires propose.Propose?
  {
    Prepare(RequestOf(w, cluster, adopt, propose), propose.head, propose.built, propose.later)
  }

  /** A stored preview that could be published is never rewritten, and only an approval of a ready
      preview turns an operation into a publication. */
  lemma PreviewNeverChanges(w: World, e: Event, i: nat)
    requires Inv(w) && i < |w.operations|
    ensures PreviewKept(w, e, Step(w, e), i)
  {
    hide PreviewOk, Prepare, Validate, Apart, Executed;
    assert OperationOk(w.operations[i]);
    if e.Work? {
      hide OperationOk, Step, Next;
      WorkStep(w, e.work, i);
      if i == Next(w.operations) && w.operations[i].status != Queued {
        ExecutedKeeps(w, i, e.work);
      }
    }
  }

  /** What a step from `w` to `after` leaves of an operation's preview and kind. */
  predicate PreviewKept(w: World, e: Event, after: World, i: nat) {
    i < |w.operations| && i < |after.operations| &&
    var o, p := w.operations[i], after.operations[i];
    && (o.preview.Some? && (Publishable(o) || !Active(o)) ==> p.preview == o.preview)
    && (p.kind == Publishing && o.kind == Previewing ==>
          e == Approve(i) && o.status == PreviewReady && p.preview == o.preview)
    && (o.kind == Publishing ==> p.kind == Publishing)
  }

  /** A worker's step touches only the operation it takes: claiming or executing it. */
  lemma WorkStep(w: World, work: Work, i: nat)
    requires i < |w.operations|
    ensures var next, after := Next(w.operations), Step(w, Event.Work(work));
            && |after.operations| == |w.operations|
            && (i != next ==> after.operations[i] == w.operations[i])
            && (i == next && w.operations[i].status == Queued ==>
                  after.operations[i] == w.operations[i].(status := Running))
            && (i == next && w.operations[i].status != Queued ==> after == Executed(w, i, work))
  {
    hide Executed, PreviewRequested, PublishRequested, SettingsSaved, AddressSaved;
    var next := Next(w.operations);
    if next < |w.operations| {
      ExecutedElsewhere(w, next, work, i);
    }
  }

  lemma ExecutedElsewhere(w: World, next: nat, work: Work, i: nat)
    requires next < |w.operations| && i < |w.operations|
    ensures |Executed(w, next, work).operations| == |w.operations|
    ensures i != next ==> Executed(w, next, work).operations[i] == w.operations[i]
  {
    hide Prepare, Validate, Current, StateOf;
  }

  lemma ExecutedKeeps(w: World, i: nat, work: Work)
    requires i < |w.operations|
    ensures i < |Executed(w, i, work).operations|
    ensures var o, p := w.operations[i], Executed(w, i, work).operations[i];
            && p.kind == o.kind && (o.kind == Publishing ==> p.preview == o.preview)
  {
    hide Prepare, Validate, Current, StateOf;
  }

  /** Requests record no commit, and make no preview ready. */
  lemma RequestStep(w: World, e: Event, i: nat)
    requires i < |w.operations| && !e.Work?
    ensures i < |Step(w, e).operations|
    ensures Step(w, e).operations[i].result == w.operations[i].result
    ensures Step(w, e).operations[i].status == PreviewReady ==> w.operations[i].status == PreviewReady
  {
    hide Worked, StateOf, Approvable, Locked, HasActive;
  }

  /** A commit is recorded only by executing an approved publication: one read back from the branch, or
      one just published under the configuration and source the preview was made from. */
  lemma OnlyApprovedPublish(w: World, e: Event, i: nat)
    requires Inv(w) && i < |w.operations|
    requires w.operations[i].result.None? && i < |Step(w, e).operations| && Step(w, e).operations[i].result.Some?
    ensures e.Work? && i == Next(w.operations) && w.operations[i].approved && w.operations[i].preview.Some?
    ensures w.operations[i].status == Running
    ensures e.work == Recovered(Step(w, e).operations[i].result.value)
            || (e.work == Published(Ok(Step(w, e).operations[i].result.value), false) && Current(w, w.operations[i]))
  {
    hide Inv, Step, Executed, Next, Current;
    if e.Work? {
      WorkStep(w, e.work, i);
      PublicationApproved(w, i);
      if i == Next(w.operations) && w.operations[i].status != Queued {
        ExecutedRecords(w, i, e.work);
      }
    } else {
      RequestStep(w, e, i);
    }
  }

  lemma PublicationApproved(w: World, i: nat)
    requires Inv(w) && i < |w.operations|
    ensures w.operations[i].kind == Publishing ==> w.operations[i].approved && w.operations[i].preview.Some?
    ensures w.operations[i].kind == Previewing && Active(w.operations[i]) ==> w.operations[i].preview.None?
  {
    hide PreviewOk, Apart;
    assert OperationOk(w.operations[i]);
  }

  lemma ExecutedRecords(w: World, i: nat, work: Work)
    requires i < |w.operations| && w.operations[i].result.None?
    ensures i < |Executed(w, i, work).operations|
    ensures Executed(w, i, work).operations[i].result.Some? ==>
              var c := Executed(w, i, work).operations[i].result.value;
              && w.operations[i].kind == Publishing
              && (work == Recovered(c) || (work == Published(Ok(c), false) && Current(w, w.operations[i])))
  {
    hide Prepare, Validate, Current, StateOf;
  }

  /** A preview becomes ready only as the preparation of its request made it, under the configuration
      it was requested for; whatever else a worker meets leaves no ready preview behind. */
  lemma OnlyCurrentReady(w: World, e: Event, i: nat)
    requires Inv(w) && i < |w.operations| && w.operations[i].status != PreviewReady
    requires i < |Step(w, e).operations| && Step(w, e).operations[i].status == PreviewReady
    ensures e.Work? && e.work.Propose? && i == Next(w.operations) && w.operations[i].kind == Previewing
    ensures Current(w, w.operations[i])
    ensures PreparedBy(w, w.operations[i].cluster, w.operations[i].adopt, e.work).Ok?
    ensures Step(w, e).operations[i].preview
         == Some(PreparedBy(w, w.operations[i].cluster, w.operations[i].adopt, e.work).value)
  {
    hide Inv, Step, Executed, Next, Current, PreparedBy;
    if e.Work? {
      WorkStep(w, e.work, i);
      if i == Next(w.operations) && w.operations[i].status != Queued {
        ExecutedReadies(w, i, e.work);
      }
    } else {
      RequestStep(w, e, i);
    }
  }

  lemma ExecutedReadies(w: World, i: nat, work: Work)
    requires i < |w.operations| && w.operations[i].status != PreviewReady
    ensures i < |Executed(w, i, work).operations|
    ensures Executed(w, i, work).operations[i].status == PreviewReady ==>
              var o := w.operations[i];
              && work.Propose? && o.kind == Previewing && Current(w, o) && PreparedBy(w, o.cluster, o.adopt, work).Ok?
              && Executed(w, i, work).operations[i].preview == Some(PreparedBy(w, o.cluster, o.adopt, work).value)
  {
    hide Prepare, Validate, Current, StateOf;
  }

  predicate WasPublished(w: World, c: nat) {
    c in w.states && w.states[c].lastCommit.Some?
  }

  lemma StepKeepsPublished(w: World, e: Event, c: nat)
    requires WasPublished(w, c)
    ensures WasPublished(Step(w, e), c) && Step(w, e).repository.url == w.repository.url
  {
    hide Prepare, Validate;
  }

  /** Once any cluster was published, the repository's address never changes again. */
  lemma {:induction false} PublishedAddressStays(w: World, es: seq<Event>, c: nat)
    requires WasPublished(w, c)
    ensures WasPublished(Run(w, es), c) && Run(w, es).repository.url == w.repository.url
  {
    if es != [] {
      hide Step;
      PublishedAddressStays(w, es[..|es| - 1], c);
      StepKeepsPublished(Run(w, es[..|es| - 1]), es[|es| - 1], c);
    }
  }

  /** Recording a publication of a reachable operation never fails; the files it published become the
      baseline, and unless the settings changed meanwhile their contact becomes the cluster's, also
      when it came from a manual edit.  So the next preview asks for exactly what was published. */
  lemma RecordingSettles(w: World, i: nat, commit: Commit)
    requires Inv(w) && i < |w.operations| && Active(w.operations[i]) && w.operations[i].kind == Publishing
    ensures w.operations[i].preview.Some?
    ensures var d := w.operations[i].preview.value;
            var after := Recorded(w, i, commit);
            && Validate(d.files, d.repo, d.bases).Accepted?
            && after.operations[i].status == Succeeded && after.operations[i].result == Some(commit)
            && StateOf(after, w.operations[i].cluster).baseline == d.files
            && StateOf(after, w.operations[i].cluster).lastCommit == Some(commit)
            && (StateOf(w, w.operations[i].cluster).version == w.operations[i].settingsVersion ==>
                  StateOf(after, w.operations[i].cluster).contact
                  == Some(Validate(d.files, d.repo, d.bases).inputs.contact))
            && (StateOf(w, w.operations[i].cluster).version != w.operations[i].settingsVersion ==>
                  StateOf(after, w.operations[i].cluster).contact == StateOf(w, w.operations[i].cluster).contact)
            && StateOf(after, w.operations[i].cluster).version
               == StateOf(w, w.operations[i].cluster).version
                  + (if StateOf(after, w.operations[i].cluster).contact == StateOf(w, w.operations[i].cluster).contact
                     then 0 else 1)
            && after.repository == w.repository
            && (forall c :: c != w.operations[i].cluster ==> StateOf(after, c) == StateOf(w, c))
  {
    hide Validate, CheckPaths;
    assert OperationOk(w.operations[i]) && PreviewOk(w, w.operations[i]);
    assert Publishable(w.operations[i]);
  }

  predicate NothingPublished(w: World) {
    forall c :: c in w.states ==> w.states[c].lastCommit.None?
  }

  /** No operation publishes, is active, waits to be approved, or left a commit. */
  predicate NothingPending(w: World) {
    forall o :: o in w.operations ==>
                  o.kind == Previewing && o.status !in {Queued, Running, PreviewReady} && o.result.None?
  }

  predicate Outdated(w: World) {
    forall o :: o in w.operations ==> !Current(w, o)
  }

  /** The address changes exactly when nothing was published and no operation is a publication, active,
      ready or with a commit.  The new address has no credentials and is not validated, so nothing can
      be requested, approved or published on it as it is, and no earlier operation is current. */
  lemma AddressChangesIff(w: World, url: string)
    ensures var after := Step(w, SaveAddress(url));
            var free := NothingPublished(w) && NothingPending(w);
            && (after.repository.url == if free then url else w.repository.url)
            && (url == w.repository.url || !free ==> after == w)
            && (url != w.repository.url && free ==>
                  && after.repository.version == w.repository.version + 1 && !Usable(after.repository)
                  && !after.repository.pinned && !after.repository.valid
                  && after.states == w.states && after.operations == w.operations
                  && Outdated(after))
  {
    hide Worked, PreviewRequested, PublishRequested, SettingsSaved;
  }

  // ---- settings versions ----

  /** A cluster's version counts the changes of its contact: every step that changes the contact raises
      it by one, and no other step moves it. */
  lemma VersionCounts(w: World, e: Event, c: nat)
    ensures var before, after := StateOf(w, c), StateOf(Step(w, e), c);
            after.version == before.version + if after.contact != before.contact then 1 else 0
  {
    hide Prepare, Validate, Next, Current;
  }

  /** So over any run the version only rises, and where it is the same the contact is the same. */
  lemma {:induction false} SameVersionSameContact(w: World, es: seq<Event>, c: nat)
    ensures StateOf(Run(w, es), c).version >= StateOf(w, c).version
    ensures StateOf(Run(w, es), c).version == StateOf(w, c).version ==>
              StateOf(Run(w, es), c).contact == StateOf(w, c).contact
  {
    if es != [] {
      hide Step, StateOf;
      SameVersionSameContact(w, es[..|es| - 1], c);
      VersionCounts(Run(w, es[..|es| - 1]), es[|es| - 1], c);
    }
  }

  /** Settings are saved exactly when the caller saw the current version, which is none before the first
      save; nothing else is touched. */
  lemma SavedIff(w: World, c: nat, expected: nat, contact: string)
    ensures var after := Step(w, SaveSettings(c, expected, contact));
            && (expected == (if c in w.states then w.states[c].version else 0) ==>
                  && after.states.Keys == w.states.Keys + {c} && StateOf(after, c).contact == Some(contact)
                  && StateOf(after, c).baseline == StateOf(w, c).baseline
                  && StateOf(after, c).lastCommit == StateOf(w, c).lastCommit
                  && (forall k :: k != c ==> StateOf(after, k) == StateOf(w, k))
                  && after.operations == w.operations && after.repository == w.repository)
            && (expected != (if c in w.states then w.states[c].version else 0) ==> after == w)
  {
    hide Worked, PreviewRequested, PublishRequested, AddressSaved;
  }

  /** No operation was requested under a version its cluster has not reached. */
  predicate Dated(w: World) {
    forall i :: 0 <= i < |w.operations| ==>
      w.operations[i].settingsVersion <= StateOf(w, w.operations[i].cluster).version
      && w.operations[i].repositoryVersion <= w.repository.version
  }

  /** The repository's version counts the changes of its address and of its credentials. */
  lemma RepositoryVersionCounts(w: World, e: Event)
    ensures var before, after := w.repository, Step(w, e).repository;
            after.version == before.version
                             + if after.url != before.url || (e.SetAccess? && e.bump) then 1 else 0
  {
    hide Prepare, Validate, Next, Current, Locked;
  }

  lemma {:induction false} RepositoryVersionRises(w: World, es: seq<Event>)
    ensures Run(w, es).repository.version >= w.repository.version
  {
    if es != [] {
      hide Step;
      RepositoryVersionRises(w, es[..|es| - 1]);
      RepositoryVersionCounts(Run(w, es[..|es| - 1]), es[|es| - 1]);
    }
  }

  /** Once the address or the credentials of the repository were changed, no operation requested before
      is ever again current, and none that is still a preview is ever approved. */
  lemma ChangedRepositoryRetires(w: World, e: Event, es: seq<Event>, i: nat)
    requires Dated(w) && i < |w.operations|
    requires Step(w, e).repository.url != w.repository.url || (e.SetAccess? && e.bump)
    ensures var after := Run(Step(w, e), es);
            && i < |after.operations| && !Current(after, after.operations[i])
            && (after.operations[i].kind == Previewing ==> !Approvable(after, i))
  {
    hide Run, Step, StateOf, OtherActive;
    RepositoryVersionCounts(w, e);
    RequestStays(w, e, i);
    RepositoryVersionRises(Step(w, e), es);
    RequestStaysForever(Step(w, e), es, i);
  }

  /** While access to the repository is not validated no preview becomes ready and nothing is recorded
      but what was read back. */
  lemma UnvalidatedWaits(w: World, e: Event, i: nat)
    requires Inv(w) && i < |w.operations| && !w.repository.valid
    ensures i < |Step(w, e).operations|
    ensures Step(w, e).operations[i].status == PreviewReady ==> w.operations[i].status == PreviewReady
    ensures w.operations[i].result.None? && Step(w, e).operations[i].result.Some? ==>
              e.Work? && e.work == Recovered(Step(w, e).operations[i].result.value)
  {
    hide Inv, Step, Next, StateOf;
    RequestStays(w, e, i);
    if w.operations[i].status != PreviewReady && Step(w, e).operations[i].status == PreviewReady {
      OnlyCurrentReady(w, e, i);
    }
    if w.operations[i].result.None? && Step(w, e).operations[i].result.Some? {
      OnlyApprovedPublish(w, e, i);
    }
  }

  /** What an operation was requested under never changes. */
  lemma RequestStays(w: World, e: Event, i: nat)
    requires i < |w.operations|
    ensures i < |Step(w, e).operations|
    ensures var o, p := w.operations[i], Step(w, e).operations[i];
            p.cluster == o.cluster && p.settingsVersion == o.settingsVersion && p.repositoryVersion == o.repositoryVersion
  {
    hide Worked, Approvable, Locked, StateOf;
    if e.Work? {
      WorkStays(w, e.work, i);
    }
  }

  lemma WorkStays(w: World, work: Work, i: nat)
    requires i < |w.operations|
    ensures i < |Worked(w, work).operations|
    ensures var o, p := w.operations[i], Worked(w, work).operations[i];
            p.cluster == o.cluster && p.settingsVersion == o.settingsVersion && p.repositoryVersion == o.repositoryVersion
  {
    hide Prepare, Validate, Next, Current, StateOf;
  }

  lemma NewRequest(w: World, e: Event, i: nat)
    requires |w.operations| <= i < |Step(w, e).operations|
    ensures var o := Step(w, e).operations[i];
            o.settingsVersion == StateOf(w, o.cluster).version && o.repositoryVersion == w.repository.version
  {
    hide Prepare, Validate, Next, Current;
  }

  lemma StepDated(w: World, e: Event)
    requires Dated(w)
    ensures Dated(Step(w, e))
  {
    hide Step, StateOf;
    forall i | 0 <= i < |Step(w, e).operations|
      ensures Step(w, e).operations[i].settingsVersion <= StateOf(Step(w, e), Step(w, e).operations[i].cluster).version
      ensures Step(w, e).operations[i].repositoryVersion <= Step(w, e).repository.version
    {
      RepositoryVersionCounts(w, e);
      VersionCounts(w, e, Step(w, e).operations[i].cluster);
      if i < |w.operations| {
        RequestStays(w, e, i);
      } else {
        NewRequest(w, e, i);
      }
    }
  }

  lemma {:induction false} RunDated(w: World, es: seq<Event>)
    requires Dated(w)
    ensures Dated(Run(w, es))
  {
    if es != [] {
      hide Step, Dated;
      RunDated(w, es[..|es| - 1]);
      StepDated(Run(w, es[..|es| - 1]), es[|es| - 1]);
    }
  }

  lemma {:induction false} RequestStaysForever(w: World, es: seq<Event>, i: nat)
    requires i < |w.operations|
    ensures i < |Run(w, es).operations|
    ensures var o, p := w.operations[i], Run(w, es).operations[i];
            p.cluster == o.cluster && p.settingsVersion == o.settingsVersion && p.repositoryVersion == o.repositoryVersion
  {
    if es != [] {
      hide Step;
      RequestStaysForever(w, es[..|es| - 1], i);
      RequestStays(Run(w, es[..|es| - 1]), es[|es| - 1], i);
    }
  }

  /** Once a cluster's contact was changed, no operation requested before is ever again current, so none
      publishes what was approved for the old contact; and none that is still a preview is ever
      approved. */
  lemma ChangedSettingsRetire(w: World, e: Event, es: seq<Event>, i: nat)
    requires Dated(w) && i < |w.operations|
    requires StateOf(Step(w, e), w.operations[i].cluster).contact != StateOf(w, w.operations[i].cluster).contact
    ensures var after := Run(Step(w, e), es);
            && i < |after.operations| && !Current(after, after.operations[i])
            && (after.operations[i].kind == Previewing ==> !Approvable(after, i))
  {
    hide Run, Step, StateOf, OtherActive;
    var c := w.operations[i].cluster;
    VersionCounts(w, e, c);
    RequestStays(w, e, i);
    SameVersionSameContact(Step(w, e), es, c);
    RequestStaysForever(Step(w, e), es, i);
  }

  // ---- how an operation ends ----

  /** Which errors of a publication end it for good: those that say the repository or what was approved
      has to be looked at again.  Every other error leaves it to be retried. */
  lemma PublicationEnds(w: World, i: nat, code: Code)
    requires i < |w.operations| && w.operations[i].kind == Publishing && w.operations[i].preview.Some?
    requires Current(w, w.operations[i])
    ensures var final := match code
                         case StalePreview => true
                         case ManualConflict => true
                         case AdoptionRequired => true
                         case IncompatibleAdoption => true
                         case _ => false;
            Executed(w, i, Published(Err(code), false)).operations[i]
            == w.operations[i].(status := if final then Conflicting else Failed)
  {
    hide Current, Prepare, Validate;
  }

  /** Likewise for a preview that cannot be prepared. */
  lemma PreviewEnds(w: World, i: nat, propose: Work)
    requires i < |w.operations| && w.operations[i].kind == Previewing && propose.Propose?
    requires PreparedBy(w, w.operations[i].cluster, w.operations[i].adopt, propose).Err?
    ensures var final := !Current(w, w.operations[i])
                         || match PreparedBy(w, w.operations[i].cluster, w.operations[i].adopt, propose).code
                            case StalePreview => true
                            case ManualConflict => true
                            case AdoptionRequired => true
                            case IncompatibleAdoption => true
                            case _ => false;
            Executed(w, i, propose).operations[i]
            == w.operations[i].(status := if final then Conflicting else Failed)
  {
    hide Current, Prepare, Validate;
  }

  /** An error before any work on the repository ends an operation as the error says. */
  lemma BrokenEnds(w: World, i: nat, conflict: bool)
    requires i < |w.operations|
    ensures Executed(w, i, Broken(conflict))
         == w.(operations := w.operations[i := w.operations[i].(status := if conflict then Conflicting else Failed)])
  {
  }

  /** A publication whose configuration or source changed since its preview ends for good, whatever
      publishing would have come to. */
  lemma OutdatedEnds(w: World, i: nat, outcome: Outcome<Commit>, sourceChanged: bool)
    requires i < |w.operations| && w.operations[i].kind == Publishing && w.operations[i].preview.Some?
    requires !Current(w, w.operations[i]) || sourceChanged
    ensures Executed(w, i, Published(outcome, sourceChanged))
         == w.(operations := w.operations[i := w.operations[i].(status := Conflicting)])
  {
    hide Current, Prepare, Validate;
  }

  lemma StepKeepsConflict(w: World, e: Event, i: nat)
    requires i < |w.operations| && w.operations[i].status == Conflicting
    ensures i < |Step(w, e).operations| && Step(w, e).operations[i] == w.operations[i]
  {
    hide StateOf, Executed;
    if e.Work? {
      hide Step, Next;
      WorkStep(w, e.work, i);
      NextIsActive(w);
    }
  }

  lemma NextIsActive(w: World)
    ensures Next(w.operations) < |w.operations| ==> Active(w.operations[Next(w.operations)])
  {
  }

  /** An operation that ended in a conflict stays so in every run, and is never approved again. */
  lemma ConflictForever(w: World, es: seq<Event>, i: nat)
    requires i < |w.operations| && w.operations[i].status == Conflicting
    ensures var after := Run(w, es);
            i < |after.operations| && after.operations[i] == w.operations[i] && !Approvable(after, i)
  {
    hide Run, OtherActive, StateOf;
    RunKeepsConflict(w, es, i);
  }

  lemma {:induction false} RunKeepsConflict(w: World, es: seq<Event>, i: nat)
    requires i < |w.operations| && w.operations[i].status == Conflicting
    ensures i < |Run(w, es).operations| && Run(w, es).operations[i] == w.operations[i]
  {
    if es != [] {
      hide Step, Approvable;
      RunKeepsConflict(w, es[..|es| - 1], i);
      StepKeepsConflict(Run(w, es[..|es| - 1]), es[|es| - 1], i);
    }
  }

  /** A publication that failed may be retried whenever nothing else of its cluster is active. */
  lemma FailedIsRetriable(w: World, i: nat)
    requires Inv(w) && i < |w.operations| && w.operations[i].status == Failed && w.operations[i].kind == Publishing
    ensures Approvable(w, i) <==> !OtherActive(w.operations, w.operations[i].cluster, i)
  {
    hide PreviewOk, Apart;
    assert OperationOk(w.operations[i]);
  }

  /** The same, read off a whole run from an empty history. */
  lemma OneAtATime(repository: Repository, states: map<nat, State>, es: seq<Event>, i: nat, j: nat)
    requires forall k :: 0 <= k < |es| ==> WellFormed(es[k])
    requires i < j < |Run(World(repository, states, []), es).operations|
    ensures InOrder(Run(World(repository, states, []), es), i, j)
  {
    hide Run, Validate, CheckPaths;
    RunInv(World(repository, states, []), es);
    var w := Run(World(repository, states, []), es);
    assert OperationOk(w.operations[i]) && PreviewOk(w, w.operations[i]) && Apart(w.operations[i], w.operations[j]);
  }

  /** Two operations of a queue: at most one of a cluster is active and at most one ready; a succeeded
      one is an approved publication with its commit; and a publishable one has the current address. */
  predicate InOrder(w: World, i: nat, j: nat)
    requires i < j < |w.operations|
  {
    var a, b := w.operations[i], w.operations[j];
    && (a.cluster == b.cluster ==> !(Active(a) && Active(b)) && !(a.status == PreviewReady && b.status == PreviewReady))
    && (a.status == Succeeded ==> a.kind == Publishing && a.approved && a.preview.Some? && a.result.Some?)
    && (Publishable(a) ==> a.preview.value.repo == w.repository.url)
  }

  // ---- the service ----

  class OperationService {
    var repository: Repository
    var states: map<nat, State>
    var operations: seq<Operation>

    constructor (repository: Repository)
      ensures Now() == World(repository, map[], []) && Inv(Now())
    {
      this.repository, states, operations := repository, map[], [];
    }

    function Now(): World
      reads this
    {
      World(repository, states, operations)
    }

    method EnqueuePreview(cluster: nat, adopt: bool) returns (i: Option<nat>)
      requires Inv(Now())
      modifies this
      ensures Now() == Step(old(Now()), RequestPreview(cluster, adopt)) && Inv(Now())
      ensures i.Some? <==> Usable(old(repository))
      ensures i.Some? ==> i.value < |operations| && operations[i.value].cluster == cluster && Active(operations[i.value])
    {
      hide Inv, HasActive, ActiveOf, Retired, PublishRequested, Worked, SettingsSaved, AddressSaved;
      StepInv(Now(), RequestPreview(cluster, adopt));
      if !Usable(repository) {
        return None;
      }
      var active := ActiveOf(operations, cluster);
      if active < |operations| {
        return Some(active);
      }
      var operation := NewPreview(Now(), cluster, adopt);
      states := states[cluster := StateOf(Now(), cluster)];
      operations := Supersede(operations, cluster);
      operations := operations + [operation];
      return Some(|operations| - 1);
    }

    method EnqueuePublish(i: nat) returns (ok: bool)
      requires Inv(Now()) && i < |operations|
      modifies this
      ensures |operations| == old(|operations|)
      ensures ok ==> operations[i].kind == Publishing && operations[i].approved && operations[i].preview.Some?
      ensures Now() == Step(old(Now()), Approve(i)) && Inv(Now())
      ensures ok <==> Approvable(old(Now()), i)
                      || old(Publishes(operations[i]))
    {
      hide Inv, OtherActive;
      StepInv(Now(), Approve(i));
      ApprovedHasPreview(Now(), i);
      var o := operations[i];
      if o.kind == Publishing && (Active(o) || o.status == Succeeded) {
        return true;
      }
      if OtherActive(operations, o.cluster, i) {
        return false;
      }
      if o.preview.None? || (o.status != PreviewReady && o.status != Failed) {
        return false;
      }
      if o.kind != Publishing {
        if o.settingsVersion != StateOf(Now(), o.cluster).version || o.repositoryVersion != repository.version {
          return false;
        }
        if !Usable(repository) || o.status == Failed {
          return false;
        }
      }
      operations := operations[i := o.(kind := Publishing, status := Queued, approved := true)];
      return true;
    }

    /** One visit of a worker. */
    method RunOne(work: Work) returns (worked: bool)
      requires Inv(Now()) && WellFormed(Event.Work(work))
      modifies this
      ensures Now() == Step(old(Now()), Event.Work(work)) && Inv(Now())
      ensures worked <==> Next(old(operations)) < |old(operations)|
    {
      hide Inv, Executed;
      StepInv(Now(), Event.Work(work));
      var i := Next(operations);
      if i == |operations| {
        return false;
      }
      if operations[i].status == Queued {
        operations := operations[i := operations[i].(status := Running)];
        return true;
      }
      ExecuteOperation(i, work);
      return true;
    }

    /** Execute a claimed operation. */
    method ExecuteOperation(i: nat, work: Work)
      requires i < |operations|
      modifies this
      ensures Now() == Executed(old(Now()), i, work)
    {
      hide Prepare, Validate, Recorded;
      var o := operations[i];
      match work {
        case Broken(conflict) => EndOperation(i, conflict);
        case Recovered(commit) =>
          if o.kind == Publishing && o.preview.Some? {
            RecordPublication(i, commit);
          }
        case Propose(files, order, settings, head, built, later) =>
          if o.kind == Previewing {
            if !Current(Now(), o) {
              EndOperation(i, true);
              return;
            }
            var state := StateOf(Now(), o.cluster);
            var prepared := Prepare(Request(repository.url, files, order, state.baseline, settings, o.adopt),
                                    head, built, later);
            match prepared {
              case Ok(d) => operations := operations[i := o.(preview := Some(d), status := PreviewReady)];
              case Err(code) => EndOperation(i, code in CONFLICTS);
            }
          }
        case Published(outcome, sourceChanged) =>
          if o.kind == Publishing && o.preview.Some? {
            if !Current(Now(), o) || sourceChanged {
              EndOperation(i, true);
              return;
            }
            match outcome {
              case Ok(commit) => RecordPublication(i, commit);
              case Err(code) => EndOperation(i, code in CONFLICTS);
            }
          }
      }
    }

    method EndOperation(i: nat, conflict: bool)
      requires i < |operations|
      modifies this`operations
      ensures operations == old(operations)[i := Ended(old(operations)[i], conflict)]
    {
      if conflict {
        operations := operations[i := operations[i].(status := Conflicting)];
      } else {
        operations := operations[i := operations[i].(status := Failed)];
      }
    }

    /** Record a publication. */
    method RecordPublication(i: nat, commit: Commit)
      requires i < |operations| && operations[i].preview.Some?
      modifies this
      ensures Now() == Recorded(old(Now()), i, commit)
    {
      hide Validate;
      var o := operations[i];
      var d := o.preview.value;
      var effective := Validate(d.files, d.repo, d.bases);
      if !effective.Accepted? {
        EndOperation(i, false);
        return;
      }
      var state := StateOf(Now(), o.cluster);
      if state.version == o.settingsVersion && state.contact != Some(effective.inputs.contact) {
        state := state.(contact := Some(effective.inputs.contact), version := state.version + 1);
      }
      state := state.(baseline := d.files, lastCommit := Some(commit));
      states := states[o.cluster := state];
      operations := operations[i := o.(status := Succeeded, result := Some(commit))];
    }

    method SaveClusterSettings(cluster: nat, expected: nat, contact: string) returns (ok: bool)
      requires Inv(Now())
      modifies this
      ensures Now() == Step(old(Now()), SaveSettings(cluster, expected, contact)) && Inv(Now())
      ensures ok ==> cluster in states && states[cluster].contact == Some(contact)
    {
      hide Inv, PreviewRequested, PublishRequested, Worked, AddressSaved;
      StepInv(Now(), SaveSettings(cluster, expected, contact));
      var before := if cluster in states then states[cluster].version else 0;
      if expected != before {
        return false;
      }
      var state := StateOf(Now(), cluster);
      if state.contact != Some(contact) {
        state := state.(contact := Some(contact), version := state.version + 1);
      }
      states := states[cluster := state];
      return true;
    }

    /** Changing the address is refused while anything could still be published, or was. */
    method SaveRepositoryAddress(url: string) returns (ok: bool)
      requires Inv(Now())
      modifies this
      ensures Now() == Step(old(Now()), SaveAddress(url)) && Inv(Now())
      ensures ok <==> url == old(repository.url) || !Locked(old(Now()))
      ensures ok ==> repository.url == url
    {
      hide Inv, Locked;
      StepInv(Now(), SaveAddress(url));
      if url == repository.url {
        return true;
      }
      if Locked(Now()) {
        return false;
      }
      repository := Repository(url, repository.version + 1, false, false);
      return true;
    }
  }

  /** The cluster's active operation, or the length. */
  function ActiveOf(os: seq<Operation>, cluster: nat): (i: nat)
    ensures i <= |os| && (i < |os| ==> os[i].cluster == cluster && Active(os[i]))
    ensures i < |os| <==> HasActive(os, cluster)
  {
    if os == [] then 0
    else if os[0].cluster == cluster && Active(os[0]) then 0
    else
      assert HasActive(os, cluster) <==> HasActive(os[1..], cluster) by {
        if HasActive(os, cluster) {
          var k :| 0 <= k < |os| && os[k].cluster == cluster && Active(os[k]);
          assert os[1..][k - 1] == os[k];
        }
      }
      1 + ActiveOf(os[1..], cluster)
  }

  lemma ApprovedHasPreview(w: World, i: nat)
    requires Inv(w) && i < |w.operations|
    ensures w.operations[i].kind == Publishing ==> w.operations[i].preview.Some? && w.operations[i].approved
    ensures Approvable(w, i) ==> w.operations[i].preview.Some?
  {
    assert OperationOk(w.operations[i]);
  }
}
