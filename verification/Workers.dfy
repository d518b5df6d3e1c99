/** The worker that executes an approved publication: the queue of operations and the customer's
    repository together.

    The read-back comes first and does not look at the configuration; publishing comes only after the
    configuration and the operator's source are found unchanged.
 */
module Workers {
  import opened Options
  import opened Manifests
  import opened Git
  import opened Preview
  import opened Operations
  import Publish

  /** The commits a step says were published were main, and fulfil the preview of their operation. */
  ghost predicate Truthful(w: World, e: Event, mains: set<Option<Commit>>) {
    e.Work? && Next(w.operations) < |w.operations| ==>
      var o := w.operations[Next(w.operations)];
      match e.work
      case Recovered(c) => Answers(o, c, mains)
      case Published(Ok(c), _) => Answers(o, c, mains)
      case _ => true
  }

  ghost predicate Answers(o: Operation, c: Commit, mains: set<Option<Commit>>) {
    o.kind == Publishing && o.preview.Some? ==> Some(c) in mains && Publish.Fulfils(c.entries, o.preview.value)
  }

  /** An operation whose recorded commit was main, and fulfils its preview. */
  ghost predicate Confirmed(o: Operation, mains: set<Option<Commit>>) {
    o.result.Some? ==> o.preview.Some? && o.result in mains && Publish.Fulfils(o.result.value.entries, o.preview.value)
  }

  ghost predicate AllConfirmed(w: World, mains: set<Option<Commit>>) {
    forall i :: 0 <= i < |w.operations| ==> Confirmed(w.operations[i], mains)
  }

  /** A succeeded operation is never touched again. */
  lemma SucceededStays(w: World, e: Event, i: nat)
    requires Inv(w) && i < |w.operations| && w.operations[i].result.Some?
    ensures i < |Step(w, e).operations| && Step(w, e).operations[i] == w.operations[i]
  {
    hide PreviewOk, Apart, Prepare, Validate;
    assert OperationOk(w.operations[i]);
  }

  lemma NewOperations(w: World, e: Event, i: nat)
    requires |w.operations| <= i < |Step(w, e).operations|
    ensures Step(w, e).operations[i].result.None?
  {
    hide Prepare, Validate;
  }

  lemma StepConfirmed(w: World, e: Event, mains: set<Option<Commit>>)
    requires Inv(w) && AllConfirmed(w, mains) && Truthful(w, e, mains)
    ensures AllConfirmed(Step(w, e), mains)
  {
    hide Inv, Step, Publish.Fulfils, Next, Current;
    var after := Step(w, e);
    forall i | 0 <= i < |after.operations| && after.operations[i].result.Some? ensures Confirmed(after.operations[i], mains) {
      if i >= |w.operations| {
        NewOperations(w, e, i);
      } else if w.operations[i].result.Some? {
        assert Confirmed(w.operations[i], mains);
        SucceededStays(w, e, i);
      } else {
        OnlyApprovedPublish(w, e, i);
        RecordedKeepsPreview(w, e, i);
      }
    }
  }

  lemma RecordedKeepsPreview(w: World, e: Event, i: nat)
    requires Inv(w) && i < |w.operations| && w.operations[i].approved && w.operations[i].status == Running
    ensures w.operations[i].kind == Publishing
    ensures i < |Step(w, e).operations| && Step(w, e).operations[i].preview == w.operations[i].preview
  {
    hide Step, PreviewOk, Apart;
    assert OperationOk(w.operations[i]);
    PreviewNeverChanges(w, e, i);
  }

  /** Every step of a run is truthful about what was published. */
  ghost predicate TruthfulRun(w: World, es: seq<Event>, mains: set<Option<Commit>>) {
    es == []
    || (TruthfulRun(w, es[..|es| - 1], mains) && WellFormed(es[|es| - 1])
        && Truthful(Run(w, es[..|es| - 1]), es[|es| - 1], mains))
  }

  lemma {:induction false} RunConfirmed(w: World, es: seq<Event>, mains: set<Option<Commit>>)
    requires Inv(w) && AllConfirmed(w, mains) && TruthfulRun(w, es, mains)
    ensures Inv(Run(w, es)) && AllConfirmed(Run(w, es), mains)
  {
    if es != [] {
      hide Inv, Step, AllConfirmed, Truthful, WellFormed;
      var before := Run(w, es[..|es| - 1]);
      RunConfirmed(w, es[..|es| - 1], mains);
      StepInv(before, es[|es| - 1]);
      StepConfirmed(before, es[|es| - 1], mains);
    }
  }

  /** Over every run whose workers are truthful, from an empty history: an operation that succeeded is an
      approved publication, and the commit it recorded was main and fulfils the preview approved. */
  lemma SucceededWasPublished(repository: Repository, states: map<nat, State>, es: seq<Event>,
                              mains: set<Option<Commit>>, i: nat)
    requires TruthfulRun(World(repository, states, []), es, mains)
    requires var w := Run(World(repository, states, []), es);
             i < |w.operations| && w.operations[i].status == Succeeded
    ensures var o := Run(World(repository, states, []), es).operations[i];
            && o.kind == Publishing && o.approved && o.preview.Some? && o.result.Some?
            && o.result in mains && Publish.Fulfils(o.result.value.entries, o.preview.value)
  {
    hide Run, Publish.Fulfils, PreviewOk, Apart, TruthfulRun;
    var start := World(repository, states, []);
    RunConfirmed(start, es, mains);
    var o := Run(start, es).operations[i];
    assert OperationOk(o) && Confirmed(o, mains);
  }

  // ---- the worker ----

  /** The commits a call saw as main. */
  function Seen(before: seq<Option<Commit>>, after: seq<Option<Commit>>): set<Option<Commit>>
    requires before <= after
  {
    set x | x in after[|before|..]
  }

  /** Execute an approved publication.  First a read-back; then, only under the configuration and source
      of the preview, a publication.  Whatever the repository answers, the step recorded is truthful. */
  method ExecutePublication(service: OperationService, remote: Publish.Remote, i: nat, credentials: bool,
                            sourceChanged: bool, builds: bool, ready: bool, note: string)
    returns (work: Work, pushed: bool)
    requires Inv(service.Now()) && i == Next(service.operations) < |service.operations|
    requires service.operations[i].status == Running && service.operations[i].kind == Publishing
    requires service.operations[i].preview == Some(remote.draft)
    modifies service, remote
    ensures service.Now() == Step(old(service.Now()), Event.Work(work)) && Inv(service.Now())
    ensures Publish.Leads(remote.draft, old(remote.State()), remote.State())
    ensures old(remote.seen) <= remote.seen
    ensures Truthful(old(service.Now()), Event.Work(work), Seen(old(remote.seen), remote.seen))
    ensures pushed ==> Current(old(service.Now()), old(service.operations)[i]) && !sourceChanged && credentials
  {
    hide Inv, Step, Next, Truthful, Current, WellFormed, Seen, Publish.Leads, Publish.Fulfils, Publish.ValidDraft;
    RunningDraft(service.Now(), i);
    ghost var w, seen := service.Now(), remote.seen;
    work, pushed := Attempt(remote, service.repository.url, Current(service.Now(), service.operations[i]),
                            credentials, sourceChanged, builds, ready, note);
    AttemptTruthful(w, i, work, Seen(seen, remote.seen), remote.draft);
    var worked := service.RunOne(work);
  }

  lemma AttemptTruthful(w: World, i: nat, work: Work, mains: set<Option<Commit>>, d: Draft)
    requires i == Next(w.operations) < |w.operations| && w.operations[i].preview == Some(d) && !work.Propose?
    requires work.Recovered? ==> Some(work.commit) in mains && Publish.Fulfils(work.commit.entries, d)
    requires work.Published? && work.outcome.Ok? ==>
               Some(work.outcome.value) in mains && Publish.Fulfils(work.outcome.value.entries, d)
    ensures Truthful(w, Event.Work(work), mains) && WellFormed(Event.Work(work))
  {
    hide Publish.Fulfils;
  }

  lemma RunningDraft(w: World, i: nat)
    requires Inv(w) && i < |w.operations| && w.operations[i].status == Running && w.operations[i].kind == Publishing
    ensures w.operations[i].preview.Some? && Publish.ValidDraft(w.operations[i].preview.value, w.repository.url)
  {
    hide Publish.ValidDraft, Apart;
    assert OperationOk(w.operations[i]) && PreviewOk(w, w.operations[i]);
  }

  method Attempt(remote: Publish.Remote, url: string, current: bool, credentials: bool, sourceChanged: bool,
                 builds: bool, ready: bool, note: string)
    returns (work: Work, pushed: bool)
    requires Publish.ValidDraft(remote.draft, url)
    modifies remote
    ensures Publish.Leads(remote.draft, old(remote.State()), remote.State())
    ensures old(remote.seen) <= remote.seen
    ensures pushed ==> current && !sourceChanged && credentials
    ensures !work.Propose? && (work.Published? ==> work.sourceChanged == (!current || sourceChanged))
    ensures var seen := Seen(old(remote.seen), remote.seen);
            && (work.Recovered? ==> Some(work.commit) in seen && Publish.Fulfils(work.commit.entries, remote.draft))
            && (work.Published? && work.outcome.Ok? ==>
                  Some(work.outcome.value) in seen && Publish.Fulfils(work.outcome.value.entries, remote.draft))
  {
    hide Publish.Leads, Publish.Fulfils, Publish.ValidDraft, Publish.AsDecided, Publish.Confirmable;
    pushed := false;
    ghost var start, seen := remote.State(), remote.seen;
    Publish.LeadsStill(remote.draft, start);
    if !credentials {
      return Broken(false), false;
    }
    var recovered := Publish.RecoverPreview(remote, url);
    if recovered.Err? {
      return Broken(recovered.code in CONFLICTS), false;
    }
    if recovered.value.Some? {
      Publish.HeldFulfils(recovered.value.value.entries, remote.draft);
      return Recovered(recovered.value.value), false;
    }
    if !current || sourceChanged {
      return Published(Err(StalePreview), true), false;
    }
    ghost var before, sofar := remote.State(), remote.seen;
    var outcome;
    outcome, pushed := Publish.PublishPreview(remote, url, builds, ready, note);
    Publish.LeadsOn(remote.draft, start, before, remote.State());
    if outcome.Ok? {
      Publish.SeenLater(seen, sofar, remote.seen, Some(outcome.value));
    }
    return Published(outcome, false), pushed;
  }
}
