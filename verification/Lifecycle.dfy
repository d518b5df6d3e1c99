/** What a request of a preview, its approval and its publication come to when nothing else interferes.

    Each step is characterised on its own; the whole cycle is their composition.
 */
module Lifecycle {
  import opened Options
  import opened Manifests
  import opened Git
  import opened Preview
  import opened Convergence
  import opened Publish
  import opened Operations
  import Remotes

  /** Is nothing of any cluster queued or running? */
  predicate Idle(w: World) {
    Next(w.operations) == |w.operations|
  }

  /** Is this the only operation that is queued or running? */
  predicate Alone(w: World, i: nat) {
    && i < |w.operations| && Active(w.operations[i])
    && forall k :: 0 <= k < |w.operations| && k != i ==> !Active(w.operations[k])
  }

  lemma AloneIsNext(w: World, i: nat)
    requires Alone(w, i)
    ensures Next(w.operations) == i
  {
  }

  // ---- one step at a time ----

  lemma Requested(w: World, cluster: nat, adopt: bool)
    requires Inv(w) && Idle(w) && Usable(w.repository)
    ensures var asked := Step(w, RequestPreview(cluster, adopt));
            && asked == World(w.repository, w.states[cluster := StateOf(w, cluster)],
                              Supersede(w.operations, cluster) + [NewPreview(w, cluster, adopt)])
            && Inv(asked) && Alone(asked, |w.operations|)
  {
    hide Inv, Usable, PublishRequested, Worked, SettingsSaved, AddressSaved;
    StepInv(w, RequestPreview(cluster, adopt));
  }

  lemma Approved(w: World, i: nat)
    requires Inv(w) && Idle(w) && Usable(w.repository)
    requires i < |w.operations| && w.operations[i].status == PreviewReady && Current(w, w.operations[i])
    ensures var o := w.operations[i].(kind := Publishing, status := Queued, approved := true);
            var approved := Step(w, Approve(i));
            && w.operations[i].preview.Some?
            && approved == w.(operations := w.operations[i := o])
            && Inv(approved) && Alone(approved, i)
  {
    hide Inv, Current, Step, PublishRequested, Next, Approvable;
    StepInv(w, Approve(i));
    ReadyHasPreview(w, i);
    MayApprove(w, i);
    ApproveStep(w, i);
  }

  lemma MayApprove(w: World, i: nat)
    requires Idle(w) && Usable(w.repository) && i < |w.operations| && Current(w, w.operations[i])
    requires w.operations[i].status == PreviewReady && w.operations[i].preview.Some?
    ensures Approvable(w, i)
    ensures forall k :: 0 <= k < |w.operations| ==> !Active(w.operations[k])
  {
  }

  lemma ApproveStep(w: World, i: nat)
    requires i < |w.operations| && Approvable(w, i)
    ensures Step(w, Approve(i))
         == w.(operations := w.operations[i := w.operations[i].(kind := Publishing, status := Queued, approved := true)])
  {
    hide Approvable, PreviewRequested, Worked, SettingsSaved, AddressSaved;
  }

  lemma ReadyHasPreview(w: World, i: nat)
    requires Inv(w) && i < |w.operations| && w.operations[i].status == PreviewReady
    ensures w.operations[i].preview.Some? && w.operations[i].kind == Previewing
  {
    hide PreviewOk, Apart;
    assert OperationOk(w.operations[i]);
  }

  lemma Claimed(w: World, i: nat, claim: Work)
    requires Inv(w) && Alone(w, i) && w.operations[i].status == Queued
    ensures var claimed := Step(w, Event.Work(claim));
            && claimed == w.(operations := w.operations[i := w.operations[i].(status := Running)])
            && Inv(claimed) && Alone(claimed, i)
  {
    hide Inv, Executed, PreviewRequested, PublishRequested, SettingsSaved, AddressSaved;
    AloneIsNext(w, i);
    StepInv(w, Event.Work(Broken(false)));
  }

  lemma Proposed(w: World, i: nat, propose: Work)
    requires Inv(w) && Alone(w, i) && w.operations[i].status == Running && w.operations[i].kind == Previewing
    requires Current(w, w.operations[i]) && propose.Propose? && WellFormed(Event.Work(propose))
    requires PreparedBy(w, w.operations[i].cluster, w.operations[i].adopt, propose).Ok?
    ensures var o := w.operations[i];
            var ready := Step(w, Event.Work(propose));
            && ready == w.(operations := w.operations[i := o.(status := PreviewReady,
                             preview := Some(PreparedBy(w, o.cluster, o.adopt, propose).value))])
            && Inv(ready) && Idle(ready)
  {
    hide Inv, Step, Executed, Prepare, WellFormed, Current, PreparedBy, Idle;
    ExecuteStep(w, i, propose);
    StepInv(w, Event.Work(propose));
    ProposeExecuted(w, i, propose);
    NowIdle(w, i, Executed(w, i, propose));
  }

  lemma ExecuteStep(w: World, i: nat, work: Work)
    requires Alone(w, i) && w.operations[i].status == Running
    ensures Step(w, Event.Work(work)) == Executed(w, i, work)
  {
    hide Executed, PreviewRequested, PublishRequested, SettingsSaved, AddressSaved;
    AloneIsNext(w, i);
  }

  lemma ProposeExecuted(w: World, i: nat, propose: Work)
    requires i < |w.operations| && w.operations[i].kind == Previewing && Current(w, w.operations[i]) && propose.Propose?
    requires PreparedBy(w, w.operations[i].cluster, w.operations[i].adopt, propose).Ok?
    ensures var o := w.operations[i];
            Executed(w, i, propose)
            == w.(operations := w.operations[i := o.(status := PreviewReady,
                      preview := Some(PreparedBy(w, o.cluster, o.adopt, propose).value))])
  {
    hide Prepare, Current, StateOf;
  }

  lemma PublishExecuted(w: World, i: nat, commit: Commit)
    requires i < |w.operations| && w.operations[i].kind == Publishing && Current(w, w.operations[i])
    requires w.operations[i].preview.Some?
    ensures Executed(w, i, Published(Ok(commit), false)) == Recorded(w, i, commit)
  {
    hide Prepare, Current, Recorded;
  }

  lemma NowIdle(w: World, i: nat, after: World)
    requires Alone(w, i) && |after.operations| == |w.operations| && !Active(after.operations[i])
    requires forall k :: 0 <= k < |w.operations| && k != i ==> after.operations[k] == w.operations[k]
    ensures Idle(after)
  {
  }

  lemma Carried(w: World, i: nat, commit: Commit)
    requires Inv(w) && Alone(w, i) && w.operations[i].status == Running && w.operations[i].kind == Publishing
    requires Current(w, w.operations[i])
    ensures var done := Step(w, Event.Work(Published(Ok(commit), false)));
            && done == Recorded(w, i, commit) && w.operations[i].preview.Some?
            && done.operations == w.operations[i := w.operations[i].(status := Succeeded, result := Some(commit))]
            && Inv(done) && Idle(done)
  {
    hide Inv, Step, Executed, Recorded, Current, Idle, Validate, StateOf;
    ExecuteStep(w, i, Published(Ok(commit), false));
    StepInv(w, Event.Work(Published(Ok(commit), false)));
    RecordingSettles(w, i, commit);
    RecordedOperations(w, i, commit);
    PublishExecuted(w, i, commit);
    NowIdle(w, i, Recorded(w, i, commit));
  }

  lemma RecordedOperations(w: World, i: nat, commit: Commit)
    requires i < |w.operations| && w.operations[i].preview.Some?
    requires var d := w.operations[i].preview.value; Validate(d.files, d.repo, d.bases).Accepted?
    ensures Recorded(w, i, commit).operations
         == w.operations[i := w.operations[i].(status := Succeeded, result := Some(commit))]
  {
    hide Validate;
  }

  // ---- the cycle ----

  /** A preview is requested, claimed, and prepared from a proposal. */
  function Previewed(w: World, cluster: nat, adopt: bool, claim: Work, propose: Work): World {
    Step(Step(Step(w, RequestPreview(cluster, adopt)), Event.Work(claim)), Event.Work(propose))
  }

  /** An operation is approved, claimed, and published. */
  function Finished(w: World, i: nat, claim: Work, commit: Commit): World {
    Step(Step(Step(w, Approve(i)), Event.Work(claim)), Event.Work(Published(Ok(commit), false)))
  }

  /** A requested preview that a worker claims and prepares from an unchanged configuration is stored
      as it was prepared; an older ready one is superseded. */
  lemma PreviewBecomesReady(w: World, cluster: nat, adopt: bool, claim: Work, propose: Work)
    requires Inv(w) && Idle(w) && Usable(w.repository)
    requires propose.Propose? && WellFormed(Event.Work(propose)) && PreparedBy(w, cluster, adopt, propose).Ok?
    ensures var ready := Previewed(w, cluster, adopt, claim, propose);
            && Inv(ready) && Idle(ready)
            && ready.repository == w.repository && StateOf(ready, cluster) == StateOf(w, cluster)
            && |ready.operations| == |w.operations| + 1
            && ready.operations[|w.operations|]
               == NewPreview(w, cluster, adopt).(status := PreviewReady,
                                                 preview := Some(PreparedBy(w, cluster, adopt, propose).value))
            && forall k :: 0 <= k < |w.operations| ==> ready.operations[k] == Retired(w.operations[k], cluster)
  {
    hide Step, Prepare, Inv, Idle, Alone, WellFormed, Next;
    var n := |w.operations|;
    Requested(w, cluster, adopt);
    var asked := Step(w, RequestPreview(cluster, adopt));
    Claimed(asked, n, claim);
    Proposed(Step(asked, Event.Work(claim)), n, propose);
  }

  /** A ready preview of the current configuration that is approved, and published by the worker that
      claims it, ends as a success that holds its commit; what it published is the next baseline. */
  lemma ApprovedIsRecorded(w: World, i: nat, claim: Work, commit: Commit)
    requires Inv(w) && Idle(w) && Usable(w.repository)
    requires i < |w.operations| && w.operations[i].status == PreviewReady && Current(w, w.operations[i])
    ensures var o := w.operations[i];
            var done := Finished(w, i, claim, commit);
            && Inv(done) && Idle(done) && done.repository == w.repository
            && o.preview.Some? && var d := o.preview.value;
            && Validate(d.files, d.repo, d.bases).Accepted?
            && done.operations == w.operations[i := o.(kind := Publishing, approved := true, status := Succeeded,
                                                       result := Some(commit))]
            && StateOf(done, o.cluster).baseline == d.files
            && StateOf(done, o.cluster).lastCommit == Some(commit)
            && StateOf(done, o.cluster).contact == Some(Validate(d.files, d.repo, d.bases).inputs.contact)
  {
    hide Step, Validate, Inv, Idle, Recorded, Next, Usable;
    Approved(w, i);
    var approved := Step(w, Approve(i));
    Claimed(approved, i, claim);
    var claimed := Step(approved, Event.Work(claim));
    Carried(claimed, i, commit);
    RecordingSettles(claimed, i, commit);
  }

  /** The whole cycle converges.  A cluster is previewed from a whole generated tree, approved, and
      published as the commit a publication makes; its contact is then the published one.  A preview
      of the tree generated with that contact, on the branch as it was left, has nothing to do. */
  lemma CycleConverges(w: World, cluster: nat, adopt: bool, claim: Work, propose: Work, note: string,
                       e: Inputs, order: seq<Path>, again: bool)
    requires Inv(w) && Idle(w) && Usable(w.repository)
    requires propose.Propose? && WellFormed(Event.Work(propose)) && PreparedBy(w, cluster, adopt, propose).Ok?
    requires Validate(propose.files, w.repository.url, propose.settings.bases).Accepted? ==>
               propose.files.Keys
               == KnownPaths(Validate(propose.files, w.repository.url, propose.settings.bases).inputs.slug)
    requires var d := PreparedBy(w, cluster, adopt, propose).value;
             Validate(d.files, d.repo, d.bases) == Accepted(e)
    requires RenderTree(w.repository.url, propose.settings.bases, e).Some? ==>
               forall p :: p in order <==> p in RenderTree(w.repository.url, propose.settings.bases, e).value
    ensures RenderTree(w.repository.url, propose.settings.bases, e).Some?
    ensures var main := Some(Remotes.Candidate(PreparedBy(w, cluster, adopt, propose).value, note));
            var done := Finished(Previewed(w, cluster, adopt, claim, propose), |w.operations|, claim, main.value);
            var next := Propose(RenderTree(w.repository.url, propose.settings.bases, e).value, order,
                                propose.settings, main, true, main);
            var settled := Previewed(done, cluster, again, claim, next);
            && StateOf(done, cluster).contact == Some(e.contact)
            && |settled.operations| == |w.operations| + 2
            && settled.operations[|w.operations| + 1].status == PreviewReady
            && settled.operations[|w.operations| + 1].preview.Some?
            && settled.operations[|w.operations| + 1].preview.value.action == Noop
            && settled.operations[|w.operations| + 1].preview.value.diff == {}
  {
    hide Inv, Idle, Prepare, Validate, Previewed, Finished, RenderTree, Remotes.Candidate, KnownPaths;
    var q := RequestOf(w, cluster, adopt, propose);
    PublishedThenNoop(q, propose.head, propose.built, propose.later, e, order, again, note);
    PreviewBecomesReady(w, cluster, adopt, claim, propose);
    var ready := Previewed(w, cluster, adopt, claim, propose);
    var main := Some(Remotes.Candidate(PreparedBy(w, cluster, adopt, propose).value, note));
    ApprovedIsRecorded(ready, |w.operations|, claim, main.value);
    var done := Finished(ready, |w.operations|, claim, main.value);
    var next := Propose(RenderTree(w.repository.url, propose.settings.bases, e).value, order,
                        propose.settings, main, true, main);
    PreviewBecomesReady(done, cluster, again, claim, next);
  }
}
