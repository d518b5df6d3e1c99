/** Publishing an approved preview to a remote that other writers also advance.

    Every access to the remote may be preceded by any moves of the world, and may go unanswered.
    Git transport, builds with the bases and source readiness are given answers.
 */
module Publish {
  import opened Options
  import opened Manifests
  import opened Recognition
  import opened Git
  import opened Preview
  import opened Convergence
  import opened Remotes

  // ---- when main holds what was approved ----

  /** The publisher's own validation of a stored preview. */
  ghost predicate ValidDraft(d: Draft, repo: string) {
    && d.repo == repo && CheckPaths(d.files) == Cluster(d.slug)
    && Validate(d.files, repo, d.bases).Accepted?
    && d.observed.Keys == d.files.Keys + {Gitmodules}
    && (d.observedBases == None || d.observedBases == Some(d.revision))
  }

  /** The preview brings the submodule configuration where the repository has none. */
  predicate Complete(d: Draft) {
    d.observedBases.None? ==> Gitmodules in d.files
  }

  /** Every preview that preparation returns passes that validation. */
  lemma PreparedIsValid(q: Request, head: Option<Commit>, built: bool, later: Option<Commit>)
    requires Prepare(q, head, built, later).Ok? && Listed(q)
    ensures ValidDraft(Prepare(q, head, built, later).value, q.repo)
    ensures Gitmodules in q.files ==> Complete(Prepare(q, head, built, later).value)
  {
    hide Prepare, Validate, MergeTrees, SidesOf, YamlPaths, CheckPaths, Safe, Approved, DraftOf, ExistingBases,
         RenderTree, Matches;
    var d := Prepare(q, head, built, later).value;
    var i, e, pin, merged := Prepared(q, head, built, later);
    DraftIsValid(q, i, e, EntriesAt(head), merged);
    DraftFields(q, i, e, head, pin, merged);
    AcceptedIff(d.files, q.repo, q.settings.bases, e);
  }

  lemma DraftFields(q: Request, i: Inputs, e: Inputs, head: Option<Commit>, pin: Option<string>, merged: Merged)
    requires pin.Some? || q.settings.revision.Some?
    requires ExistingBases(EntriesAt(head), q.settings.bases) == Ok(pin)
    ensures var d := DraftOf(q, i, e, head, pin, merged);
            && d.repo == q.repo && d.slug == i.slug && d.bases == q.settings.bases
            && d.files == Approved(q, i, e, merged.files.Keys, EntriesAt(head))
            && d.observed.Keys == d.files.Keys + {Gitmodules}
            && d.observedBases == pin && (pin == None || pin == Some(d.revision))
            && (Gitmodules in q.files ==> Complete(d))
            && d.head == head && d.observed == Observed(EntriesAt(head), d.files.Keys + {Gitmodules})
            && var current := SidesOf(q, i, EntriesAt(head)).current;
               && d.action == ActionOf(head, merged.adopting, Rewrites(EntriesAt(head), current, d.files) || pin.None?, current)
               && d.diff == Diff(current, d.files) && d.formatting == Formatting(current, d.files)
  {
    hide SidesOf, Diff, Formatting, Rewrites, RenderFile;
  }

  /** Does a tree hold the approved manifests and bases?  The exact form compares text. */
  function MatchesDraft(entries: Entries, d: Draft, exact: bool): (r: Outcome<bool>)
    ensures r.Err? ==> r.code == Unsafe
  {
    match ExistingBases(entries, d.bases)
    case Err(code) => Err(code)
    case Ok(pin) => Ok(pin == Some(d.revision) && forall p | p in d.files :: MatchesFile(entries, d, exact, p))
  }

  predicate MatchesFile(entries: Entries, d: Draft, exact: bool, p: Path)
    requires p in d.files
  {
    if IsReadme(p) then exact ==> p in entries
    else if p == Gitmodules then p in entries
    else
      && p in entries && entries[p].Blob?
      && if exact then entries[p].content == d.files[p]
         else Semantic(entries[p].content).Some? && Semantic(entries[p].content) == Semantic(d.files[p])
  }

  /** A match is exactly the approved state being held; an exact match implies it. */
  lemma MatchesMeaning(entries: Entries, d: Draft, repo: string)
    requires ValidDraft(d, repo)
    ensures MatchesDraft(entries, d, false) == Ok(true) <==> Holds(entries, d)
    ensures MatchesDraft(entries, d, true) == Ok(true) ==> Holds(entries, d)
  {
    hide Validate, CheckPaths, Semantic;
    DraftSemantics(d, repo);
    forall p | p in d.files ensures !IsReadme(p) && p != Gitmodules ==> IsYaml(p) {
      DraftPath(d, repo, p);
    }
  }

  lemma DraftPath(d: Draft, repo: string, p: Path)
    requires ValidDraft(d, repo) && p in d.files
    ensures p in KnownPaths(d.slug)
    ensures !IsReadme(p) && p != Gitmodules ==> IsYaml(p)
  {
    hide Validate, YamlPaths, KnownPaths, CheckPaths;
    CheckedPaths(d.files);
    YamlPathsMeaning(d.slug, p);
  }

  lemma DraftSemantics(d: Draft, repo: string)
    requires ValidDraft(d, repo)
    ensures forall p | p in d.files :: IsYaml(p) ==> Semantic(d.files[p]).Some?
    ensures Gitmodules in d.files ==> d.files[Gitmodules] == Modules(d.bases, "")
  {
    hide CheckPaths, Semantic, RenderTree, RenderFile, KnownPaths;
    var e := Validate(d.files, repo, d.bases).inputs;
    hide Validate;
    AcceptedIff(d.files, repo, d.bases, e);
    RenderedKeys(repo, d.bases, e);
    ModulesFile(repo, d.bases, e);
  }

  lemma ModulesFile(repo: string, bases: string, e: Inputs)
    ensures RenderFile(repo, bases, e, Gitmodules) == Modules(bases, "")
  {
  }

  /** A tree that carries every approved manifest in meaning, and the approved bases pin. */
  ghost predicate Carries(entries: Entries, d: Draft) {
    && Bases in entries && entries[Bases] == Link(d.revision)
    && forall p | p in d.files && IsYaml(p) ::
         p in entries && entries[p].Blob? && Semantic(entries[p].content).Some?
         && Semantic(entries[p].content) == Semantic(d.files[p])
  }

  /** What a publication answers for: a safe tree that carries what was approved, and holds it whenever
      the preview brings the submodule configuration the repository lacks. */
  ghost predicate Fulfils(entries: Entries, d: Draft) {
    Safe(entries, d.slug) && Carries(entries, d) && (Complete(d) ==> Holds(entries, d))
  }

  lemma HeldFulfils(entries: Entries, d: Draft)
    ensures Safe(entries, d.slug) && Holds(entries, d) ==> Fulfils(entries, d)
  {
    hide Safe, Semantic;
  }

  /** What a publication commits carries what was approved and stays safe to manage; and it holds it
      exactly when the preview brings the submodule configuration, or the repository has it. */
  lemma BuiltHolds(d: Draft, repo: string)
    requires ValidDraft(d, repo)
    requires Safe(EntriesAt(d.head), d.slug)
    requires ExistingBases(EntriesAt(d.head), d.bases) == Ok(d.observedBases)
    ensures Fulfils(Built(d), d)
    ensures Holds(Built(d), d) <==> Complete(d)
  {
    hide ValidDraft, Semantic, KnownPaths, YamlPaths, Safe;
    DraftSemantics(d, repo);
    forall p | p in d.files
      ensures p != Bases && p !in Ancestors(d.slug)
      ensures IsYaml(p) ==> !IsReadme(p) && p != Gitmodules
    {
      hide KnownPaths, YamlPaths;
      DraftPath(d, repo, p);
      YamlPathsMeaning(d.slug, p);
    }
    BuiltSafe(d);
  }

  lemma BuiltSafe(d: Draft)
    requires Safe(EntriesAt(d.head), d.slug)
    requires forall p | p in d.files :: p != Bases && p !in Ancestors(d.slug)
    ensures Safe(Built(d), d.slug)
  {
    hide KnownPaths;
    var entries := EntriesAt(d.head);
    forall p | p in Built(d) ensures p == Bases <==> Built(d)[p].Link? {
    }
    BasesUnmanaged(d.slug);
  }

  lemma BasesUnmanaged(slug: string)
    ensures Bases !in KnownPaths(slug) && Bases !in Ancestors(slug)
  {
    hide YamlPaths;
    YamlPathsMeaning(slug, Bases);
  }

  // ---- the remote ----

  ghost predicate Leads(d: Draft, before: World, after: World) {
    exists moves :: Run(d, before, moves) == after
  }

  lemma LeadsOn(d: Draft, a: World, b: World, c: World)
    requires Leads(d, a, b) && Leads(d, b, c)
    ensures Leads(d, a, c)
  {
    var x :| Run(d, a, x) == b;
    var y :| Run(d, b, y) == c;
    RunConcat(d, a, x, y);
  }

  /** Whatever the call and the world did, nothing main held is lost and a preview is accepted once. */
  lemma LeadsKeeps(d: Draft, a: World, b: World)
    requires Leads(d, a, b)
    ensures forall c :: Holding(a, c) ==> Holding(b, c)
    ensures Inv(d, a) ==> Inv(d, b)
  {
    var moves :| Run(d, a, moves) == b;
    forall c | Holding(a, c) ensures Holding(b, c) {
      RunKeeps(d, a, moves, c);
    }
    if Inv(d, a) {
      RunInv(d, a, moves);
    }
  }

  /** A remote as one worker meets it: `env(n)` is what happens to it before the n-th access, and
      `answers(n)` whether that access is answered. */
  class Remote {
    const draft: Draft
    const env: nat -> seq<Move>
    const answers: nat -> bool
    var main: Option<Commit>
    var inflight: set<Commit>
    var clock: nat
    ghost var seen: seq<Option<Commit>>

    constructor (draft: Draft, env: nat -> seq<Move>, answers: nat -> bool, main: Option<Commit>)
      ensures this.draft == draft && State() == World(main, {}) && seen == []
    {
      this.draft, this.env, this.answers, this.main := draft, env, answers, main;
      this.inflight, this.clock, this.seen := {}, 0, [];
    }

    ghost function State(): World
      reads this
    {
      World(main, inflight)
    }

    /** Nothing happens before some accesses, and they are answered. */
    ghost predicate Quiet(from: nat, to: nat) {
      forall k :: from <= k < to ==> env(k) == [] && answers(k)
    }

    /** Every access of a stretch was answered. */
    ghost predicate Heard(from: nat, to: nat) {
      forall k :: from <= k < to ==> answers(k)
    }

    lemma HeardOn(from: nat, middle: nat, to: nat)
      requires from <= middle <= to
      ensures Heard(from, to) <==> Heard(from, middle) && Heard(middle, to)
    {
    }

    lemma HeardNothing(at: nat)
      ensures Heard(at, at)
    {
    }

    /** The world moves on, and main is observed. */
    method Elapse() returns (answered: bool)
      modifies this
      ensures State() == Run(draft, old(State()), env(old(clock)))
      ensures Leads(draft, old(State()), State())
      ensures clock == old(clock) + 1 && answered == answers(old(clock))
      ensures seen == old(seen) + [main]
    {
      var world := Run(draft, World(main, inflight), env(clock));
      main, inflight := world.main, world.inflight;
      answered := answers(clock);
      clock := clock + 1;
      seen := seen + [main];
    }

    /** Ask for the main branch. */
    method Head() returns (r: Outcome<Option<Commit>>)
      modifies this
      ensures Leads(draft, old(State()), State())
      ensures seen == old(seen) + [main] && clock == old(clock) + 1
      ensures r.Ok? ==> r.value == main
      ensures r == Err(Unavailable) || r.Ok?
      ensures r.Ok? <==> Heard(old(clock), clock)
      ensures Quiet(old(clock), clock) ==> State() == old(State()) && r == Ok(main)
    {
      var answered := Elapse();
      r := if answered then Ok(main) else Err(Unavailable);
    }

    /** Push a candidate.  It may be accepted now, later or never, answered or not. */
    method Push(note: string) returns (answered: bool)
      modifies this
      ensures Leads(draft, old(State()), State())
      ensures seen == old(seen) + [main] && clock == old(clock) + 1
      ensures FastForward(old(main), Candidate(draft, note)) && env(old(clock)) == [Land(Candidate(draft, note))] ==>
                main == Some(Candidate(draft, note))
      ensures answered == answers(old(clock))
    {
      ghost var before := State();
      inflight := inflight + {Candidate(draft, note)};
      assert [Move.Send(note)][..0] == [];
      assert Run(draft, before, [Move.Send(note)]) == State();
      ghost var sent := State();
      answered := Elapse();
      LeadsOn(draft, before, sent, State());
      ghost var landing := [Land(Candidate(draft, note))];
      assert landing[..|landing| - 1] == [];
      assert Run(draft, sent, landing) == Apply(draft, sent, Land(Candidate(draft, note)));
    }
  }

  // ---- the publisher ----

  /** Clone the customer's repository: the branch read first must be the branch cloned. */
  method Open(remote: Remote) returns (r: Outcome<Option<Commit>>)
    modifies remote
    ensures Leads(remote.draft, old(remote.State()), remote.State())
    ensures old(remote.seen) <= remote.seen && old(remote.clock) <= remote.clock <= old(remote.clock) + 2
    ensures r.Ok? ==> r.value == remote.main && r.value in remote.seen[|old(remote.seen)|..]
    ensures r.Ok? || r.code == Unavailable || r.code == StalePreview
    ensures r == Err(Unavailable) <==> !remote.Heard(old(remote.clock), remote.clock)
    ensures remote.Quiet(old(remote.clock), old(remote.clock) + 2) ==>
              r == Ok(old(remote.main)) && remote.State() == old(remote.State()) && remote.clock == old(remote.clock) + 2
  {
    hide Run, Leads;
    ghost var start := remote.State();
    var expected := remote.Head();
    if expected.Err? {
      return expected;
    }
    ghost var middle := remote.State();
    var actual := remote.Head();
    LeadsOn(remote.draft, start, middle, remote.State());
    if actual.Ok? && actual.value != expected.value {
      return Err(StalePreview);
    }
    assert remote.seen[|remote.seen| - 1] == remote.main;
    return actual;
  }

  lemma HeldConfirmable(head: Commit, d: Draft)
    ensures Confirmable(Some(head), d, None) <==> Safe(head.entries, d.slug) && Holds(head.entries, d)
    ensures Confirmable(Some(head), d, Some(head))
  {
    hide Safe, Holds;
  }

  /** A main branch that confirmation should accept. */
  ghost predicate Confirmable(main: Option<Commit>, d: Draft, candidate: Option<Commit>) {
    main.Some? && (main == candidate || (Safe(main.value.entries, d.slug) && Holds(main.value.entries, d)))
  }

  datatype Look = Confirmed(commit: Commit) | Again | GaveUp(code: Code)

  /** One attempt at confirmation: main is the candidate, or it holds the approved state both before
      and after it was inspected. */
  method ConfirmOnce(remote: Remote, repo: string, candidate: Option<Commit>) returns (r: Look)
    requires ValidDraft(remote.draft, repo)
    modifies remote
    ensures Leads(remote.draft, old(remote.State()), remote.State())
    ensures old(remote.seen) <= remote.seen && old(remote.clock) <= remote.clock <= old(remote.clock) + 3
    ensures Confirmable(old(remote.main), remote.draft, candidate)
            && remote.Quiet(old(remote.clock), old(remote.clock) + 3) ==>
              r == Confirmed(old(remote.main).value) && remote.main == old(remote.main)
    ensures r.Confirmed? ==> Some(r.commit) in remote.seen[|old(remote.seen)|..]
    ensures r == GaveUp(Unavailable) <==> !remote.Heard(old(remote.clock), remote.clock)
    ensures r.GaveUp? ==> r.code in {Unavailable, Unconfirmed, StalePreview, Unsafe}
    ensures r.Confirmed? ==>
              Some(r.commit) == candidate
              || (Safe(r.commit.entries, remote.draft.slug) && Holds(r.commit.entries, remote.draft))
  {
    hide Run, Leads, Safe, Holds, ValidDraft, MatchesDraft, IsCandidate;
    var d := remote.draft;
    ghost var start := remote.State();
    var current := remote.Head();
    if current.Err? {
      return GaveUp(current.code);
    }
    if current.value.None? {
      return GaveUp(Unconfirmed);
    }
    if current.value == candidate {
      assert remote.seen[|remote.seen| - 1] == candidate;
      return Confirmed(current.value.value);
    }
    ghost var middle := remote.State();
    var fetched := remote.Head();
    LeadsOn(d, start, middle, remote.State());
    if fetched.Err? {
      return GaveUp(fetched.code);
    }
    if fetched.value.None? {
      return GaveUp(StalePreview);
    }
    var head := fetched.value.value;
    if !Safe(head.entries, d.slug) {
      return GaveUp(Unsafe);
    }
    var matched := MatchesDraft(head.entries, d, false);
    MatchesMeaning(head.entries, d, repo);
    if matched.Err? {
      return GaveUp(matched.code);
    }
    if !matched.value {
      return GaveUp(Unconfirmed);
    }
    ghost var inspected := remote.State();
    var after := remote.Head();
    LeadsOn(d, start, inspected, remote.State());
    if after.Err? {
      return GaveUp(after.code);
    }
    if after.value == Some(head) {
      assert remote.seen[|remote.seen| - 1] == Some(head);
      return Confirmed(head);
    }
    return Again;
  }

  /** Confirmation, in at most three attempts.  Whatever it returns was the main branch at some moment
      of the call, and is the candidate or holds the approved state. */
  method Confirm(remote: Remote, repo: string, candidate: Option<Commit>) returns (r: Outcome<Commit>)
    requires ValidDraft(remote.draft, repo)
    modifies remote
    ensures Leads(remote.draft, old(remote.State()), remote.State())
    ensures old(remote.seen) <= remote.seen && old(remote.clock) <= remote.clock
    ensures Confirmable(old(remote.main), remote.draft, candidate)
            && remote.Quiet(old(remote.clock), old(remote.clock) + 3) ==>
              r == Ok(old(remote.main).value) && remote.main == old(remote.main)
    ensures r.Ok? ==> Some(r.value) in remote.seen[|old(remote.seen)|..]
    ensures r == Err(Unavailable) <==> !remote.Heard(old(remote.clock), remote.clock)
    ensures r.Err? ==> r.code in {Unavailable, Unconfirmed, StalePreview, Unsafe}
    ensures r.Ok? ==>
              Some(r.value) == candidate
              || (Safe(r.value.entries, remote.draft.slug) && Holds(r.value.entries, remote.draft))
  {
    hide Run, Leads, Safe, Holds, ValidDraft, Confirmable, Remote.Quiet, Remote.Heard;
    LeadsStill(remote.draft, remote.State());
    remote.HeardNothing(remote.clock);
    ghost var start, seen := remote.State(), remote.seen;
    for tries := 0 to 3
      invariant Leads(remote.draft, start, remote.State())
      invariant seen <= remote.seen && old(remote.clock) <= remote.clock
      invariant remote.Heard(old(remote.clock), remote.clock)
      invariant (Confirmable(old(remote.main), remote.draft, candidate)
                 && remote.Quiet(old(remote.clock), old(remote.clock) + 3)) ==>
                  tries == 0 && remote.clock == old(remote.clock) && remote.State() == start
    {
      ghost var before, sofar, tick := remote.State(), remote.seen, remote.clock;
      var look := ConfirmOnce(remote, repo, candidate);
      LeadsOn(remote.draft, start, before, remote.State());
      remote.HeardOn(old(remote.clock), tick, remote.clock);
      match look {
        case Confirmed(commit) =>
          SeenLater(seen, sofar, remote.seen, Some(commit));
          return Ok(commit);
        case GaveUp(code) => return Err(code);
        case Again =>
      }
    }
    return Err(Unconfirmed);
  }

  lemma SeenLater<T>(a: seq<T>, b: seq<T>, c: seq<T>, x: T)
    requires a <= b <= c && x in c[|b|..]
    ensures x in c[|a|..]
  {
    var k :| 0 <= k < |c| - |b| && c[|b|..][k] == x;
    assert c[|a|..][|b| - |a| + k] == x;
  }

  /** The error of a repository that moved since the preview. */
  function Conflict(entries: Entries, d: Draft): Code {
    if (exists p | p in d.observed :: !IsReadme(p) && Lookup(entries, p) != d.observed[p])
       || PinnedAt(entries) != d.observedBases
    then ManualConflict else StalePreview
  }

  function PinnedAt(entries: Entries): Option<string> {
    if Bases in entries && entries[Bases].Link? then Some(entries[Bases].revision) else None
  }

  /** Read an approved state back without writing anything.  Undisturbed, it finds the approved state
      exactly when main holds it; it raises exactly when some access goes unanswered. */
  method RecoverPreview(remote: Remote, repo: string) returns (r: Outcome<Option<Commit>>)
    requires ValidDraft(remote.draft, repo)
    modifies remote
    ensures Leads(remote.draft, old(remote.State()), remote.State())
    ensures old(remote.seen) <= remote.seen
    ensures r.Ok? && r.value.Some? ==>
              r.value in remote.seen[|old(remote.seen)|..]
              && Safe(r.value.value.entries, remote.draft.slug) && Holds(r.value.value.entries, remote.draft)
    ensures r.Err? ==> r.code == Unavailable
    ensures r.Err? <==> !remote.Heard(old(remote.clock), remote.clock)
    ensures remote.Quiet(old(remote.clock), old(remote.clock) + 5) ==>
              r == Ok(if Confirmable(old(remote.main), remote.draft, None) then old(remote.main) else None)
  {
    hide Run, Leads, Safe, Holds, ValidDraft;
    var d := remote.draft;
    ghost var start, seen := remote.State(), remote.seen;
    var clone := Open(remote);
    if clone.Err? {
      return if clone.code == StalePreview then Ok(None) else Err(clone.code);
    }
    if clone.value.None? {
      return Ok(None);
    }
    ghost var before, sofar, tick := remote.State(), remote.seen, remote.clock;
    r := RecoverHead(remote, repo, clone.value.value);
    LeadsOn(d, start, before, remote.State());
    remote.HeardOn(old(remote.clock), tick, remote.clock);
    if r.Ok? && r.value.Some? {
      SeenLater(seen, sofar, remote.seen, r.value);
    }
  }

  method RecoverHead(remote: Remote, repo: string, head: Commit) returns (r: Outcome<Option<Commit>>)
    requires ValidDraft(remote.draft, repo)
    modifies remote
    ensures Leads(remote.draft, old(remote.State()), remote.State())
    ensures old(remote.seen) <= remote.seen
    ensures r.Ok? && r.value.Some? ==>
              r.value in remote.seen[|old(remote.seen)|..]
              && Safe(r.value.value.entries, remote.draft.slug) && Holds(r.value.value.entries, remote.draft)
    ensures r.Err? ==> r.code == Unavailable
    ensures old(remote.clock) <= remote.clock
    ensures r.Err? <==> !remote.Heard(old(remote.clock), remote.clock)
    ensures remote.Quiet(old(remote.clock), old(remote.clock) + 3) && old(remote.main) == Some(head) ==>
              r == Ok(if Confirmable(Some(head), remote.draft, None) then Some(head) else None)
  {
    hide *;
    LeadsStill(remote.draft, remote.State());
    remote.HeardNothing(remote.clock);
    MatchesMeaning(head.entries, remote.draft, repo);
    HeldConfirmable(head, remote.draft);
    if !Safe(head.entries, remote.draft.slug) {
      return Ok(None);
    }
    var matched := MatchesDraft(head.entries, remote.draft, false);
    if matched.Err? || !matched.value {
      return Ok(None);
    }
    var confirmed := Confirm(remote, repo, Some(head));
    match confirmed {
      case Ok(commit) => return Ok(Some(commit));
      case Err(code) =>
        return if code == Unsafe || code == BadManifests || code == StalePreview || code == Unconfirmed
               then Ok(None) else Err(code);
    }
  }

  lemma LeadsStill(d: Draft, w: World)
    ensures Leads(d, w, w)
  {
    assert Run(d, w, []) == w;
  }

  /** How a publication went on after the repository was read. */
  datatype Plan = Retry(head: Commit) | Proceed | Stop(code: Code)

  /** What to do about the repository as it was read. */
  function Decide(d: Draft, head: Option<Commit>): Plan {
    var entries := EntriesAt(head);
    if !Safe(entries, d.slug) then Stop(Unsafe)
    else
      var matched := if head.Some? then MatchesDraft(entries, d, head == d.head) else Ok(false);
      if matched.Err? then Stop(matched.code)
      else if matched.value then Retry(head.value)
      else if head != d.head then Stop(Conflict(entries, d))
      else if Observed(entries, d.observed.Keys) != d.observed then Stop(Conflict(entries, d))
      else match ExistingBases(entries, d.bases)
           case Err(code) => Stop(code)
           case Ok(pin) => if pin != d.observedBases then Stop(Conflict(entries, d)) else Proceed
  }

  /** A preview as it was prepared: it records what the head it was prepared on holds, and brings only
      those other files that are missing there. */
  ghost predicate FromHead(d: Draft) {
    var entries := EntriesAt(d.head);
    && Safe(entries, d.slug) && Observed(entries, d.observed.Keys) == d.observed
    && ExistingBases(entries, d.bases) == Ok(d.observedBases)
    && forall p | p in d.files :: !IsYaml(p) ==> p !in entries
  }

  lemma PreparedFromHead(q: Request, head: Option<Commit>, built: bool, later: Option<Commit>)
    requires Prepare(q, head, built, later).Ok? && Listed(q)
    ensures var d := Prepare(q, head, built, later).value; d.head == head && FromHead(d)
  {
    hide Prepare, Validate, MergeTrees, SidesOf, Safe, ExistingBases, DraftOf, YamlPaths, RenderFile;
    var i, e, pin, merged := Prepared(q, head, built, later);
    MergedKeys(q, i, EntriesAt(head));
    DraftFields(q, i, e, head, pin, merged);
    DraftIsValid(q, i, e, EntriesAt(head), merged);
    forall p | p in YamlPaths(i.slug) ensures IsYaml(p) {
      YamlPathsMeaning(i.slug, p);
    }
  }

  /** On the head it was prepared on, a publication writes exactly when it would change the tree, be it
      only in formatting, and otherwise finds itself done; it is never refused there. */
  lemma OwnHead(d: Draft, repo: string)
    requires ValidDraft(d, repo) && FromHead(d)
    ensures Decide(d, d.head).Proceed? <==> Built(d) != EntriesAt(d.head)
    ensures Decide(d, d.head).Retry? <==> Built(d) == EntriesAt(d.head)
    ensures Decide(d, d.head).Retry? ==> Some(Decide(d, d.head).head) == d.head
  {
    hide ValidDraft, Safe, Observed, Built, MatchesFile, Semantic, Conflict;
    var entries := EntriesAt(d.head);
    RevisionPinned(d, repo);
    forall p | p in d.files
      ensures p != Bases && (IsYaml(p) ==> !IsReadme(p) && p != Gitmodules)
      ensures IsYaml(p) || IsReadme(p) || p == Gitmodules
    {
      DraftPath(d, repo, p);
      PathKinds(d.slug, p);
    }
    BuiltIff(d);
    ExactIff(d);
  }

  lemma RevisionPinned(d: Draft, repo: string)
    requires ValidDraft(d, repo)
    ensures d.observedBases == None || d.observedBases == Some(d.revision)
  {
    hide Validate, CheckPaths;
  }

  /** A commit leaves the tree as it was exactly when it holds every file to the letter, and the pin. */
  lemma BuiltIff(d: Draft)
    requires forall p | p in d.files :: p != Bases && (IsYaml(p) ==> !IsReadme(p) && p != Gitmodules)
    requires forall p | p in d.files :: !IsYaml(p) ==> p !in EntriesAt(d.head)
    ensures var entries := EntriesAt(d.head);
            Built(d) == entries
            <==> Bases in entries && entries[Bases] == Link(d.revision)
                 && forall p | p in d.files :: IsYaml(p) && p in entries && entries[p] == Blob(d.files[p])
  {
    hide IsYaml, IsReadme;
    var entries := EntriesAt(d.head);
    if Bases in entries && entries[Bases] == Link(d.revision)
       && forall p | p in d.files :: IsYaml(p) && p in entries && entries[p] == Blob(d.files[p]) {
      assert forall p | p in Built(d) :: p in entries && Built(d)[p] == entries[p];
      assert Built(d).Keys == entries.Keys;
    }
    if Built(d) == entries {
      assert Bases in Built(d);
      forall p | p in d.files ensures IsYaml(p) && p in entries && entries[p] == Blob(d.files[p]) {
        assert p in Written(d, entries) || p in entries;
        assert p in Built(d);
      }
    }
  }

  lemma ExactIff(d: Draft)
    requires ExistingBases(EntriesAt(d.head), d.bases) == Ok(d.observedBases)
    requires d.observedBases == None || d.observedBases == Some(d.revision)
    requires forall p | p in d.files :: p != Bases && (IsYaml(p) ==> !IsReadme(p) && p != Gitmodules)
    requires forall p | p in d.files :: !IsYaml(p) ==> p !in EntriesAt(d.head)
    requires forall p | p in d.files :: IsYaml(p) || IsReadme(p) || p == Gitmodules
    ensures var entries := EntriesAt(d.head);
            MatchesDraft(entries, d, true)
            == Ok(Bases in entries && entries[Bases] == Link(d.revision)
                  && forall p | p in d.files :: IsYaml(p) && p in entries && entries[p] == Blob(d.files[p]))
  {
    hide IsYaml, IsReadme, Semantic;
    var entries := EntriesAt(d.head);
    PinnedEntry(entries, d.bases, d.observedBases);
    forall p | p in d.files
      ensures MatchesFile(entries, d, true, p) <==> IsYaml(p) && p in entries && entries[p] == Blob(d.files[p])
    {
    }
  }

  lemma DecideMeaning(d: Draft, repo: string, head: Option<Commit>)
    requires ValidDraft(d, repo)
    ensures Decide(d, head).Retry? ==>
              head == Some(Decide(d, head).head)
              && Safe(Decide(d, head).head.entries, d.slug) && Holds(Decide(d, head).head.entries, d)
    ensures Decide(d, head).Proceed? ==>
              head == d.head && Fulfils(Built(d), d) && (Holds(Built(d), d) <==> Complete(d))
  {
    hide ValidDraft, Safe, Holds, MatchesDraft, ExistingBases, Conflict, Observed, Complete, Built, Fulfils;
    MatchesMeaning(EntriesAt(head), d, repo);
    if Decide(d, head).Proceed? {
      BuiltHolds(d, repo);
    }
  }

  /** Publish exactly an approved preview.  A returned commit was the main branch at some moment of the
      call and carries the approved manifests and bases, whatever the push was answered.  Once a commit
      of the preview was accepted, no further one is pushed.  Undisturbed, the call does what the
      repository it finds calls for: it recovers an earlier publication, refuses a repository that has
      moved, or publishes a commit of its own; and on the head the preview was prepared on, main ends
      with the tree the preview stands for. */
  method PublishPreview(remote: Remote, repo: string, builds: bool, ready: bool, note: string)
    returns (r: Outcome<Commit>, pushed: bool)
    requires ValidDraft(remote.draft, repo)
    modifies remote
    ensures Leads(remote.draft, old(remote.State()), remote.State())
    ensures old(remote.seen) <= remote.seen
    ensures r.Ok? ==> Some(r.value) in remote.seen[|old(remote.seen)|..] && Fulfils(r.value.entries, remote.draft)
    ensures (exists c :: IsCandidate(remote.draft, c) && Holding(old(remote.State()), c)) ==> !pushed
    ensures pushed ==> remote.draft.head in remote.seen[|old(remote.seen)|..]
    ensures remote.Quiet(old(remote.clock), old(remote.clock) + 2) && builds && ready ==>
              AsDecided(remote, old(remote.main), old(remote.clock) + 2, note, r, remote.main)
    ensures FromHead(remote.draft) && old(remote.main) == remote.draft.head && builds && ready
            && Undisturbed(remote, old(remote.clock), note) ==>
              remote.main.Some? && r == Ok(remote.main.value) && remote.main.value.entries == Built(remote.draft)
  {
    hide Run, Leads, Fulfils, ValidDraft, IsCandidate, Holding, AsDecided, FromHead, Undisturbed, Built, Remote.Quiet;
    QuietPart(remote, remote.clock, note);
    ghost var start, seen := remote.State(), remote.seen;
    var clone := Open(remote);
    if clone.Err? {
      return Err(clone.code), false;
    }
    MovedOn(remote.draft, start, remote.State());
    ghost var read, sofar := remote.State(), remote.seen;
    r, pushed := PublishOn(remote, repo, clone.value, builds, ready, note);
    LeadsOn(remote.draft, start, read, remote.State());
    if pushed {
      assert remote.seen[|seen|..][|sofar| - |seen|] == remote.draft.head;
    }
    if r.Ok? {
      SeenLater(seen, sofar, remote.seen, Some(r.value));
    }
    if FromHead(remote.draft) && old(remote.main) == remote.draft.head && builds && ready
       && Undisturbed(remote, old(remote.clock), note) {
      EndsBuilt(remote, repo, old(remote.clock), note, r, remote.main);
    }
  }

  /** What an undisturbed publication comes to: the error of a repository that moved, the branch that
      already holds what was approved, or a commit of its own once its push lands. */
  ghost predicate AsDecided(remote: Remote, head: Option<Commit>, from: nat, note: string, r: Outcome<Commit>,
                            main: Option<Commit>)
  {
    match Decide(remote.draft, head)
    case Stop(code) => r == Err(code) && main == head
    case Retry(commit) => remote.Quiet(from, from + 3) ==> r == Ok(commit) && main == head
    case Proceed =>
      (remote.Quiet(from, from + 1) && remote.env(from + 1) == [Land(Candidate(remote.draft, note))]
       && remote.Quiet(from + 2, from + 5)) ==>
        r == Ok(Candidate(remote.draft, note)) && main == Some(Candidate(remote.draft, note))
  }

  /** The world leaves a call alone: nothing else happens, every access is answered, and a push that is
      made lands. */
  ghost predicate Undisturbed(remote: Remote, from: nat, note: string) {
    if Built(remote.draft) == EntriesAt(remote.draft.head) then remote.Quiet(from, from + 5)
    else remote.Quiet(from, from + 3) && remote.env(from + 3) == [Land(Candidate(remote.draft, note))]
         && remote.Quiet(from + 4, from + 7)
  }

  /** So on the head a preview was prepared on, main ends with exactly the tree it stands for. */
  lemma EndsBuilt(remote: Remote, repo: string, from: nat, note: string, r: Outcome<Commit>, main: Option<Commit>)
    requires ValidDraft(remote.draft, repo) && FromHead(remote.draft) && Undisturbed(remote, from, note)
    requires AsDecided(remote, remote.draft.head, from + 2, note, r, main)
    ensures main.Some? && r == Ok(main.value) && main.value.entries == Built(remote.draft)
  {
    hide ValidDraft, FromHead, Decide, Built;
    OwnHead(remote.draft, repo);
  }

  lemma QuietPart(remote: Remote, from: nat, note: string)
    ensures Undisturbed(remote, from, note) ==> remote.Quiet(from, from + 2)
  {
    hide Built, Candidate;
  }

  lemma StoppedAsDecided(remote: Remote, head: Option<Commit>, from: nat, note: string, r: Outcome<Commit>,
                          main: Option<Commit>)
    requires Decide(remote.draft, head).Stop? && r == Err(Decide(remote.draft, head).code) && main == head
    ensures AsDecided(remote, head, from, note, r, main)
  {
    hide Decide;
  }

  lemma RetriedAsDecided(remote: Remote, head: Option<Commit>, from: nat, note: string, r: Outcome<Commit>,
                          main: Option<Commit>)
    requires Decide(remote.draft, head).Retry?
    requires remote.Quiet(from, from + 3) ==> r == Ok(Decide(remote.draft, head).head) && main == head
    ensures AsDecided(remote, head, from, note, r, main)
  {
    hide Decide;
  }

  lemma WrittenAsDecided(remote: Remote, head: Option<Commit>, from: nat, note: string, r: Outcome<Commit>,
                          main: Option<Commit>)
    requires Decide(remote.draft, head).Proceed?
    requires (remote.Quiet(from, from + 1) && remote.env(from + 1) == [Land(Candidate(remote.draft, note))]
              && remote.Quiet(from + 2, from + 5)) ==>
               r == Ok(Candidate(remote.draft, note)) && main == Some(Candidate(remote.draft, note))
    ensures AsDecided(remote, head, from, note, r, main)
  {
    hide Decide;
  }

  /** After a commit of the preview was accepted, the branch is no longer the one it was made on. */
  lemma MovedOn(d: Draft, before: World, after: World)
    requires Leads(d, before, after)
    ensures (exists c :: IsCandidate(d, c) && Holding(before, c)) ==> after.main != d.head
  {
    hide IsCandidate, Leads;
    if c :| IsCandidate(d, c) && Holding(before, c) {
      LeadsKeeps(d, before, after);
      AcceptedMovesOn(d, after, c);
    }
  }

  lemma FirstSeenStays(a: seq<Option<Commit>>, b: seq<Option<Commit>>, c: seq<Option<Commit>>, head: Option<Commit>)
    requires b <= c && |b| > |a|
    ensures FirstSeen(a, b, head) <==> FirstSeen(a, c, head)
  {
  }

  lemma HeadConfirmable(head: Option<Commit>, d: Draft)
    ensures head.Some? ==> Confirmable(head, d, head)
  {
  }

  /** The first head a call saw. */
  ghost predicate FirstSeen(before: seq<Option<Commit>>, after: seq<Option<Commit>>, head: Option<Commit>) {
    |after| > |before| && after[|before|] == head
  }

  method PublishOn(remote: Remote, repo: string, head: Option<Commit>, builds: bool, ready: bool, note: string)
    returns (r: Outcome<Commit>, pushed: bool)
    requires ValidDraft(remote.draft, repo)
    modifies remote
    ensures Leads(remote.draft, old(remote.State()), remote.State())
    ensures old(remote.seen) <= remote.seen
    ensures r.Ok? ==> Some(r.value) in remote.seen[|old(remote.seen)|..] && Fulfils(r.value.entries, remote.draft)
    ensures pushed ==> head == remote.draft.head && FirstSeen(old(remote.seen), remote.seen, remote.draft.head)
    ensures old(remote.main) == head && builds && ready ==> AsDecided(remote, head, old(remote.clock), note, r, remote.main)
  {
    hide *;
    LeadsStill(remote.draft, remote.State());
    DecideMeaning(remote.draft, repo, head);
    HeadConfirmable(head, remote.draft);
    var plan := Decide(remote.draft, head);
    if plan.Stop? {
      if remote.main == head {
        StoppedAsDecided(remote, head, remote.clock, note, Err(plan.code), remote.main);
      }
      return Err(plan.code), false;
    }
    if !builds {
      return Err(BuildFailed), false;
    }
    if plan.Retry? {
      r := Confirm(remote, repo, Some(plan.head));
      HeldFulfils(if r.Ok? then r.value.entries else map[], remote.draft);
      if old(remote.main) == head {
        RetriedAsDecided(remote, head, old(remote.clock), note, r, remote.main);
      }
      return r, false;
    }
    if !ready {
      return Err(NotReady), false;
    }
    r, pushed := Write(remote, repo, note);
    HeldFulfils(if r.Ok? then r.value.entries else map[], remote.draft);
    if old(remote.main) == head {
      WrittenAsDecided(remote, head, old(remote.clock), note, r, remote.main);
    }
  }

  /** The expected tree with some of the written files put in. */
  ghost function Filed(d: Draft, done: set<Path>): Entries
    requires done <= d.files.Keys
  {
    EntriesAt(d.head) + map p | p in done :: Blob(d.files[p])
  }

  lemma NothingFiled(d: Draft, entries: Entries)
    requires entries == EntriesAt(d.head)
    ensures Written(d, entries) - Written(d, entries) == {} && Filed(d, {}) == entries
  {
  }

  lemma FileNext(d: Draft, all: set<Path>, rest: set<Path>, path: Path)
    requires all <= d.files.Keys && rest <= all && path in rest
    ensures Filed(d, all - (rest - {path})) == Filed(d, all - rest)[path := Blob(d.files[path])]
  {
    assert all - (rest - {path}) == (all - rest) + {path};
  }

  /** Build the commit: start from the tree of the preview's head, write each file, pin the bases. */
  method MakeCommit(d: Draft, note: string) returns (c: Commit)
    ensures c == Candidate(d, note)
  {
    var index := EntriesAt(d.head);
    var rest := Written(d, index);
    NothingFiled(d, index);
    while rest != {}
      invariant rest <= Written(d, EntriesAt(d.head))
      invariant index == Filed(d, Written(d, EntriesAt(d.head)) - rest)
    {
      var path :| path in rest;
      FileNext(d, Written(d, EntriesAt(d.head)), rest, path);
      index := index[path := Blob(d.files[path])];
      rest := rest - {path};
    }
    index := index[Bases := Link(d.revision)];
    c := Commit(if d.head.None? then [] else [d.head.value], index, note);
  }

  /** Commit, push if main still is what was read, and confirm whatever the push was answered. */
  method Write(remote: Remote, repo: string, note: string) returns (r: Outcome<Commit>, pushed: bool)
    requires ValidDraft(remote.draft, repo)
    modifies remote
    ensures Leads(remote.draft, old(remote.State()), remote.State())
    ensures old(remote.seen) <= remote.seen
    ensures r.Ok? ==> Some(r.value) in remote.seen[|old(remote.seen)|..]
    ensures pushed <==> remote.answers(old(remote.clock)) && FirstSeen(old(remote.seen), remote.seen, remote.draft.head)
    ensures r.Err? ==> r.code == if pushed && remote.answers(old(remote.clock) + 1) then Unconfirmed else PushFailed
    ensures r.Ok? ==>
              r.value.entries == Built(remote.draft)
              || (Safe(r.value.entries, remote.draft.slug) && Holds(r.value.entries, remote.draft))
    ensures old(remote.main) == remote.draft.head
            && remote.Quiet(old(remote.clock), old(remote.clock) + 1)
            && remote.env(old(remote.clock) + 1) == [Land(Candidate(remote.draft, note))]
            && remote.Quiet(old(remote.clock) + 2, old(remote.clock) + 5) ==>
              r == Ok(Candidate(remote.draft, note)) && remote.main == Some(Candidate(remote.draft, note))
  {
    hide *;
    MakesProgress(remote.draft, note);
    HeadConfirmable(Some(Candidate(remote.draft, note)), remote.draft);
    var commit := MakeCommit(remote.draft, note);
    ghost var start, seen := remote.State(), remote.seen;
    var answered;
    pushed, answered := PushIfCurrent(remote, note);
    ghost var before, sofar := remote.State(), remote.seen;
    r := Confirm(remote, repo, Some(commit));
    LeadsOn(remote.draft, start, before, remote.State());
    FirstSeenStays(seen, sofar, remote.seen, remote.draft.head);
    if r.Ok? {
      SeenLater(seen, sofar, remote.seen, Some(r.value));
    } else {
      r := Err(if answered then Unconfirmed else PushFailed);
    }
  }

  /** Push only onto the head that was read; the reply, if any, is not evidence. */
  method PushIfCurrent(remote: Remote, note: string) returns (pushed: bool, answered: bool)
    modifies remote
    ensures Leads(remote.draft, old(remote.State()), remote.State())
    ensures old(remote.seen) <= remote.seen
    ensures pushed <==> remote.answers(old(remote.clock)) && FirstSeen(old(remote.seen), remote.seen, remote.draft.head)
    ensures answered <==> pushed && remote.answers(old(remote.clock) + 1)
    ensures remote.clock == old(remote.clock) + if pushed then 2 else 1
    ensures |remote.seen| > |old(remote.seen)|
    ensures old(remote.main) == remote.draft.head
            && remote.Quiet(old(remote.clock), old(remote.clock) + 1)
            && remote.env(old(remote.clock) + 1) == [Land(Candidate(remote.draft, note))] ==>
              remote.main == Some(Candidate(remote.draft, note)) && remote.clock == old(remote.clock) + 2
  {
    MakesProgress(remote.draft, note);
    hide Run, Leads, FastForward, Candidate;
    ghost var start := remote.State();
    answered, pushed := false, false;
    var current := remote.Head();
    if current.Ok? && current.value == remote.draft.head {
      ghost var before := remote.State();
      answered := remote.Push(note);
      LeadsOn(remote.draft, start, before, remote.State());
      pushed := true;
    }
  }

  /** A commit made on the head can be pushed onto it. */
  lemma MakesProgress(d: Draft, note: string)
    ensures FastForward(d.head, Candidate(d, note)) && Candidate(d, note).entries == Built(d)
  {
    CandidateIs(d, note);
    CandidateHistory(d, Candidate(d, note));
  }

  // ---- what a publication decides ----

  /** On a branch that moved since the preview, a publication is a retry exactly when the branch holds the
      approved state, and never a write: it recovers the earlier publication or is refused. */
  lemma MovedBranch(d: Draft, repo: string, head: Option<Commit>)
    requires ValidDraft(d, repo) && head != d.head
    ensures Decide(d, head).Retry? <==> head.Some? && Safe(EntriesAt(head), d.slug) && Holds(EntriesAt(head), d)
    ensures !Decide(d, head).Proceed?
  {
    hide Safe, Holds, MatchesDraft, ExistingBases, Conflict, Observed, ValidDraft;
    MatchesMeaning(EntriesAt(head), d, repo);
  }

  /** On the branch a preview was prepared on, its publication is never refused. */
  lemma FreshPreviewProceeds(q: Request, head: Option<Commit>, built: bool, later: Option<Commit>)
    requires Prepare(q, head, built, later).Ok? && Listed(q)
    ensures var d := Prepare(q, head, built, later).value;
            d.head == head && !Decide(d, head).Stop?
  {
    hide Prepare, Validate, MergeTrees, SidesOf, Approved, Safe, ExistingBases, DraftOf, Conflict, MatchesFile;
    var d := Prepare(q, head, built, later).value;
    var i, e, pin, merged := Prepared(q, head, built, later);
    DraftFields(q, i, e, head, pin, merged);
  }

  /** What a branch that moved is told: a conflict exactly when some file the preview approved, the
      submodule configuration or the pin is no longer what it was prepared on; READMEs and whatever
      else others changed only make the preview stale. */
  lemma ConflictIff(q: Request, head: Option<Commit>, built: bool, later: Option<Commit>, now: Entries)
    requires Prepare(q, head, built, later).Ok? && Listed(q)
    ensures var d := Prepare(q, head, built, later).value;
            && Conflict(now, d) in {ManualConflict, StalePreview}
            && (Conflict(now, d) == ManualConflict <==>
                  PinnedAt(now) != PinnedAt(EntriesAt(head))
                  || exists p | p in d.files.Keys + {Gitmodules} ::
                       !IsReadme(p) && Lookup(now, p) != Lookup(EntriesAt(head), p))
  {
    hide Prepare, Validate, MergeTrees, SidesOf, Approved, Safe, DraftOf, MatchesFile;
    var i, e, pin, merged := Prepared(q, head, built, later);
    DraftFields(q, i, e, head, pin, merged);
    PinnedEntry(EntriesAt(head), q.settings.bases, pin);
  }

  /** A preview says there is nothing to do exactly when publishing it would leave the tree as it is. */
  lemma NoopIffUnchanged(q: Request, head: Option<Commit>, built: bool, later: Option<Commit>)
    requires Prepare(q, head, built, later).Ok? && Listed(q) && head.Some?
    requires Prepare(q, head, built, later).value.action != Adopt
    ensures var d := Prepare(q, head, built, later).value;
            d.action == Noop <==> Built(d) == EntriesAt(d.head)
  {
    hide Prepare, Validate, MergeTrees, SidesOf, Approved, Safe, ExistingBases, DraftOf, Rewrites, Built;
    var d := Prepare(q, head, built, later).value;
    var i, e, pin, merged := Prepared(q, head, built, later);
    DraftFields(q, i, e, head, pin, merged);
    MergedKeys(q, i, EntriesAt(head));
    DraftIsValid(q, i, e, EntriesAt(head), merged);
    var entries := EntriesAt(head);
    var current := SidesOf(q, i, entries).current;
    forall p | p in d.files
      ensures IsYaml(p) ==> !IsReadme(p) && p != Gitmodules && p != Bases
                            && (p in entries <==> p in current) && (p in entries ==> entries[p] == Blob(current[p]))
      ensures !IsYaml(p) ==> p !in entries && p != Bases
    {
      DraftEntry(q, i, e, entries, p);
    }
    PinnedEntry(entries, q.settings.bases, pin);
    UnchangedIff(d, entries, current, pin);
  }

  lemma ChoiceAdopts(s: Sides, p: Path)
    requires p in s.proposed && ChoiceAt(s, p).Take?
    ensures ChoiceAt(s, p).adopted <==> p !in s.baseline && p in s.current
  {
    hide Semantic;
  }

  lemma ManifestSides(q: Request, i: Inputs, entries: Entries, p: Path)
    requires Validate(q.files, q.repo, q.settings.bases) == Accepted(i) && Listed(q) && Safe(entries, i.slug)
    ensures var s := SidesOf(q, i, entries);
            && (p in q.order && p in s.proposed && IsYaml(p) <==> p in YamlPaths(i.slug))
            && (p in YamlPaths(i.slug) ==> (p in s.current <==> p in entries))
            && s.baseline == q.baseline
  {
    hide Validate, YamlPaths, KnownPaths, Semantic, RenderFile, TakenAt, Adopting;
    var s := SidesOf(q, i, entries);
    MergedKeys(q, i, entries);
    assert p in MergedAt(s, q.order).files <==> p in q.order && p in s.proposed && IsYaml(p);
    YamlPathsMeaning(i.slug, p);
  }

  /** The merge adopts exactly when a manifest that exists has no baseline. */
  lemma AdoptsIff(q: Request, i: Inputs, entries: Entries)
    requires Validate(q.files, q.repo, q.settings.bases) == Accepted(i) && Listed(q) && Safe(entries, i.slug)
    requires Mergeable(SidesOf(q, i, entries), q.order)
    ensures Adopting(SidesOf(q, i, entries), q.order) <==> exists p :: p in YamlPaths(i.slug) && p in entries && p !in q.baseline
  {
    hide Validate, YamlPaths, KnownPaths, Safe, SidesOf, ChoiceAt, IsYaml;
    var s := SidesOf(q, i, entries);
    forall p ensures p in q.order && p in s.proposed && IsYaml(p) <==> p in YamlPaths(i.slug)
             ensures p in YamlPaths(i.slug) ==> (ChoiceAt(s, p).adopted <==> p !in q.baseline && p in entries) {
      ManifestSides(q, i, entries, p);
      if p in YamlPaths(i.slug) {
        ChoiceAdopts(s, p);
      }
    }
  }

  /** What a preview says it is going to do.  It initialises an empty repository; it adopts when a
      manifest of the cluster exists that was never published; otherwise it does nothing exactly when
      the tree would stay as it is, adds a cluster that has no manifest yet, and updates one that has. */
  lemma ActionIff(q: Request, head: Option<Commit>, built: bool, later: Option<Commit>)
    requires Prepare(q, head, built, later).Ok? && Listed(q)
    ensures var d := Prepare(q, head, built, later).value;
            var entries := EntriesAt(head);
            var adopts := exists p :: p in YamlPaths(d.slug) && p in entries && p !in q.baseline;
            var present := exists p :: p in YamlPaths(d.slug) && p in entries;
            && (d.action == Initialize <==> head.None?)
            && (d.action == Adopt <==> head.Some? && adopts)
            && (d.action == Noop <==> head.Some? && !adopts && Built(d) == entries)
            && (d.action == Add <==> head.Some? && !adopts && Built(d) != entries && !present)
            && (d.action == Update <==> head.Some? && !adopts && Built(d) != entries && present)
  {
    hide Prepare, Validate, MergeTrees, SidesOf, Approved, Safe, ExistingBases, DraftOf, Built, YamlPaths, KnownPaths,
         Rewrites, Observed, Adopting, Mergeable;
    var i, e, pin, merged := Prepared(q, head, built, later);
    DraftFields(q, i, e, head, pin, merged);
    var d := Prepare(q, head, built, later).value;
    var s := SidesOf(q, i, EntriesAt(head));
    MergedIs(s, q.order, merged);
    AdoptsIff(q, i, EntriesAt(head));
    CurrentEmpty(q, i, EntriesAt(head));
    if head.Some? && d.action != Adopt {
      NoopIffUnchanged(q, head, built, later);
    }
  }

  lemma MergedIs(s: Sides, order: seq<Path>, merged: Merged)
    requires MergeTrees(s, order) == Ok(merged)
    ensures Mergeable(s, order) && merged.adopting == Adopting(s, order)
  {
    hide Mergeable, Adopting, FirstRefusal;
  }

  lemma CurrentEmpty(q: Request, i: Inputs, entries: Entries)
    requires Safe(entries, i.slug)
    ensures SidesOf(q, i, entries).current == map[] <==> !exists p :: p in YamlPaths(i.slug) && p in entries
  {
    hide YamlPaths, KnownPaths, RenderFile;
    var current := SidesOf(q, i, entries).current;
    forall p ensures p in current <==> p in YamlPaths(i.slug) && p in entries {
      YamlPathsMeaning(i.slug, p);
    }
  }

  /** What a file at a path means, if there is one. */
  function MeaningAt(entries: Entries, p: Path): Option<seq<Node>> {
    if p in entries && entries[p].Blob? then Semantic(entries[p].content) else None
  }

  function TextAt(entries: Entries, p: Path): Option<Content> {
    if p in entries && entries[p].Blob? then Some(entries[p].content) else None
  }

  /** What an approver is shown.  A path is in the diff exactly when it is a manifest of the cluster that
      will mean something else than it does now, a file that is not there meaning nothing; it is listed
      as formatting exactly when it will mean the same in another text. */
  lemma DiffIff(q: Request, head: Option<Commit>, built: bool, later: Option<Commit>, p: Path)
    requires Prepare(q, head, built, later).Ok? && Listed(q)
    ensures var d := Prepare(q, head, built, later).value;
            var entries := EntriesAt(head);
            && (p in d.diff <==> p in YamlPaths(d.slug) && MeaningAt(entries, p) != MeaningAt(Built(d), p))
            && (p in d.formatting <==>
                  p in YamlPaths(d.slug) && MeaningAt(entries, p) == MeaningAt(Built(d), p)
                  && TextAt(entries, p) != TextAt(Built(d), p))
  {
    hide Prepare, Validate, MergeTrees, SidesOf, Approved, Safe, ExistingBases, DraftOf, Built, YamlPaths, Semantic,
         ValidDraft;
    var d := Prepare(q, head, built, later).value;
    var i, e, pin, merged := Prepared(q, head, built, later);
    PreparedIsValid(q, head, built, later);
    DraftSemantics(d, q.repo);
    var entries := EntriesAt(head);
    DraftFields(q, i, e, head, pin, merged);
    MergedKeys(q, i, entries);
    DraftIsValid(q, i, e, entries, merged);
    var files := d.files;
    ApprovedManifests(q, i, e, entries, p);
    YamlPathsMeaning(i.slug, p);
    if p in YamlPaths(i.slug) {
      DraftEntry(q, i, e, entries, p);
      BuiltManifest(d, p);
    }
  }

  /** The manifests of an approved tree are the cluster's. */
  lemma ApprovedManifests(q: Request, i: Inputs, e: Inputs, entries: Entries, p: Path)
    ensures p in Approved(q, i, e, YamlPaths(i.slug), entries) && IsYaml(p) <==> p in YamlPaths(i.slug)
  {
    hide YamlPaths, RenderFile;
    YamlPathsMeaning(i.slug, p);
  }

  lemma BuiltManifest(d: Draft, p: Path)
    requires p in d.files && p != Bases && !IsReadme(p) && p != Gitmodules
    ensures p in Built(d) && Built(d)[p] == Blob(d.files[p])
  {
  }

  lemma DraftEntry(q: Request, i: Inputs, e: Inputs, entries: Entries, p: Path)
    requires Safe(entries, i.slug) && q.files.Keys <= KnownPaths(i.slug)
    requires p in Approved(q, i, e, YamlPaths(i.slug), entries)
    ensures var current := SidesOf(q, i, entries).current;
            && (IsYaml(p) ==> !IsReadme(p) && p != Gitmodules && p != Bases
                              && (p in entries <==> p in current) && (p in entries ==> entries[p] == Blob(current[p])))
            && (!IsYaml(p) ==> p !in entries && p != Bases)
  {
    hide RenderFile, YamlPaths, KnownPaths;
    YamlPathsMeaning(i.slug, p);
    BasesUnmanaged(i.slug);
  }

  lemma PinnedEntry(entries: Entries, bases: string, pin: Option<string>)
    requires ExistingBases(entries, bases) == Ok(pin)
    ensures pin.Some? <==> Bases in entries
    ensures pin.Some? ==> entries[Bases] == Link(pin.value)
  {
  }

  lemma UnchangedIff(d: Draft, entries: Entries, current: Tree, pin: Option<string>)
    requires EntriesAt(d.head) == entries && (pin.Some? ==> d.revision == pin.value)
    requires pin.Some? <==> Bases in entries
    requires pin.Some? ==> entries[Bases] == Link(pin.value)
    requires forall p | p in d.files ::
               && (IsYaml(p) ==> !IsReadme(p) && p != Gitmodules && p != Bases
                                 && (p in entries <==> p in current) && (p in entries ==> entries[p] == Blob(current[p])))
               && (!IsYaml(p) ==> p !in entries && p != Bases)
    ensures !(Rewrites(entries, current, d.files) || pin.None?) <==> Built(d) == entries
  {
    hide IsYaml, IsReadme;
    if !Rewrites(entries, current, d.files) && pin.Some? {
      assert forall p | p in Built(d) :: p in entries && Built(d)[p] == entries[p];
      assert Built(d).Keys == entries.Keys;
    }
    if Built(d) == entries {
      assert Bases in entries;
      forall p | p in d.files ensures p in entries && IsYaml(p) && Lookup(current, p) == Some(d.files[p]) {
        assert p in Written(d, entries) || p in entries;
        assert p in Built(d);
      }
    }
  }

  // ---- publishing, then previewing again ----

  /** What a publication commits holds every generated file letter by letter, except the READMEs and
      submodule configuration that were there before. */
  lemma BuiltExactly(q: Request, i: Inputs, e: Inputs, d: Draft, all: set<Path>)
    requires d.files == Approved(q, i, e, YamlPaths(i.slug), EntriesAt(d.head))
    requires forall p | p in d.files :: p != Bases && (IsYaml(p) ==> !IsReadme(p) && p != Gitmodules)
    requires forall p | p in all :: p in q.files && (IsYaml(p) ==> p in YamlPaths(i.slug))
    ensures HoldsExactly(Built(d), d, all)
  {
    hide RenderFile, YamlPaths, IsYaml, IsReadme;
  }

  /** The round trip of a worker: the preview it prepares from a whole tree, once published as the
      commit it makes, is followed by a preview with nothing to do. */
  lemma PublishedThenNoop(q: Request, head: Option<Commit>, built: bool, later: Option<Commit>,
                          e: Inputs, order: seq<Path>, adopt: bool, note: string)
    requires Prepare(q, head, built, later).Ok? && Listed(q)
    requires Validate(q.files, q.repo, q.settings.bases).Accepted? ==>
               q.files.Keys == KnownPaths(Validate(q.files, q.repo, q.settings.bases).inputs.slug)
    requires var d := Prepare(q, head, built, later).value;
             Validate(d.files, d.repo, d.bases) == Accepted(e)
    requires RenderTree(q.repo, q.settings.bases, e).Some? ==>
               forall p :: p in order <==> p in RenderTree(q.repo, q.settings.bases, e).value
    ensures RenderTree(q.repo, q.settings.bases, e).Some?
    ensures var d := Prepare(q, head, built, later).value;
            var main := Some(Candidate(d, note));
            var r := Prepare(NextRequest(q, d, e, order, adopt), main, true, main);
            r.Ok? && r.value.diff == {} && r.value.action == Noop
  {
    hide Prepare, Validate, RenderTree, YamlPaths, KnownPaths, Approved, Safe, Holds, HoldsExactly, Built,
         MergeTrees, SidesOf, NextRequest, DraftOf, ExistingBases, ValidDraft, Complete;
    var d := Prepare(q, head, built, later).value;
    PublishedState(q, head, built, later);
    DraftPlace(q, head, built, later);
    PublishThenPreviewConverges(q, head, built, later, e, order, adopt, Candidate(d, note));
    PublishedText(q, head, built, later, e);
  }

  lemma PublishedText(q: Request, head: Option<Commit>, built: bool, later: Option<Commit>, e: Inputs)
    requires Prepare(q, head, built, later).Ok? && Listed(q)
    requires Validate(q.files, q.repo, q.settings.bases).Accepted? ==>
               q.files.Keys == KnownPaths(Validate(q.files, q.repo, q.settings.bases).inputs.slug)
    requires var d := Prepare(q, head, built, later).value;
             && d.head == head && ValidDraft(d, q.repo) && Validate(d.files, q.repo, q.settings.bases) == Accepted(e)
    requires RenderTree(q.repo, q.settings.bases, e).Some?
    ensures var d := Prepare(q, head, built, later).value;
            HoldsExactly(Built(d), d, RenderTree(q.repo, q.settings.bases, e).value.Keys)
  {
    hide Prepare, Validate, RenderTree, YamlPaths, KnownPaths, Approved, HoldsExactly, Built, MergeTrees, SidesOf,
         ValidDraft, IsReadme;
    var d := Prepare(q, head, built, later).value;
    var i, e', merged := DraftFiles(q, head, built, later);
    RenderedKeys(q.repo, q.settings.bases, e);
    var all := RenderTree(q.repo, q.settings.bases, e).value.Keys;
    AllListed(i.slug);
    forall p | p in d.files ensures p != Bases && (IsYaml(p) ==> !IsReadme(p) && p != Gitmodules) {
      DraftPath(d, q.repo, p);
      PathKinds(d.slug, p);
    }
    BuiltExactly(q, i, e, d, all);
  }

  lemma AllListed(slug: string)
    ensures forall p | p in KnownPaths(slug) :: IsYaml(p) ==> p in YamlPaths(slug)
  {
    forall p | p in KnownPaths(slug) && IsYaml(p) ensures p in YamlPaths(slug) {
      YamlPathsMeaning(slug, p);
    }
  }

  lemma PathKinds(slug: string, p: Path)
    requires p in KnownPaths(slug)
    ensures p != Bases && (IsYaml(p) ==> !IsReadme(p) && p != Gitmodules)
  {
    hide YamlPaths;
    YamlPathsMeaning(slug, p);
  }

  /** The commit a worker makes from a prepared preview is safe and holds what was approved. */
  lemma PublishedState(q: Request, head: Option<Commit>, built: bool, later: Option<Commit>)
    requires Prepare(q, head, built, later).Ok? && Listed(q)
    requires Validate(q.files, q.repo, q.settings.bases).Accepted? ==>
               q.files.Keys == KnownPaths(Validate(q.files, q.repo, q.settings.bases).inputs.slug)
    ensures var d := Prepare(q, head, built, later).value;
            && d.head == head && ValidDraft(d, q.repo)
            && Safe(Built(d), d.slug) && Holds(Built(d), d)
  {
    hide Prepare, Validate, YamlPaths, KnownPaths, Approved, Safe, Holds, Built, MergeTrees, SidesOf,
         ExistingBases, ValidDraft, Complete, Diff, Formatting, Rewrites;
    var d := Prepare(q, head, built, later).value;
    var i, e, pin, merged := Prepared(q, head, built, later);
    YamlPathsMeaning(i.slug, Gitmodules);
    PreparedIsValid(q, head, built, later);
    BuiltHolds(d, q.repo);
  }
}
