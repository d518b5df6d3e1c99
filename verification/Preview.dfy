/** Preparing a preview: a three-way merge of the last published tree, the repository as it is, and
    a new proposal. */
module Preview {
  import opened Options
  import opened Addresses
  import opened Manifests
  import opened Recognition
  import opened Git

  // ---- merging one file ----

  datatype Choice = Take(content: Content, adopted: bool) | Refuse(code: Code)

  function MergeFile(desired: Content, was: Option<Content>, now: Option<Content>, adopt: bool): Choice {
    if was.None? && now.Some? then
      if !adopt then Refuse(AdoptionRequired)
      else if Semantic(now.value).None? || Semantic(desired).None? then Refuse(BadManifests)
      else if Semantic(now.value) != Semantic(desired) then Refuse(IncompatibleAdoption)
      else Take(desired, true)
    else if now.None? then
      if was.Some? then Refuse(ManualConflict) else Take(desired, false)
    else if Semantic(now.value).None? || Semantic(desired).None? then Refuse(BadManifests)
    else if Semantic(now.value) == Semantic(desired) then Take(desired, false)
    else if Semantic(was.value).None? then Refuse(BadManifests)
    else if Semantic(now.value) == Semantic(was.value) then Take(desired, false)
    else if Semantic(desired) == Semantic(was.value) then Take(now.value, false)
    else Refuse(ManualConflict)
  }

  /** A file's meaning changed from its baseline. */
  predicate Changed(c: Content, was: Content) {
    Semantic(c) != Semantic(was)
  }

  /** What the merge of a baselined file keeps: whatever either side changed. */
  lemma NeitherSideLost(desired: Content, was: Content, now: Option<Content>, adopt: bool)
    requires MergeFile(desired, Some(was), now, adopt).Take?
    ensures var merged := MergeFile(desired, Some(was), now, adopt).content;
            && now.Some?
            && (Changed(now.value, was) ==> Semantic(merged) == Semantic(now.value))
            && (Changed(desired, was) ==> Semantic(merged) == Semantic(desired))
            && (merged == desired || merged == now.value)
            && !MergeFile(desired, Some(was), now, adopt).adopted
  {
    hide Semantic;
  }

  /** The merge of a baselined file is refused exactly when the file was deleted, both sides changed it
      and to different meanings, or it has to compare a version that does not parse. */
  lemma RefusedIff(desired: Content, was: Content, now: Option<Content>, adopt: bool)
    ensures MergeFile(desired, Some(was), now, adopt).Refuse?
       <==> now.None? || Unreadable(desired, Some(was), now.value)
            || (Changed(now.value, was) && Changed(desired, was) && Changed(now.value, desired))
    ensures MergeFile(desired, Some(was), now, adopt) == Refuse(ManualConflict)
       <==> now.None? || (!Unreadable(desired, Some(was), now.value)
                          && Changed(now.value, was) && Changed(desired, was) && Changed(now.value, desired))
  {
    hide Semantic;
  }

  /** A file without a baseline that already exists is taken only under adoption, and only if it
      already means what is proposed; one that does not exist is simply added. */
  lemma UnbaselinedIff(desired: Content, now: Option<Content>, adopt: bool)
    ensures MergeFile(desired, None, now, adopt).Take?
       <==> now.None? || (adopt && Semantic(now.value).Some? && Semantic(now.value) == Semantic(desired))
    ensures MergeFile(desired, None, now, adopt).Take? ==>
              MergeFile(desired, None, now, adopt) == Take(desired, now.Some?)
  {
    hide Semantic;
  }

  /** The versions a merge compares: the repository's and the proposal's, and the baseline once those
      two differ.  One of them does not parse. */
  predicate Unreadable(desired: Content, was: Option<Content>, now: Content) {
    Semantic(now).None? || Semantic(desired).None?
    || (was.Some? && Semantic(was.value).None? && Changed(now, desired))
  }

  /** A merge is refused as unreadable exactly when it compares such versions. */
  lemma UnreadableIff(desired: Content, was: Option<Content>, now: Option<Content>, adopt: bool)
    ensures MergeFile(desired, was, now, adopt) == Refuse(BadManifests)
       <==> now.Some? && (was.Some? || adopt) && Unreadable(desired, was, now.value)
  {
    hide Semantic;
  }

  // ---- merging a tree ----

  /** The three trees of a merge. */
  datatype Sides = Sides(proposed: Tree, current: Tree, baseline: Tree, adopt: bool)

  function ChoiceAt(s: Sides, p: Path): Choice
    requires p in s.proposed
  {
    MergeFile(s.proposed[p], Lookup(s.baseline, p), Lookup(s.current, p), s.adopt)
  }

  datatype Merged = Merged(files: Tree, adopting: bool)

  function TakenAt(s: Sides, p: Path): Content
    requires p in s.proposed
  {
    if ChoiceAt(s, p).Take? then ChoiceAt(s, p).content else s.proposed[p]
  }

  predicate Mergeable(s: Sides, order: seq<Path>) {
    forall p | p in order && p in s.proposed && IsYaml(p) :: ChoiceAt(s, p).Take?
  }

  predicate Adopting(s: Sides, order: seq<Path>) {
    exists p | p in order :: p in s.proposed && IsYaml(p) && ChoiceAt(s, p).Take? && ChoiceAt(s, p).adopted
  }

  /** The merge of the manifests at some paths. */
  function MergedAt(s: Sides, order: seq<Path>): Merged {
    Merged(map p | p in order && p in s.proposed && IsYaml(p) :: TakenAt(s, p), Adopting(s, order))
  }

  /** The error of the first path that is refused. */
  function FirstRefusal(s: Sides, order: seq<Path>): Code
    requires !Mergeable(s, order)
  {
    if Mergeable(s, order[..|order| - 1]) then
      LastRefused(s, order);
      ChoiceAt(s, order[|order| - 1]).code
    else FirstRefusal(s, order[..|order| - 1])
  }

  lemma LastRefused(s: Sides, order: seq<Path>)
    requires !Mergeable(s, order) && Mergeable(s, order[..|order| - 1])
    ensures order[|order| - 1] in s.proposed && ChoiceAt(s, order[|order| - 1]).Refuse?
  {
    hide ChoiceAt, IsYaml;
    assert order == order[..|order| - 1] + [order[|order| - 1]];
  }

  function MergeTrees(s: Sides, order: seq<Path>): Outcome<Merged> {
    if Mergeable(s, order) then Ok(MergedAt(s, order)) else Err(FirstRefusal(s, order))
  }

  lemma MergeStep(s: Sides, order: seq<Path>, i: nat)
    requires i < |order| && order[i] in s.proposed && Mergeable(s, order[..i])
    ensures var p := order[i];
            var before := MergedAt(s, order[..i]);
            && (!IsYaml(p) ==> Mergeable(s, order[..i + 1]) && MergedAt(s, order[..i + 1]) == before)
            && (IsYaml(p) && ChoiceAt(s, p).Take? ==>
                  Mergeable(s, order[..i + 1])
                  && MergedAt(s, order[..i + 1]).files == before.files[p := ChoiceAt(s, p).content]
                  && MergedAt(s, order[..i + 1]).adopting == (before.adopting || ChoiceAt(s, p).adopted))
  {
    hide ChoiceAt, IsYaml;
    assert order[..i + 1] == order[..i] + [order[i]];
    assert order[i] in order[..i + 1];
    if !IsYaml(order[i]) {
      assert MergedAt(s, order[..i + 1]).files == MergedAt(s, order[..i]).files;
    } else if ChoiceAt(s, order[i]).Take? {
      assert MergedAt(s, order[..i + 1]).files == MergedAt(s, order[..i]).files[order[i] := ChoiceAt(s, order[i]).content];
    }
  }

  lemma {:induction false} RefusalPrefix(s: Sides, order: seq<Path>, i: nat)
    requires i < |order| && order[i] in s.proposed && IsYaml(order[i])
    requires Mergeable(s, order[..i]) && ChoiceAt(s, order[i]).Refuse?
    ensures !Mergeable(s, order) && FirstRefusal(s, order) == ChoiceAt(s, order[i]).code
    decreases |order| - i
  {
    hide ChoiceAt, IsYaml;
    var last := |order| - 1;
    assert order[i] in order;
    if i == last {
      assert order[..last] == order[..i];
    } else {
      assert order[..last][..i] == order[..i];
      RefusalPrefix(s, order[..last], i);
    }
  }

  /** The merge loop, over the proposal's files in their order. */
  method Merge(s: Sides, order: seq<Path>) returns (r: Outcome<Merged>)
    requires forall p :: p in order <==> p in s.proposed
    ensures r == MergeTrees(s, order)
  {
    var merged: Tree := map[];
    var adopting := false;
    for i := 0 to |order|
      invariant Mergeable(s, order[..i]) && MergedAt(s, order[..i]) == Merged(merged, adopting)
    {
      var path := order[i];
      assert path in order;
      MergeStep(s, order, i);
      if !IsYaml(path) {
        continue;
      }
      var choice := MergeFile(s.proposed[path], Lookup(s.baseline, path), Lookup(s.current, path), s.adopt);
      if choice.Refuse? {
        RefusalPrefix(s, order, i);
        return Err(choice.code);
      }
      merged := merged[path := choice.content];
      adopting := adopting || choice.adopted;
    }
    assert order[..|order|] == order;
    return Ok(Merged(merged, adopting));
  }

  // ---- preparing ----

  datatype Action = Initialize | Add | Update | Adopt | Noop

  /** A durable preview.  `diff` names the manifests whose meaning it would change. */
  datatype Draft = Draft(repo: string, slug: string, head: Option<Commit>, files: Tree,
                         observed: map<Path, Option<Entry>>, observedBases: Option<string>,
                         revision: string, bases: string, diff: set<Path>, formatting: set<Path>,
                         action: Action)

  /** The configured bases: their address, and their revision when it is a commit id. */
  datatype Settings = Settings(bases: string, revision: Option<string>)

  /** What one preview is asked to do: `order` lists the proposed files. */
  datatype Request = Request(repo: string, files: Tree, order: seq<Path>, baseline: Tree,
                             settings: Settings, adopt: bool)

  /** Everything but the contact is the operator's. */
  predicate SameCluster(a: Inputs, b: Inputs) {
    a.slug == b.slug && a.hostname == b.hostname && a.vip == b.vip && a.interface == b.interface
  }

  function SidesOf(q: Request, i: Inputs, entries: Entries): Sides {
    Sides(map p | p in q.files :: RenderFile(q.repo, q.settings.bases, i, p),
          ReadManifests(entries, KnownPaths(i.slug)), q.baseline, q.adopt)
  }

  /** The approved files: every manifest as generated, and the other files that do not exist yet. */
  function Approved(q: Request, i: Inputs, e: Inputs, manifests: set<Path>, entries: Entries): Tree {
    (map p | p in manifests :: RenderFile(q.repo, q.settings.bases, e, p))
    + (map p | p in q.files && !IsYaml(p) && p !in entries :: RenderFile(q.repo, q.settings.bases, i, p))
  }

  function Diff(current: Tree, approved: Tree): set<Path> {
    set p | p in approved && IsYaml(p) && !(p in current && Semantic(current[p]) == Semantic(approved[p]))
  }

  function Formatting(current: Tree, approved: Tree): set<Path> {
    set p | p in approved && IsYaml(p) && p in current && Semantic(current[p]) == Semantic(approved[p])
            && current[p] != approved[p]
  }

  predicate Rewrites(entries: Entries, current: Tree, approved: Tree) {
    exists p | p in approved :: p !in entries || (IsYaml(p) && Lookup(current, p) != Some(approved[p]))
  }

  function ActionOf(head: Option<Commit>, adopting: bool, changed: bool, current: Tree): Action {
    if head.None? then Initialize
    else if adopting then Adopt
    else if !changed then Noop
    else if current == map[] then Add
    else Update
  }

  function Observed(entries: Entries, paths: set<Path>): map<Path, Option<Entry>> {
    map p | p in paths :: Lookup(entries, p)
  }

  function DraftOf(q: Request, i: Inputs, e: Inputs, head: Option<Commit>, pin: Option<string>,
                   merged: Merged): Draft
    requires pin.Some? || q.settings.revision.Some?
  {
    var entries := EntriesAt(head);
    var current := SidesOf(q, i, entries).current;
    var files := Approved(q, i, e, merged.files.Keys, entries);
    var revision := if pin.Some? then pin.value else q.settings.revision.value;
    var changed := Rewrites(entries, current, files) || pin.None?;
    Draft(q.repo, i.slug, head, files, Observed(entries, files.Keys + {Gitmodules}), pin, revision,
          q.settings.bases, Diff(current, files), Formatting(current, files),
          ActionOf(head, merged.adopting, changed, current))
  }

  /** The checks made before the repository is read. */
  function Proposal(q: Request): Outcome<Inputs> {
    if !PlainUrl(q.repo) || !PlainUrl(q.settings.bases) then Err(BadUrl)
    else match Validate(q.files, q.repo, q.settings.bases)
         case InvalidInput => Err(BadInput)
         case InvalidManifests => Err(BadManifests)
         case Incompatible => Err(IncompatibleTree)
         case Accepted(i) => if q.baseline.Keys <= KnownPaths(i.slug) then Ok(i) else Err(BadManifests)
  }

  /** The checks and the merge made on what the repository holds. */
  function Reconcile(q: Request, i: Inputs, head: Option<Commit>): Outcome<Draft> {
    var entries := EntriesAt(head);
    if !Safe(entries, i.slug) then Err(Unsafe)
    else match ExistingBases(entries, q.settings.bases)
         case Err(code) => Err(code)
         case Ok(pin) =>
           if pin.None? && q.settings.revision.None? then Err(BadRevision)
           else match MergeTrees(SidesOf(q, i, entries), q.order)
                case Err(code) => Err(code)
                case Ok(merged) =>
                  match Validate(merged.files, q.repo, q.settings.bases)
                  case Accepted(e) => if SameCluster(e, i) then Ok(DraftOf(q, i, e, head, pin, merged)) else Err(ManualConflict)
                  case _ => Err(ManualConflict)
  }

  /** The whole preparation.  `head` is the main branch it read, `built` whether the manifests build
      with the bases, and `later` the main branch after that. */
  function Prepare(q: Request, head: Option<Commit>, built: bool, later: Option<Commit>): Outcome<Draft> {
    match Proposal(q)
    case Err(code) => Err(code)
    case Ok(i) =>
      match Reconcile(q, i, head)
      case Err(code) => Err(code)
      case Ok(draft) => if !built then Err(BuildFailed) else if later != head then Err(StalePreview) else Ok(draft)
  }

  ghost predicate Listed(q: Request) {
    forall p :: p in q.order <==> p in q.files
  }

  // ---- why a preparation is refused ----

  lemma {:induction false} RefusalCodes(s: Sides, order: seq<Path>)
    requires !Mergeable(s, order)
    ensures FirstRefusal(s, order) in {AdoptionRequired, IncompatibleAdoption, BadManifests, ManualConflict}
  {
    hide Semantic, IsYaml;
    if Mergeable(s, order[..|order| - 1]) {
      LastRefused(s, order);
    } else {
      RefusalCodes(s, order[..|order| - 1]);
    }
  }

  /** The errors of a preparation that are not the merge's, each exactly when what it names is the first
      thing wrong: the addresses, the proposal's inputs, the proposal as a tree, the repository's tree or
      its bases, a missing revision, the build, and a branch that moved meanwhile. */
  lemma PrepareErrors(q: Request, head: Option<Commit>, built: bool, later: Option<Commit>)
    ensures var r, entries := Prepare(q, head, built, later), EntriesAt(head);
            var plain, v := PlainUrl(q.repo) && PlainUrl(q.settings.bases), Validate(q.files, q.repo, q.settings.bases);
            var known := plain && v.Accepted? && q.baseline.Keys <= KnownPaths(v.inputs.slug);
            var bases := ExistingBases(entries, q.settings.bases);
            && (r == Err(BadUrl) <==> !plain)
            && (r == Err(BadInput) <==> plain && v.InvalidInput?)
            && (r == Err(IncompatibleTree) <==> plain && v.Incompatible?)
            && (plain && (v.InvalidManifests? || (v.Accepted? && !known)) ==> r == Err(BadManifests))
            && (r == Err(Unsafe) <==> known && (!Safe(entries, v.inputs.slug) || bases.Err?))
            && (r == Err(BadRevision) <==>
                  known && Safe(entries, v.inputs.slug) && bases == Ok(None) && q.settings.revision.None?)
            && (r == Err(BuildFailed) <==> Prepare(q, head, true, head).Ok? && !built)
            && (r == Err(StalePreview) <==> Prepare(q, head, true, head).Ok? && built && later != head)
            && (r.Ok? <==> Prepare(q, head, true, head).Ok? && built && later == head)
  {
    hide PlainUrl, Validate, KnownPaths, Safe, SidesOf, Mergeable, MergedAt, FirstRefusal, DraftOf;
    var v := Validate(q.files, q.repo, q.settings.bases);
    if v.Accepted? {
      var s := SidesOf(q, v.inputs, EntriesAt(head));
      if !Mergeable(s, q.order) {
        RefusalCodes(s, q.order);
      }
    }
  }

  /** What makes a repository unsafe to prepare on: a managed path, or a directory above one, that is
      something else, a gitlink that is not the bases, or bases that are no gitlink or not configured as
      one at the expected address. */
  lemma UnsafeIff(q: Request, head: Option<Commit>, built: bool, later: Option<Commit>)
    requires PlainUrl(q.repo) && PlainUrl(q.settings.bases)
    requires var v := Validate(q.files, q.repo, q.settings.bases);
             v.Accepted? && q.baseline.Keys <= KnownPaths(v.inputs.slug)
    ensures var entries, slug := EntriesAt(head), Validate(q.files, q.repo, q.settings.bases).inputs.slug;
            Prepare(q, head, built, later) == Err(Unsafe) <==>
              || (exists p :: p in entries && p in KnownPaths(slug) && !entries[p].Blob?)
              || (exists p :: p in entries && p in Ancestors(slug) && entries[p] != Folder)
              || (exists p :: p in entries && entries[p].Link? && p != Bases)
              || (Bases in entries && !entries[Bases].Link?)
              || (Bases in entries <==> Gitmodules !in entries)
              || (Gitmodules in entries && !(exists style :: entries[Gitmodules] == Blob(Modules(q.settings.bases, style))))
  {
    hide Prepare, Validate, KnownPaths, Ancestors, PlainUrl;
    PrepareErrors(q, head, built, later);
  }
}
