/** What a prepared preview guarantees, and why publishing it converges. */
module Convergence {
  import opened Options
  import opened Addresses
  import opened Manifests
  import opened Recognition
  import opened Git
  import opened Preview

  /** The inputs that were proposed, those that were approved, and the merge between them. */
  lemma Prepared(q: Request, head: Option<Commit>, built: bool, later: Option<Commit>)
    returns (i: Inputs, e: Inputs, pin: Option<string>, merged: Merged)
    requires Prepare(q, head, built, later).Ok?
    ensures Validate(q.files, q.repo, q.settings.bases) == Accepted(i)
    ensures MergeTrees(SidesOf(q, i, EntriesAt(head)), q.order) == Ok(merged)
    ensures Validate(merged.files, q.repo, q.settings.bases) == Accepted(e) && SameCluster(e, i)
    ensures Safe(EntriesAt(head), i.slug) && ExistingBases(EntriesAt(head), q.settings.bases) == Ok(pin)
    ensures pin.Some? || q.settings.revision.Some?
    ensures Prepare(q, head, built, later).value == DraftOf(q, i, e, head, pin, merged)
  {
    hide Validate, MergeTrees, SidesOf, Safe, ExistingBases, DraftOf, PlainUrl;
    i := Proposal(q).value;
    pin := ExistingBases(EntriesAt(head), q.settings.bases).value;
    merged := MergeTrees(SidesOf(q, i, EntriesAt(head)), q.order).value;
    e := Validate(merged.files, q.repo, q.settings.bases).inputs;
  }

  /** Every manifest of the cluster is merged, and nothing else. */
  lemma MergedKeys(q: Request, i: Inputs, entries: Entries)
    requires Validate(q.files, q.repo, q.settings.bases) == Accepted(i) && Listed(q)
    ensures MergedAt(SidesOf(q, i, entries), q.order).files.Keys == YamlPaths(i.slug)
    ensures q.files.Keys <= KnownPaths(i.slug)
  {
    hide Validate, RenderFile, RenderTree, YamlPaths, KnownPaths, TakenAt, Matches;
    AcceptedIff(q.files, q.repo, q.settings.bases, i);
    CheckedPaths(q.files);
    var merged := MergedAt(SidesOf(q, i, entries), q.order).files;
    forall p ensures p in merged <==> p in YamlPaths(i.slug) {
      YamlPathsMeaning(i.slug, p);
    }
  }

  /** Files of the approved tree are the rendering of the approved inputs. */
  lemma ApprovedFile(q: Request, i: Inputs, e: Inputs, entries: Entries, p: Path)
    requires SameCluster(e, i) && p in Approved(q, i, e, YamlPaths(i.slug), entries)
    ensures Approved(q, i, e, YamlPaths(i.slug), entries)[p] == RenderFile(q.repo, q.settings.bases, e, p)
  {
    hide Rendered, YamlPaths;
    YamlPathsMeaning(i.slug, p);
  }

  /** A prepared preview passes the publisher's own validation, with the approved inputs. */
  lemma DraftIsValid(q: Request, i: Inputs, e: Inputs, entries: Entries, merged: Merged)
    requires Validate(q.files, q.repo, q.settings.bases) == Accepted(i) && Listed(q)
    requires MergeTrees(SidesOf(q, i, entries), q.order) == Ok(merged)
    requires Validate(merged.files, q.repo, q.settings.bases) == Accepted(e) && SameCluster(e, i)
    ensures merged.files.Keys == YamlPaths(i.slug)
    ensures Validate(Approved(q, i, e, merged.files.Keys, entries), q.repo, q.settings.bases) == Accepted(e)
  {
    hide Validate, RenderFile, RenderTree, YamlPaths, KnownPaths, MergedAt, Semantic, CheckPaths, Approved;
    MergedKeys(q, i, entries);
    AcceptedIff(merged.files, q.repo, q.settings.bases, e);
    RenderedKeys(q.repo, q.settings.bases, e);
    var files := Approved(q, i, e, merged.files.Keys, entries);
    ApprovedKeys(q, i, e, entries);
    ApprovedPaths(files, e.slug);
    forall p | p in files
      ensures p in KnownPaths(e.slug) && files[p] == RenderFile(q.repo, q.settings.bases, e, p)
      ensures IsYaml(p) ==> Semantic(files[p]).Some?
    {
      ApprovedFile(q, i, e, entries, p);
      YamlPathsMeaning(e.slug, p);
      if IsYaml(p) {
        assert p in merged.files;
        assert Semantic(merged.files[p]).Some?;
      }
    }
    assert Matches(files, RenderTree(q.repo, q.settings.bases, e).value);
    AcceptedIff(files, q.repo, q.settings.bases, e);
  }

  lemma ApprovedKeys(q: Request, i: Inputs, e: Inputs, entries: Entries)
    requires q.files.Keys <= KnownPaths(i.slug)
    ensures YamlPaths(i.slug) <= Approved(q, i, e, YamlPaths(i.slug), entries).Keys <= KnownPaths(i.slug)
  {
    hide RenderFile, YamlPaths, KnownPaths;
    forall p | p in Approved(q, i, e, YamlPaths(i.slug), entries) ensures p in KnownPaths(i.slug) {
      YamlPathsMeaning(i.slug, p);
    }
  }

  lemma ApprovedPaths(files: Tree, slug: string)
    requires YamlPaths(slug) <= files.Keys <= KnownPaths(slug) && ValidSlug(slug)
    ensures CheckPaths(files) == Cluster(slug)
  {
    hide YamlPaths, KnownPaths, ValidSlug;
    YamlPathsMeaning(slug, Apps(slug, ArgoCd));
    assert Apps(slug, ArgoCd) in files;
    forall p | p in files && (p.Ingress? || p.Apps?) ensures p.cluster == slug {
      YamlPathsMeaning(slug, p);
    }
    assert Clusters(files) == {slug};
    KnownCount(slug);
    SubsetSize(files.Keys, KnownPaths(slug));
    assert |files| == |files.Keys|;
  }

  /** What one prepared preview holds. */
  lemma DraftFiles(q: Request, head: Option<Commit>, built: bool, later: Option<Commit>)
    returns (i: Inputs, e: Inputs, merged: Merged)
    requires Prepare(q, head, built, later).Ok? && Listed(q)
    ensures Validate(q.files, q.repo, q.settings.bases) == Accepted(i) && SameCluster(e, i)
    ensures MergeTrees(SidesOf(q, i, EntriesAt(head)), q.order) == Ok(merged)
    ensures merged.files.Keys == YamlPaths(i.slug)
    ensures Validate(merged.files, q.repo, q.settings.bases) == Accepted(e)
    ensures Prepare(q, head, built, later).value.files
         == Approved(q, i, e, YamlPaths(i.slug), EntriesAt(head))
    ensures Validate(Prepare(q, head, built, later).value.files, q.repo, q.settings.bases) == Accepted(e)
  {
    hide Prepare, Validate, MergeTrees, SidesOf, Approved, YamlPaths;
    var pin;
    i, e, pin, merged := Prepared(q, head, built, later);
    DraftIsValid(q, i, e, EntriesAt(head), merged);
  }

  /** Every approved manifest means what the merge took for it. */
  lemma ApprovedMeaning(q: Request, i: Inputs, e: Inputs, entries: Entries, merged: Merged, p: Path)
    requires Validate(merged.files, q.repo, q.settings.bases) == Accepted(e) && SameCluster(e, i)
    requires merged.files.Keys == YamlPaths(i.slug) && p in YamlPaths(i.slug)
    ensures p in Approved(q, i, e, YamlPaths(i.slug), entries)
    ensures Semantic(Approved(q, i, e, YamlPaths(i.slug), entries)[p]) == Semantic(merged.files[p])
    ensures Semantic(merged.files[p]).Some?
  {
    hide Validate, RenderFile, RenderTree, YamlPaths, KnownPaths, Semantic, CheckPaths;
    AcceptedIff(merged.files, q.repo, q.settings.bases, e);
    RenderedKeys(q.repo, q.settings.bases, e);
    YamlPathsMeaning(i.slug, p);
    ApprovedFile(q, i, e, entries, p);
    assert RenderTree(q.repo, q.settings.bases, e).value[p] == RenderFile(q.repo, q.settings.bases, e, p);
  }

  /** Neither side of a merge is lost on the way to the preview: for every manifest with a baseline,
      a change of meaning made in the repository, or in the proposal, is what the preview approves. */
  lemma PreviewKeepsBoth(q: Request, head: Option<Commit>, built: bool, later: Option<Commit>, p: Path)
    requires Prepare(q, head, built, later).Ok? && Listed(q)
    requires p in q.files && IsYaml(p) && p in q.baseline
    ensures p in EntriesAt(head) && EntriesAt(head)[p].Blob?
    ensures p in Prepare(q, head, built, later).value.files
    ensures var now := EntriesAt(head)[p].content;
            var approved := Prepare(q, head, built, later).value.files[p];
            && (Changed(now, q.baseline[p]) ==> Semantic(approved) == Semantic(now))
            && (Changed(q.files[p], q.baseline[p]) ==> Semantic(approved) == Semantic(q.files[p]))
  {
    hide Prepare, Validate, RenderFile, RenderTree, YamlPaths, KnownPaths, Semantic, MergeFile, Approved, CheckPaths;
    var i, e, merged := DraftFiles(q, head, built, later);
    AcceptedIff(q.files, q.repo, q.settings.bases, i);
    RenderedKeys(q.repo, q.settings.bases, i);
    CheckedPaths(q.files);
    ApprovedMeaning(q, i, e, EntriesAt(head), merged, p);
    var s := SidesOf(q, i, EntriesAt(head));
    assert s.proposed[p] == RenderTree(q.repo, q.settings.bases, i).value[p];
    assert ChoiceAt(s, p).Take? && merged.files[p] == ChoiceAt(s, p).content;
    NeitherSideLost(s.proposed[p], q.baseline[p], Lookup(s.current, p), q.adopt);
  }

  // ---- publishing, recording, and previewing again ----

  /** A tree that holds what a preview approved: every manifest in meaning, and the pinned bases. */
  ghost predicate Holds(entries: Entries, d: Draft) {
    && ExistingBases(entries, d.bases) == Ok(Some(d.revision))
    && forall p | p in d.files && IsYaml(p) ::
         p in entries && entries[p].Blob? && Semantic(entries[p].content).Some?
         && Semantic(entries[p].content) == Semantic(d.files[p])
  }

  /** It holds them letter by letter, and no generated file is missing. */
  ghost predicate HoldsExactly(entries: Entries, d: Draft, files: set<Path>) {
    && (forall p | p in d.files && IsYaml(p) :: p in entries && entries[p] == Blob(d.files[p]))
    && forall p :: p in files ==> p in entries
  }

  /** The request of the next preview: the recorded publication is its baseline, and its contact is
      the published one.  Nothing else changed. */
  function NextRequest(q: Request, d: Draft, e: Inputs, order: seq<Path>, adopt: bool): Request
    requires RenderTree(q.repo, q.settings.bases, e).Some?
  {
    Request(q.repo, RenderTree(q.repo, q.settings.bases, e).value, order, d.files, q.settings, adopt)
  }

  /** Where the baseline and the proposal agree exactly, the merge takes them. */
  lemma Settled(content: Content, now: Content, adopt: bool)
    requires Semantic(now).Some? && Semantic(now) == Semantic(content)
    ensures MergeFile(content, Some(content), Some(now), adopt) == Take(content, false)
  {
    hide Semantic;
  }

  lemma SettledTree(s: Sides, order: seq<Path>)
    requires forall p | p in order && p in s.proposed && IsYaml(p) ::
               p in s.baseline && s.baseline[p] == s.proposed[p] && p in s.current
               && Semantic(s.current[p]).Some? && Semantic(s.current[p]) == Semantic(s.proposed[p])
    ensures MergeTrees(s, order)
         == Ok(Merged(map p | p in order && p in s.proposed && IsYaml(p) :: s.proposed[p], false))
  {
    hide Semantic, MergeFile, IsYaml;
    forall p | p in order && p in s.proposed && IsYaml(p)
      ensures ChoiceAt(s, p) == Take(s.proposed[p], false)
    {
      Settled(s.proposed[p], s.current[p], s.adopt);
    }
    assert MergedAt(s, order).files == map p | p in order && p in s.proposed && IsYaml(p) :: s.proposed[p];
  }

  /** One manifest of the next merge: proposed and baseline agree, and main means the same. */
  lemma NextSideAt(q: Request, i: Inputs, d: Draft, e: Inputs, order: seq<Path>, adopt: bool,
                   before: Entries, entries: Entries, p: Path)
    requires RenderTree(q.repo, q.settings.bases, e).Some? && SameCluster(e, i)
    requires d.files == Approved(q, i, e, YamlPaths(i.slug), before) && Holds(entries, d)
    requires p in RenderTree(q.repo, q.settings.bases, e).value && IsYaml(p)
    ensures var s := SidesOf(NextRequest(q, d, e, order, adopt), e, entries);
            && p in YamlPaths(e.slug) && p in s.proposed
            && s.proposed[p] == RenderFile(q.repo, q.settings.bases, e, p)
            && p in s.baseline && s.baseline[p] == s.proposed[p] && p in s.current
            && Semantic(s.current[p]).Some? && Semantic(s.current[p]) == Semantic(s.proposed[p])
  {
    hide RenderFile, RenderTree, YamlPaths, KnownPaths, Semantic, Approved, Holds;
    RenderedKeys(q.repo, q.settings.bases, e);
    YamlPathsMeaning(e.slug, p);
    ApprovedHas(q, i, e, before, p);
    ApprovedFile(q, i, e, before, p);
    HoldsAt(entries, d, p);
  }

  /** What the next preview proposes is what the last one approved. */
  lemma NextSides(q: Request, i: Inputs, d: Draft, e: Inputs, order: seq<Path>, adopt: bool,
                  before: Entries, entries: Entries)
    requires RenderTree(q.repo, q.settings.bases, e).Some? && SameCluster(e, i)
    requires d.files == Approved(q, i, e, YamlPaths(i.slug), before) && Holds(entries, d)
    requires forall p :: p in order <==> p in RenderTree(q.repo, q.settings.bases, e).value
    ensures var s := SidesOf(NextRequest(q, d, e, order, adopt), e, entries);
            && MergeTrees(s, order).Ok?
            && !MergeTrees(s, order).value.adopting
            && MergeTrees(s, order).value.files
               == (map p | p in YamlPaths(e.slug) :: RenderFile(q.repo, q.settings.bases, e, p))
  {
    hide RenderFile, RenderTree, YamlPaths, KnownPaths, Semantic, Approved, MergeTrees, Holds, SidesOf;
    var s := SidesOf(NextRequest(q, d, e, order, adopt), e, entries);
    forall p | p in order && p in s.proposed && IsYaml(p)
      ensures p in YamlPaths(e.slug) && s.proposed[p] == RenderFile(q.repo, q.settings.bases, e, p)
      ensures p in s.baseline && s.baseline[p] == s.proposed[p] && p in s.current
              && Semantic(s.current[p]).Some? && Semantic(s.current[p]) == Semantic(s.proposed[p])
    {
      NextSideAt(q, i, d, e, order, adopt, before, entries, p);
    }
    SettledTree(s, order);
    RenderedKeys(q.repo, q.settings.bases, e);
    forall p | p in YamlPaths(e.slug) ensures p in order && p in s.proposed && IsYaml(p) {
      YamlPathsMeaning(e.slug, p);
      NextSideAt(q, i, d, e, order, adopt, before, entries, p);
    }
    SameManifests(order, s.proposed,
                  map p | p in YamlPaths(e.slug) :: RenderFile(q.repo, q.settings.bases, e, p));
  }

  lemma SameManifests(order: seq<Path>, proposed: Tree, target: Tree)
    requires forall p :: p in order && p in proposed && IsYaml(p) <==> p in target
    requires forall p | p in target :: p in proposed && proposed[p] == target[p]
    ensures (map p | p in order && p in proposed && IsYaml(p) :: proposed[p]) == target
  {
  }

  lemma HoldsAt(entries: Entries, d: Draft, p: Path)
    requires Holds(entries, d) && p in d.files && IsYaml(p)
    ensures p in entries && entries[p].Blob? && Semantic(entries[p].content).Some?
    ensures Semantic(entries[p].content) == Semantic(d.files[p])
  {
    hide Semantic;
  }

  lemma ApprovedHas(q: Request, i: Inputs, e: Inputs, entries: Entries, p: Path)
    requires p in YamlPaths(i.slug)
    ensures p in Approved(q, i, e, YamlPaths(i.slug), entries)
  {
    hide YamlPaths, RenderFile;
  }

  /** The generated manifests alone, or with any of the other generated files, are accepted. */
  lemma GeneratedAccepted(repo: string, bases: string, e: Inputs, accepted: Tree, files: Tree)
    requires Validate(accepted, repo, bases) == Accepted(e)
    requires forall p :: p in accepted && IsYaml(p) ==> accepted[p] == RenderFile(repo, bases, e, p)
    requires YamlPaths(e.slug) <= files.Keys <= KnownPaths(e.slug)
    requires forall p | p in files :: files[p] == RenderFile(repo, bases, e, p)
    ensures Validate(files, repo, bases) == Accepted(e)
  {
    hide Validate, RenderFile, RenderTree, YamlPaths, KnownPaths, Semantic, CheckPaths;
    AcceptedIff(accepted, repo, bases, e);
    RenderedKeys(repo, bases, e);
    CheckedPaths(accepted);
    ApprovedPaths(files, e.slug);
    forall p | p in files && IsYaml(p) ensures Semantic(files[p]).Some? {
      YamlPathsMeaning(e.slug, p);
      assert p in accepted;
    }
    AcceptedIff(files, repo, bases, e);
  }

  lemma NextProposal(q: Request, i: Inputs, d: Draft, e: Inputs, order: seq<Path>, adopt: bool, before: Entries)
    requires SameCluster(e, i) && q.files.Keys <= KnownPaths(i.slug)
    requires d.files == Approved(q, i, e, YamlPaths(i.slug), before)
    requires Validate(d.files, q.repo, q.settings.bases) == Accepted(e)
    ensures RenderTree(q.repo, q.settings.bases, e).Some?
    ensures Proposal(NextRequest(q, d, e, order, adopt)) == Ok(e)
  {
    hide Validate, RenderFile, RenderTree, YamlPaths, KnownPaths, Approved, PlainUrl, CheckPaths, Matches;
    AcceptedIff(d.files, q.repo, q.settings.bases, e);
    RenderedKeys(q.repo, q.settings.bases, e);
    forall p | p in d.files && IsYaml(p) ensures d.files[p] == RenderFile(q.repo, q.settings.bases, e, p) {
      ApprovedFile(q, i, e, before, p);
    }
    forall p | p in YamlPaths(e.slug) ensures p in KnownPaths(e.slug) {
      YamlPathsMeaning(e.slug, p);
    }
    var tree := RenderTree(q.repo, q.settings.bases, e).value;
    GeneratedAccepted(q.repo, q.settings.bases, e, d.files, tree);
    ApprovedKeys(q, i, e, before);
  }

  /** The draft of the next preview. */
  function NextDraft(q: Request, d: Draft, e: Inputs, order: seq<Path>, adopt: bool, main: Commit): Draft
    requires RenderTree(q.repo, q.settings.bases, e).Some?
  {
    DraftOf(NextRequest(q, d, e, order, adopt), e, e, Some(main), Some(d.revision),
            Merged(map p | p in YamlPaths(e.slug) :: RenderFile(q.repo, q.settings.bases, e, p), false))
  }

  lemma NextReconciles(q: Request, i: Inputs, d: Draft, e: Inputs, order: seq<Path>, adopt: bool,
                       before: Entries, main: Commit)
    requires SameCluster(e, i) && d.bases == q.settings.bases
    requires d.files == Approved(q, i, e, YamlPaths(i.slug), before)
    requires Validate(d.files, q.repo, q.settings.bases) == Accepted(e)
    requires RenderTree(q.repo, q.settings.bases, e).Some?
    requires forall p :: p in order <==> p in RenderTree(q.repo, q.settings.bases, e).value
    requires Safe(main.entries, e.slug) && Holds(main.entries, d)
    ensures Reconcile(NextRequest(q, d, e, order, adopt), e, Some(main))
         == Ok(NextDraft(q, d, e, order, adopt, main))
  {
    hide Validate, RenderFile, RenderTree, YamlPaths, KnownPaths, Approved, MergeTrees, SidesOf, Safe,
         ExistingBases, DraftOf, Semantic;
    NextSides(q, i, d, e, order, adopt, before, main.entries);
    var files := map p | p in YamlPaths(e.slug) :: RenderFile(q.repo, q.settings.bases, e, p);
    forall p | p in d.files && IsYaml(p) ensures d.files[p] == RenderFile(q.repo, q.settings.bases, e, p) {
      ApprovedFile(q, i, e, before, p);
    }
    forall p | p in YamlPaths(e.slug) ensures p in KnownPaths(e.slug) {
      YamlPathsMeaning(e.slug, p);
    }
    GeneratedAccepted(q.repo, q.settings.bases, e, d.files, files);
  }

  /** One manifest of the next preview. */
  lemma NextFile(q: Request, i: Inputs, d: Draft, e: Inputs, order: seq<Path>, adopt: bool,
                 before: Entries, main: Commit, p: Path)
    requires SameCluster(e, i) && RenderTree(q.repo, q.settings.bases, e).Some?
    requires d.files == Approved(q, i, e, YamlPaths(i.slug), before)
    requires Holds(main.entries, d) && p in YamlPaths(e.slug)
    ensures var again := NextRequest(q, d, e, order, adopt);
            var files := Approved(again, e, e, YamlPaths(e.slug), main.entries);
            var current := SidesOf(again, e, main.entries).current;
            && IsYaml(p) && p in files && p in d.files && files[p] == d.files[p]
            && p in current && p in main.entries && main.entries[p] == Blob(current[p])
            && Semantic(current[p]) == Semantic(files[p])
  {
    hide RenderFile, RenderTree, YamlPaths, KnownPaths, ExistingBases, Semantic, Approved;
    var again := NextRequest(q, d, e, order, adopt);
    YamlPathsMeaning(e.slug, p);
    ApprovedHas(q, i, e, before, p);
    ApprovedFile(q, i, e, before, p);
    ApprovedHas(again, e, e, main.entries, p);
    ApprovedFile(again, e, e, main.entries, p);
  }

  /** The other files of the next preview are those main lacks. */
  lemma NextOthers(q: Request, d: Draft, e: Inputs, order: seq<Path>, adopt: bool, main: Commit, p: Path)
    requires RenderTree(q.repo, q.settings.bases, e).Some?
    ensures var files := Approved(NextRequest(q, d, e, order, adopt), e, e, YamlPaths(e.slug), main.entries);
            && (p in files && IsYaml(p) ==> p in YamlPaths(e.slug))
            && (p in files && !IsYaml(p) <==>
                  p in RenderTree(q.repo, q.settings.bases, e).value && !IsYaml(p) && p !in main.entries)
            && (p in RenderTree(q.repo, q.settings.bases, e).value && IsYaml(p) ==> p in YamlPaths(e.slug))
            && (p in d.files && IsYaml(p) && p.cluster == e.slug ==> p in YamlPaths(e.slug))
  {
    hide RenderFile, RenderTree, KnownPaths, YamlPaths;
    RenderedKeys(q.repo, q.settings.bases, e);
    YamlPathsMeaning(e.slug, p);
  }

  /** The next draft changes no meaning, approves the same manifests, keeps the pinned bases, and has
      nothing to do exactly when main already holds every generated file letter by letter. */
  lemma NextDraftIsEmpty(q: Request, i: Inputs, d: Draft, e: Inputs, order: seq<Path>, adopt: bool,
                         before: Entries, main: Commit)
    requires SameCluster(e, i) && RenderTree(q.repo, q.settings.bases, e).Some?
    requires d.files == Approved(q, i, e, YamlPaths(i.slug), before)
    requires Holds(main.entries, d)
    ensures var tree := RenderTree(q.repo, q.settings.bases, e).value;
            var next := NextDraft(q, d, e, order, adopt, main);
            && next.diff == {} && next.revision == d.revision
            && (forall p | p in YamlPaths(e.slug) :: p in next.files && p in d.files && next.files[p] == d.files[p])
            && (next.action == Noop <==> HoldsExactly(main.entries, d, tree.Keys))
            && next.action in {Noop, Update}
  {
    hide RenderFile, RenderTree, YamlPaths, KnownPaths, ExistingBases, Semantic, Approved, Holds, HoldsExactly,
         SidesOf, Rewrites;
    var again := NextRequest(q, d, e, order, adopt);
    var files := Approved(again, e, e, YamlPaths(e.slug), main.entries);
    var current := SidesOf(again, e, main.entries).current;
    forall p | p in YamlPaths(e.slug)
      ensures IsYaml(p) && p in files && p in d.files && files[p] == d.files[p]
      ensures p in current && p in main.entries && main.entries[p] == Blob(current[p])
      ensures Semantic(current[p]) == Semantic(files[p])
    {
      NextFile(q, i, d, e, order, adopt, before, main, p);
    }
    forall p ensures p in files && !IsYaml(p) <==>
                       p in RenderTree(q.repo, q.settings.bases, e).value && !IsYaml(p) && p !in main.entries
             ensures p in files && IsYaml(p) ==> p in YamlPaths(e.slug)
             ensures p in RenderTree(q.repo, q.settings.bases, e).value && IsYaml(p) ==> p in YamlPaths(e.slug)
    {
      NextOthers(q, d, e, order, adopt, main, p);
    }
    forall p | p in d.files && IsYaml(p) ensures p in YamlPaths(e.slug) {
      ApprovedManifest(q, i, e, before, p);
    }
    NothingToDo(main.entries, current, files, d, YamlPaths(e.slug), RenderTree(q.repo, q.settings.bases, e).value.Keys);
    YamlPathsMeaning(e.slug, Apps(e.slug, ArgoCd));
    assert Apps(e.slug, ArgoCd) in current;
    NextShape(q, d, e, order, adopt, main);
    assert Diff(current, files) == {};
  }

  lemma ApprovedManifest(q: Request, i: Inputs, e: Inputs, entries: Entries, p: Path)
    requires p in Approved(q, i, e, YamlPaths(i.slug), entries) && IsYaml(p)
    ensures p in YamlPaths(i.slug)
  {
    hide RenderFile, YamlPaths;
  }

  lemma NextShape(q: Request, d: Draft, e: Inputs, order: seq<Path>, adopt: bool, main: Commit)
    requires RenderTree(q.repo, q.settings.bases, e).Some?
    ensures var again := NextRequest(q, d, e, order, adopt);
            var files := Approved(again, e, e, YamlPaths(e.slug), main.entries);
            var current := SidesOf(again, e, main.entries).current;
            var next := NextDraft(q, d, e, order, adopt, main);
            && next.files == files && next.revision == d.revision && next.diff == Diff(current, files)
            && next.action == if !Rewrites(main.entries, current, files) then Noop
                              else if current == map[] then Add else Update
  {
    hide RenderFile, RenderTree, YamlPaths, Approved, SidesOf, Diff, Rewrites, Formatting;
    assert (map p | p in YamlPaths(e.slug) :: RenderFile(q.repo, q.settings.bases, e, p)).Keys == YamlPaths(e.slug);
  }

  /** A new preview rewrites something exactly when main does not hold every file letter by letter. */
  lemma NothingToDo(entries: Entries, current: Tree, files: Tree, d: Draft, manifests: set<Path>, all: set<Path>)
    requires forall p | p in manifests :: p in files && p in d.files && files[p] == d.files[p]
                                          && p in current && p in entries && entries[p] == Blob(current[p])
    requires forall p | p in files :: IsYaml(p) ==> p in manifests
    requires forall p | p in d.files :: IsYaml(p) ==> p in manifests
    requires forall p | p in manifests :: IsYaml(p)
    requires forall p | p in all :: IsYaml(p) ==> p in manifests
    requires forall p :: p in files && !IsYaml(p) <==> p in all && !IsYaml(p) && p !in entries
    ensures Rewrites(entries, current, files) <==> !HoldsExactly(entries, d, all)
  {
    hide IsYaml;
    if Rewrites(entries, current, files) {
      var p :| p in files && (p !in entries || (IsYaml(p) && Lookup(current, p) != Some(files[p])));
      assert !HoldsExactly(entries, d, all);
    }
    if !HoldsExactly(entries, d, all) {
      if p :| p in all && p !in entries {
        assert p in files;
      } else {
        var p :| p in d.files && IsYaml(p) && !(p in entries && entries[p] == Blob(d.files[p]));
        assert Lookup(current, p) != Some(files[p]);
      }
    }
  }

  /** Publishing converges.  Once main holds what a preview approved, and the publication is recorded,
      the next preview with nothing else changed has an empty semantic diff, approves the very same
      manifests and bases, and has nothing to do exactly when main holds the generated text -- also
      when the publication kept a manual edit of the contact. */
  lemma PublishThenPreviewConverges(q: Request, head: Option<Commit>, built: bool, later: Option<Commit>,
                                    e: Inputs, order: seq<Path>, adopt: bool, main: Commit)
    requires Prepare(q, head, built, later).Ok? && Listed(q)
    requires var d := Prepare(q, head, built, later).value;
             && Validate(d.files, d.repo, d.bases) == Accepted(e)
             && Safe(main.entries, d.slug) && Holds(main.entries, d)
    requires RenderTree(q.repo, q.settings.bases, e).Some? ==>
               forall p :: p in order <==> p in RenderTree(q.repo, q.settings.bases, e).value
    ensures RenderTree(q.repo, q.settings.bases, e).Some?
    ensures var d := Prepare(q, head, built, later).value;
            var tree := RenderTree(q.repo, q.settings.bases, e).value;
            var r := Prepare(NextRequest(q, d, e, order, adopt), Some(main), true, Some(main));
            && r.Ok? && r.value.diff == {} && r.value.revision == d.revision
            && (forall p | p in YamlPaths(e.slug) :: p in r.value.files && p in d.files && r.value.files[p] == d.files[p])
            && (r.value.action == Noop <==> HoldsExactly(main.entries, d, tree.Keys))
            && r.value.action in {Noop, Update}
  {
    hide Validate, RenderFile, RenderTree, YamlPaths, KnownPaths, Approved, MergeTrees, SidesOf, Safe,
         ExistingBases, Semantic, Proposal, Reconcile, NextDraft, NextRequest, Holds, HoldsExactly, CheckPaths;
    var d := Prepare(q, head, built, later).value;
    var i, e', merged := DraftFiles(q, head, built, later);
    DraftPlace(q, head, built, later);
    assert e' == e;
    AcceptedIff(q.files, q.repo, q.settings.bases, i);
    CheckedPaths(q.files);
    NextProposal(q, i, d, e, order, adopt, EntriesAt(head));
    NextReconciles(q, i, d, e, order, adopt, EntriesAt(head), main);
    NextDraftIsEmpty(q, i, d, e, order, adopt, EntriesAt(head), main);
  }

  lemma DraftPlace(q: Request, head: Option<Commit>, built: bool, later: Option<Commit>)
    requires Prepare(q, head, built, later).Ok?
    ensures var d := Prepare(q, head, built, later).value;
            && d.repo == q.repo && d.bases == q.settings.bases
            && Validate(q.files, q.repo, q.settings.bases).Accepted?
            && d.slug == Validate(q.files, q.repo, q.settings.bases).inputs.slug
  {
    hide Validate, SidesOf, MergeTrees, Safe, ExistingBases, Approved;
    var i, e, pin, merged := Prepared(q, head, built, later);
  }

  // ---- the first preview ----

  /** The request of a first preview: a whole generated tree, and nothing published before. */
  function FirstRequest(repo: string, settings: Settings, i: Inputs, order: seq<Path>): Request
    requires RenderTree(repo, settings.bases, i).Some?
  {
    Request(repo, RenderTree(repo, settings.bases, i).value, order, map[], settings, false)
  }

  lemma FreshMerge(s: Sides, order: seq<Path>)
    requires s.current == map[] && s.baseline == map[]
    ensures MergeTrees(s, order)
         == Ok(Merged(map p | p in order && p in s.proposed && IsYaml(p) :: s.proposed[p], false))
  {
    hide Semantic, IsYaml;
    assert forall p | p in order && p in s.proposed && IsYaml(p) :: ChoiceAt(s, p) == Take(s.proposed[p], false);
    assert MergedAt(s, order).files == map p | p in order && p in s.proposed && IsYaml(p) :: s.proposed[p];
  }

  lemma FirstMerge(repo: string, settings: Settings, i: Inputs, order: seq<Path>)
    requires RenderTree(repo, settings.bases, i).Some?
    requires forall p :: p in order <==> p in RenderTree(repo, settings.bases, i).value
    ensures MergeTrees(SidesOf(FirstRequest(repo, settings, i, order), i, map[]), order)
         == Ok(Merged(map p | p in YamlPaths(i.slug) :: RenderFile(repo, settings.bases, i, p), false))
  {
    hide RenderFile, RenderTree, YamlPaths, KnownPaths, Semantic, MergeTrees;
    var s := SidesOf(FirstRequest(repo, settings, i, order), i, map[]);
    RenderedKeys(repo, settings.bases, i);
    FreshMerge(s, order);
    forall p ensures p in order && p in s.proposed && IsYaml(p) <==> p in YamlPaths(i.slug) {
      YamlPathsMeaning(i.slug, p);
    }
    SameManifests(order, s.proposed, map p | p in YamlPaths(i.slug) :: RenderFile(repo, settings.bases, i, p));
  }

  /** A first preview of an empty repository always succeeds: it would initialise the repository with
      exactly the generated tree, and every manifest is new. */
  lemma FirstPreviewSucceeds(repo: string, settings: Settings, i: Inputs, order: seq<Path>)
    requires RenderTree(repo, settings.bases, i).Some? && Canonical(repo).Some? && settings.revision.Some?
    requires forall p :: p in order <==> p in RenderTree(repo, settings.bases, i).value
    ensures var r := Prepare(FirstRequest(repo, settings, i, order), None, true, None);
            && r.Ok? && r.value.action == Initialize && r.value.diff == YamlPaths(i.slug)
            && r.value.files == RenderTree(repo, settings.bases, i).value
            && r.value.revision == settings.revision.value
  {
    hide Validate, RenderFile, RenderTree, YamlPaths, KnownPaths, Semantic, MergeTrees, SidesOf, Approved, Canonical,
         PlainUrl;
    var q := FirstRequest(repo, settings, i, order);
    var tree := RenderTree(repo, settings.bases, i).value;
    ValidateRendered(repo, settings.bases, i);
    RenderedKeys(repo, settings.bases, i);
    FirstMerge(repo, settings, i, order);
    var manifests := map p | p in YamlPaths(i.slug) :: RenderFile(repo, settings.bases, i, p);
    forall p | p in YamlPaths(i.slug) ensures p in KnownPaths(i.slug) {
      YamlPathsMeaning(i.slug, p);
    }
    GeneratedAccepted(repo, settings.bases, i, tree, manifests);
    FirstFiles(repo, settings, i, order);
    assert manifests.Keys == YamlPaths(i.slug);
  }

  lemma FirstFiles(repo: string, settings: Settings, i: Inputs, order: seq<Path>)
    requires RenderTree(repo, settings.bases, i).Some?
    ensures var q := FirstRequest(repo, settings, i, order);
            && Approved(q, i, i, YamlPaths(i.slug), map[]) == RenderTree(repo, settings.bases, i).value
            && SidesOf(q, i, map[]).current == map[]
            && Diff(map[], RenderTree(repo, settings.bases, i).value) == YamlPaths(i.slug)
  {
    hide RenderFile, RenderTree, YamlPaths, KnownPaths, Semantic;
    var q := FirstRequest(repo, settings, i, order);
    var tree := RenderTree(repo, settings.bases, i).value;
    RenderedKeys(repo, settings.bases, i);
    var files := Approved(q, i, i, YamlPaths(i.slug), map[]);
    forall p ensures p in YamlPaths(i.slug) <==> p in tree && IsYaml(p) {
      YamlPathsMeaning(i.slug, p);
    }
    assert files.Keys == tree.Keys;
    assert forall p | p in files :: files[p] == tree[p];
  }
}
