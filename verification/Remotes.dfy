/** The customer's repository as other writers and late pushes leave it.

    Its main branch moves only forward: a push is accepted when the branch it would replace is an
    ancestor of what it brings.  Commits are structural values, so history is acyclic.
 */
module Remotes {
  import opened Options
  import opened Manifests
  import opened Git
  import opened Preview

  // ---- history ----

  function Ancestry(c: Commit): set<Commit> {
    {c} + AncestryOf(c.parents)
  }

  function AncestryOf(cs: seq<Commit>): set<Commit> {
    if cs == [] then {} else Ancestry(cs[0]) + AncestryOf(cs[1..])
  }

  function Weight(c: Commit): nat {
    1 + WeightOf(c.parents)
  }

  function WeightOf(cs: seq<Commit>): nat {
    if cs == [] then 0 else Weight(cs[0]) + WeightOf(cs[1..])
  }

  lemma {:induction false} AncestorsWeighLess(c: Commit, a: Commit)
    requires a in Ancestry(c)
    ensures Weight(a) <= Weight(c) && (a != c ==> Weight(a) < Weight(c))
  {
    if a != c {
      AncestorsOfWeigh(c.parents, a);
    }
  }

  lemma {:induction false} AncestorsOfWeigh(cs: seq<Commit>, a: Commit)
    requires a in AncestryOf(cs)
    ensures Weight(a) <= WeightOf(cs)
  {
    if a in Ancestry(cs[0]) {
      AncestorsWeighLess(cs[0], a);
    } else {
      AncestorsOfWeigh(cs[1..], a);
    }
  }

  lemma {:induction false} AncestryTransitive(c: Commit, a: Commit)
    requires a in Ancestry(c)
    ensures Ancestry(a) <= Ancestry(c)
  {
    if a != c {
      AncestryOfTransitive(c.parents, a);
    }
  }

  lemma {:induction false} AncestryOfTransitive(cs: seq<Commit>, a: Commit)
    requires a in AncestryOf(cs)
    ensures Ancestry(a) <= AncestryOf(cs)
  {
    if a in Ancestry(cs[0]) {
      AncestryTransitive(cs[0], a);
    } else {
      AncestryOfTransitive(cs[1..], a);
    }
  }

  // ---- what a publication of a preview commits ----

  /** Existing READMEs and submodule configuration are never written. */
  function Written(d: Draft, entries: Entries): set<Path> {
    set p | p in d.files && !(p in entries && (IsReadme(p) || p == Gitmodules))
  }

  function Built(d: Draft): Entries {
    var entries := EntriesAt(d.head);
    (entries + map p | p in Written(d, entries) :: Blob(d.files[p]))[Bases := Link(d.revision)]
  }

  /** The commit a publication of a preview makes; `note` is its message, author and time. */
  function Candidate(d: Draft, note: string): Commit {
    Commit(if d.head.None? then [] else [d.head.value], Built(d), note)
  }

  predicate IsCandidate(d: Draft, c: Commit) {
    c == Candidate(d, c.note)
  }

  /** The tight frame: outside the written files and the bases, the published tree is the tree it was
      made from; in particular every other cluster's files, and existing READMEs. */
  lemma BuiltFrame(d: Draft, p: Path)
    requires p != Bases && p !in Written(d, EntriesAt(d.head))
    ensures Lookup(Built(d), p) == Lookup(EntriesAt(d.head), p)
  {
  }

  lemma OtherClustersUntouched(d: Draft, p: Path)
    requires d.files.Keys <= KnownPaths(d.slug)
    requires ((p.Ingress? || p.Apps?) && p.cluster != d.slug) || p.Foreign?
             || (p in EntriesAt(d.head) && (IsReadme(p) || p == Gitmodules))
    ensures Lookup(Built(d), p) == Lookup(EntriesAt(d.head), p)
  {
    hide KnownPaths, YamlPaths;
    YamlPathsMeaning(d.slug, p);
    BuiltFrame(d, p);
  }

  lemma CandidateHistory(d: Draft, c: Commit)
    requires IsCandidate(d, c)
    ensures d.head.None? ==> Ancestry(c) == {c}
    ensures d.head.Some? ==> Ancestry(c) == {c} + Ancestry(d.head.value) && Weight(c) == 1 + Weight(d.head.value)
  {
    if d.head.Some? {
      var parents := [d.head.value];
      assert c.parents == parents && parents[1..] == [];
      assert AncestryOf(parents) == Ancestry(d.head.value) + AncestryOf(parents[1..]);
      assert WeightOf(parents) == Weight(d.head.value) + WeightOf(parents[1..]);
    }
  }

  /** No candidate is an ancestor of the very commit it is made on. */
  lemma NoCandidateBefore(d: Draft, c: Commit)
    requires IsCandidate(d, c) && d.head.Some?
    ensures c !in Ancestry(d.head.value)
  {
    CandidateHistory(d, c);
    if c in Ancestry(d.head.value) {
      AncestorsWeighLess(d.head.value, c);
    }
  }

  lemma OnlyItself(d: Draft, c: Commit, x: Commit)
    requires IsCandidate(d, c) && IsCandidate(d, x) && x in Ancestry(c)
    ensures x == c
  {
    CandidateHistory(d, c);
    if d.head.Some? {
      NoCandidateBefore(d, x);
    }
  }

  // ---- the world and its moves ----

  /** The main branch, and the pushes on their way to it. */
  datatype World = World(main: Option<Commit>, inflight: set<Commit>)

  /** One move.  `Send` is a worker of this preview pushing; `Land` and `Drop` are the server accepting
      or losing what is on its way, at any later time; `Advance` is another writer. */
  datatype Move = Send(note: string) | Land(commit: Commit) | Drop(commit: Commit) | Advance(next: Commit)

  predicate FastForward(main: Option<Commit>, c: Commit) {
    main.None? || main.value in Ancestry(c)
  }

  /** Has main ever held this commit?  Since main only moves forward, it still does. */
  predicate Holding(w: World, c: Commit) {
    w.main.Some? && c in Ancestry(w.main.value)
  }

  /** Other writers bring history of their own: they never forge a commit of this preview. */
  predicate Honest(d: Draft, w: World, next: Commit) {
    forall c | c in Ancestry(next) :: IsCandidate(d, c) ==> Holding(w, c)
  }

  /** A move that is not possible changes nothing. */
  function Apply(d: Draft, w: World, m: Move): World {
    match m
    case Send(note) => w.(inflight := w.inflight + {Candidate(d, note)})
    case Land(c) =>
      if c in w.inflight then
        World(if FastForward(w.main, c) then Some(c) else w.main, w.inflight - {c})
      else w
    case Drop(c) => w.(inflight := w.inflight - {c})
    case Advance(next) => if FastForward(w.main, next) && Honest(d, w, next) then w.(main := Some(next)) else w
  }

  function Run(d: Draft, w: World, moves: seq<Move>): World {
    if moves == [] then w else Apply(d, Run(d, w, moves[..|moves| - 1]), moves[|moves| - 1])
  }

  /** Only candidates are on their way, and main holds at most one. */
  ghost predicate Inv(d: Draft, w: World) {
    && (forall c :: c in w.inflight ==> IsCandidate(d, c))
    && (forall a, b :: Holding(w, a) && Holding(w, b) && IsCandidate(d, a) && IsCandidate(d, b) ==> a == b)
  }

  lemma ApplyInv(d: Draft, w: World, m: Move)
    requires Inv(d, w)
    ensures Inv(d, Apply(d, w, m))
  {
    hide Candidate;
    match m {
      case Send(note) => CandidateIs(d, note);
      case Land(c) =>
        if c in w.inflight && FastForward(w.main, c) {
          forall x | x in Ancestry(c) && IsCandidate(d, x) ensures x == c {
            OnlyItself(d, c, x);
          }
        }
      case Drop(c) =>
      case Advance(next) =>
    }
  }

  lemma CandidateIs(d: Draft, note: string)
    ensures IsCandidate(d, Candidate(d, note))
  {
  }

  /** A pushed candidate is on its way, and when it arrives becomes main exactly if main is still at the
      commit the preview was made on, or behind it, or has the candidate already; a lost one changes nothing.  What another writer builds on main
      becomes main. */
  lemma PushLands(d: Draft, w: World, note: string, next: Commit)
    ensures var c, sent := Candidate(d, note), Apply(d, w, Send(note));
            && c in sent.inflight && sent.main == w.main && sent.inflight >= w.inflight
            && Apply(d, sent, Land(c)).main ==
                 (if w.main.None? || w.main.value == c || (d.head.Some? && w.main.value in Ancestry(d.head.value))
                  then Some(c) else w.main)
            && Apply(d, sent, Drop(c)) == World(w.main, w.inflight - {c})
    ensures (w.main.None? || w.main.value in Ancestry(next)) && (forall c :: c in Ancestry(next) ==> !IsCandidate(d, c)) ==>
              Apply(d, w, Advance(next)) == w.(main := Some(next))
  {
    CandidateIs(d, note);
    CandidateHistory(d, Candidate(d, note));
    hide Candidate;
  }

  /** Nothing main ever held is lost. */
  lemma ApplyKeeps(d: Draft, w: World, m: Move, c: Commit)
    requires Holding(w, c)
    ensures Holding(Apply(d, w, m), c)
  {
    hide Candidate, Honest;
    if Apply(d, w, m).main != w.main {
      AncestryTransitive(Apply(d, w, m).main.value, w.main.value);
    }
  }

  lemma {:induction false} RunInv(d: Draft, w: World, moves: seq<Move>)
    requires Inv(d, w)
    ensures Inv(d, Run(d, w, moves))
  {
    if moves != [] {
      RunInv(d, w, moves[..|moves| - 1]);
      ApplyInv(d, Run(d, w, moves[..|moves| - 1]), moves[|moves| - 1]);
    }
  }

  lemma {:induction false} RunKeeps(d: Draft, w: World, moves: seq<Move>, c: Commit)
    requires Holding(w, c)
    ensures Holding(Run(d, w, moves), c)
  {
    if moves != [] {
      RunKeeps(d, w, moves[..|moves| - 1], c);
      ApplyKeeps(d, Run(d, w, moves[..|moves| - 1]), moves[|moves| - 1], c);
    }
  }

  lemma {:induction false} RunConcat(d: Draft, w: World, a: seq<Move>, b: seq<Move>)
    ensures Run(d, w, a + b) == Run(d, Run(d, w, a), b)
  {
    if b == [] {
      assert a + b == a;
    } else {
      assert (a + b)[..|a + b| - 1] == a + b[..|b| - 1];
      RunConcat(d, w, a, b[..|b| - 1]);
    }
  }

  /** A preview is accepted at most once.  From a repository that holds no commit of it, over any
      number of pushes, crashes, lost and late replies and other writers' work: a candidate that main
      held at one moment and a candidate it holds at any later moment are the same commit. */
  lemma AcceptedAtMostOnce(d: Draft, w: World, before: seq<Move>, after: seq<Move>, a: Commit, b: Commit)
    requires w.inflight == {} && forall c :: Holding(w, c) ==> !IsCandidate(d, c)
    requires IsCandidate(d, a) && Holding(Run(d, w, before), a)
    requires IsCandidate(d, b) && Holding(Run(d, w, before + after), b)
    ensures a == b
  {
    RunConcat(d, w, before, after);
    RunKeeps(d, Run(d, w, before), after, a);
    RunInv(d, w, before + after);
  }

  /** Once a candidate was accepted, main is no longer the commit the preview was made on; so a retry
      finds another head, and makes no new commit. */
  lemma AcceptedMovesOn(d: Draft, w: World, c: Commit)
    requires IsCandidate(d, c) && Holding(w, c)
    ensures w.main != d.head
  {
    if w.main == d.head {
      NoCandidateBefore(d, c);
    }
  }
}
