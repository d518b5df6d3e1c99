/** What the publisher reads out of a customer repository's tree, and the errors it raises. */
module Git {
  import opened Options
  import opened Manifests

  /** The error codes of a publication. */
  datatype Code = BadUrl | BadInput | BadManifests | IncompatibleTree | BadBaseline | BadRevision
                | Unsafe | AdoptionRequired | IncompatibleAdoption | ManualConflict | StalePreview
                | BuildFailed | BadPreview | Unconfirmed | PushFailed | Unavailable | NotReady

  datatype Outcome<+T> = Ok(value: T) | Err(code: Code)

  /** An entry of a tree: an ordinary file, a gitlink, or something else.  Directories are listed
      only where they occupy the path of a file. */
  datatype Entry = Blob(content: Content) | Link(revision: string) | Executable(content: Content)
                 | Symlink(target: string) | Folder

  type Entries = map<Path, Entry>

  function Ancestors(slug: string): set<Path> {
    {Foreign("clusters"), Foreign("clusters/" + slug), Foreign("clusters/" + slug + "/addons"),
     Foreign("clusters/" + slug + "/addons/argocd-ingress"), Foreign("clusters/" + slug + "/argocd-apps")}
  }

  /** Managed paths are ordinary files in ordinary directories, and the bases are the only gitlink. */
  predicate Safe(entries: Entries, slug: string) {
    && (forall p | p in Ancestors(slug) :: p in entries ==> entries[p].Folder?)
    && (forall p | p in KnownPaths(slug) :: p in entries ==> entries[p].Blob?)
    && (forall p | p in entries :: p == Bases <==> entries[p].Link?)
  }

  /** The pinned revision of the bases, if the repository has them. */
  function ExistingBases(entries: Entries, bases: string): Outcome<Option<string>> {
    if (Gitmodules in entries) != (Bases in entries) then Err(Unsafe)
    else if Gitmodules !in entries then Ok(None)
    else
      var modules, link := entries[Gitmodules], entries[Bases];
      if modules.Blob? && modules.content.Modules? && modules.content.url == bases && link.Link?
      then Ok(Some(link.revision)) else Err(Unsafe)
  }

  /** The manifests a repository holds at some paths. */
  function ReadManifests(entries: Entries, paths: set<Path>): Tree {
    map p | p in paths && IsYaml(p) && p in entries && entries[p].Blob? :: entries[p].content
  }

  function Lookup<K, V>(m: map<K, V>, k: K): Option<V> {
    if k in m then Some(m[k]) else None
  }

  /** A commit: its parents, the tree it holds, and everything else it records.  Two commits are the
      same object exactly when all of that is the same. */
  datatype Commit = Commit(parents: seq<Commit>, entries: Entries, note: string)

  function EntriesAt(head: Option<Commit>): Entries {
    if head.None? then map[] else head.value.entries
  }
}
