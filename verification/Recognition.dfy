/** The renderer and the recogniser of a cluster's tree undo each other. */
module Recognition {
  import opened Options
  import opened Addresses
  import opened Manifests

  // ---- what rendering puts where ----

  lemma RenderedDocuments(repo: string, bases: string, i: Inputs, p: Path)
    requires IsYaml(p)
    ensures Documents(RenderFile(repo, bases, i, p)) == Some(Rendered(repo, i, p))
    ensures p.Ingress? ==> Rendered(repo, i, p) == RenderedIngress(i, p.file)
    ensures p.Ingress? || p.app == AppsKustomization ==>
              forall k :: 0 <= k < |Rendered(repo, i, p)| ==> !IsApplication(Rendered(repo, i, p)[k])
  {
    hide RenderedIngress, Application, IsApplication;
    if p.Ingress? {
      IngressDocuments(i, p.file);
    } else if p.app == AppsKustomization {
      KustomizationPlain(AppResources());
    } else {
      ApplicationObject(repo, p.app, i.slug);
    }
  }

  lemma KustomizationPlain(resources: seq<Node>)
    ensures Plain(Kustomization(resources))
  {
  }

  lemma ApplicationObject(repo: string, app: App, slug: string)
    ensures Application(repo, app, slug).Obj?
  {
  }

  predicate Plain(d: Node) {
    d.Obj? && !IsApplication(d)
  }

  lemma IngressDocuments(i: Inputs, file: IngressFile)
    requires file != IngressReadme
    ensures RenderedIngress(i, file) != []
    ensures forall k :: 0 <= k < |RenderedIngress(i, file)| ==> Plain(RenderedIngress(i, file)[k])
  {
    hide Pool, Announcement, Proxy, PublicGateway, LetsEncrypt, GatewayCertificate, HttpsRoute,
         RedirectRoute, Kustomization, IsApplication, Plain;
    PlainBalancer(i.vip, i.interface);
    PlainProxy(i.vip);
    PlainGateway(i.hostname);
    PlainIssuer(i.contact);
    PlainCertificate(i.hostname);
    PlainRoutes(i.hostname);
    match file {
      case LoadBalancer =>
      case EnvoyProxy =>
      case Gateway =>
      case Issuer =>
      case Certificate =>
      case Routes =>
      case IngressKustomization => KustomizationPlain(IngressResources());
    }
  }

  lemma PlainBalancer(vip: string, interface: string)
    ensures Plain(Pool(vip)) && Plain(Announcement(interface))
  {
    assert Pool(vip).fields["kind"] != Str("Application");
  }

  lemma PlainProxy(vip: string)
    ensures Plain(Proxy(vip))
  {
  }

  lemma PlainGateway(hostname: string)
    ensures Plain(PublicGateway(hostname))
  {
  }

  lemma PlainIssuer(contact: string)
    ensures Plain(LetsEncrypt(contact))
  {
  }

  lemma PlainCertificate(hostname: string)
    ensures Plain(GatewayCertificate(hostname))
  {
  }

  lemma PlainRoutes(hostname: string)
    ensures Plain(HttpsRoute(hostname)) && Plain(RedirectRoute(hostname))
  {
  }

  lemma ApplicationFields(repo: string, app: App, slug: string)
    ensures Field(Field(Field(Some(Application(repo, app, slug)), "spec"), "source"), "repoURL") == Some(Str(repo))
  {
    hide SyncOptions, AppPath, AppNamespace, AppWave, AppName;
    assert Application(repo, app, slug).fields["spec"].fields["source"] == Source(repo, app, slug);
  }

  lemma ApplicationKind(repo: string, app: App, slug: string)
    ensures IsApplication(Application(repo, app, slug))
  {
    hide SyncOptions, AppPath, AppNamespace, AppWave, AppName, Source;
  }

  lemma ApplicationNormal(repo: string, app: App, slug: string)
    ensures Normal(Application(repo, app, slug)).Some? <==> Canonical(repo).Some?
  {
    hide Application, Canonical, IsApplication;
    ApplicationFields(repo, app, slug);
    ApplicationKind(repo, app, slug);
  }

  /** Every rendered manifest has a meaning, unless its applications name no repository. */
  lemma RenderedSemantic(repo: string, bases: string, i: Inputs, p: Path)
    requires IsYaml(p)
    ensures Semantic(RenderFile(repo, bases, i, p)).Some?
       <==> p.Ingress? || p.app == AppsKustomization || Canonical(repo).Some?
  {
    hide RenderFile, Application, RenderedIngress, Normal, IsApplication, Canonical, Kustomization, Documents;
    RenderedDocuments(repo, bases, i, p);
    if p.Ingress? || p.app == AppsKustomization {
      forall k | 0 <= k < |Rendered(repo, i, p)| ensures Normal(Rendered(repo, i, p)[k]).Some? {
        NormalOther(Rendered(repo, i, p)[k]);
      }
    } else {
      ApplicationNormal(repo, p.app, i.slug);
      assert Rendered(repo, i, p) == [Application(repo, p.app, i.slug)];
      assert Rendered(repo, i, p)[0] == Application(repo, p.app, i.slug);
    }
  }

  // ---- reading the inputs back ----

  lemma PatternAgain(interface: string)
    requires ValidInterface(interface)
    ensures Unescape(Inner(Pattern(interface))) == interface
  {
    UnescapeEscape(interface);
    assert Inner(Pattern(interface)) == Escape(interface);
  }

  lemma BalancerFields(vip: string, interface: string)
    ensures Field(First(Field(Field(Some(Pool(vip)), "spec"), "blocks")), "start") == Some(Str(vip))
    ensures First(Field(Field(Some(Announcement(interface)), "spec"), "interfaces"))
         == Some(Str(Pattern(interface)))
  {
  }

  lemma GatewayFields(hostname: string, contact: string)
    ensures Field(First(Field(Field(Some(PublicGateway(hostname)), "spec"), "listeners")), "hostname")
         == Some(Str(hostname))
    ensures Field(Field(Field(Some(LetsEncrypt(contact)), "spec"), "acme"), "email") == Some(Str(contact))
  {
  }

  /** The files the inputs are read out of. */
  lemma Identifying(slug: string)
    ensures Ingress(slug, LoadBalancer) in YamlPaths(slug)
    ensures Ingress(slug, Gateway) in YamlPaths(slug)
    ensures Ingress(slug, Issuer) in YamlPaths(slug)
  {
  }

  /** A tree whose three identifying files hold the rendered documents claims the rendered inputs. */
  lemma ExtractRendered(files: Tree, repo: string, i: Inputs)
    requires YamlPaths(i.slug) <= files.Keys && ValidInterface(i.interface)
    requires forall p :: p in YamlPaths(i.slug) ==> Documents(files[p]).Some?
    requires forall file | file == LoadBalancer || file == Gateway || file == Issuer ::
               Documents(files[Ingress(i.slug, file)]) == Some(RenderedIngress(i, file))
    ensures Extract(files, i.slug) == Some(i)
  {
    hide YamlPaths, Documents, Pool, Announcement, PublicGateway, LetsEncrypt, Proxy, GatewayCertificate,
         HttpsRoute, RedirectRoute, Kustomization, Unescape, Inner, Pattern, ValidInterface, Field, First;
    Identifying(i.slug);
    PatternAgain(i.interface);
    BalancerFields(i.vip, i.interface);
    GatewayFields(i.hostname, i.contact);
    assert Documents(files[Ingress(i.slug, LoadBalancer)]).value == [Pool(i.vip), Announcement(i.interface)];
    assert Documents(files[Ingress(i.slug, Gateway)]).value == [PublicGateway(i.hostname)];
    assert Documents(files[Ingress(i.slug, Issuer)]).value == [LetsEncrypt(i.contact)];
  }

  lemma NormalKeepsKind(d: Node)
    requires Normal(d).Some?
    ensures IsApplication(Normal(d).value) == IsApplication(d)
  {
  }

  lemma NormalOther(d: Node)
    ensures !IsApplication(d) ==> Normal(d) == Some(d)
  {
  }

  /** Files that mean the same hold the same documents, where none of them is an application. */
  lemma SameDocuments(a: Content, b: Content)
    requires Semantic(a).Some? && Semantic(a) == Semantic(b)
    requires forall k :: 0 <= k < |Documents(b).value| ==> !IsApplication(Documents(b).value[k])
    ensures Documents(a) == Documents(b)
  {
    hide Normal, IsApplication;
    var x, y := Documents(a).value, Documents(b).value;
    assert |x| == |NormalAll(x).value| == |y|;
    forall k | 0 <= k < |x| ensures x[k] == y[k] {
      assert Normal(x[k]) == Normal(y[k]);
      NormalKeepsKind(x[k]);
      NormalOther(y[k]);
      NormalOther(x[k]);
    }
    assert x == y;
  }

  // ---- the recogniser accepts exactly what means a rendering ----

  lemma MatchingClaims(files: Tree, repo: string, bases: string, i: Inputs)
    requires YamlPaths(i.slug) <= files.Keys && ValidInterface(i.interface)
    requires forall p | p in YamlPaths(i.slug) ::
               Semantic(files[p]).Some? && Semantic(files[p]) == Semantic(RenderFile(repo, bases, i, p))
    ensures forall p :: p in YamlPaths(i.slug) ==> Documents(files[p]).Some?
    ensures Extract(files, i.slug) == Some(i)
  {
    hide RenderedIngress, Rendered, RenderFile, Extract, YamlPaths, IsApplication, ValidInterface;
    forall p | p in YamlPaths(i.slug) ensures Documents(files[p]).Some? {
      assert Semantic(files[p]).Some?;
    }
    Identifying(i.slug);
    forall file | file == LoadBalancer || file == Gateway || file == Issuer
      ensures Documents(files[Ingress(i.slug, file)]) == Some(RenderedIngress(i, file))
    {
      var p := Ingress(i.slug, file);
      YamlPathsMeaning(i.slug, p);
      RenderedDocuments(repo, bases, i, p);
      SameDocuments(files[p], RenderFile(repo, bases, i, p));
    }
    ExtractRendered(files, repo, i);
  }

  /** A tree is accepted with some inputs exactly when its paths are one whole cluster's and every
      file is, in meaning, the rendering of those inputs. */
  lemma AcceptedIff(files: Tree, repo: string, bases: string, i: Inputs)
    ensures Validate(files, repo, bases) == Accepted(i)
       <==> CheckPaths(files) == Cluster(i.slug) && RenderTree(repo, bases, i).Some?
            && files.Keys <= RenderTree(repo, bases, i).value.Keys
            && Matches(files, RenderTree(repo, bases, i).value)
  {
    hide RenderTree, Matches, Extract, CheckPaths, YamlPaths, KnownPaths, Documents;
    if CheckPaths(files) == Cluster(i.slug) && RenderTree(repo, bases, i).Some?
       && files.Keys <= RenderTree(repo, bases, i).value.Keys
       && Matches(files, RenderTree(repo, bases, i).value)
    {
      CheckedPaths(files);
      MatchingDocuments(files, repo, bases, i);
    } else if Validate(files, repo, bases) == Accepted(i) {
      assert CheckPaths(files).Cluster?;
      CheckedPaths(files);
      RenderedKeys(repo, bases, i);
      assert forall p :: p in YamlPaths(CheckPaths(files).slug) ==> Documents(files[p]).Some?;
      assert Extract(files, CheckPaths(files).slug) == Some(i);
      ExtractSlug(files, CheckPaths(files).slug);
    }
  }

  lemma CheckedPaths(files: Tree)
    requires CheckPaths(files).Cluster?
    ensures var slug := CheckPaths(files).slug;
            && YamlPaths(slug) <= files.Keys <= KnownPaths(slug)
            && (forall p :: p in files && IsYaml(p) ==> p in YamlPaths(slug))
            && (forall p :: p in YamlPaths(slug) ==> p in files && IsYaml(p))
  {
    hide YamlPaths, KnownPaths;
    forall p | p in YamlPaths(CheckPaths(files).slug) ensures IsYaml(p) {
      YamlPathsMeaning(CheckPaths(files).slug, p);
    }
    forall p | p in files && IsYaml(p) ensures p in YamlPaths(CheckPaths(files).slug) {
      YamlPathsMeaning(CheckPaths(files).slug, p);
    }
  }

  lemma RenderedKeys(repo: string, bases: string, i: Inputs)
    requires RenderTree(repo, bases, i).Some?
    ensures RenderTree(repo, bases, i).value.Keys == KnownPaths(i.slug)
    ensures forall p | p in RenderTree(repo, bases, i).value ::
              RenderTree(repo, bases, i).value[p] == RenderFile(repo, bases, i, p)
    ensures ValidInterface(i.interface) && ValidSlug(i.slug) && PlainUrl(repo) && PlainUrl(bases)
  {
    hide RenderFile, KnownPaths;
  }

  lemma ExtractSlug(files: Tree, slug: string)
    requires YamlPaths(slug) <= files.Keys
    requires forall p :: p in YamlPaths(slug) ==> Documents(files[p]).Some?
    requires Extract(files, slug).Some?
    ensures Extract(files, slug).value.slug == slug
  {
    hide YamlPaths, Documents;
  }

  lemma MatchingDocuments(files: Tree, repo: string, bases: string, i: Inputs)
    requires CheckPaths(files) == Cluster(i.slug) && RenderTree(repo, bases, i).Some?
    requires files.Keys <= RenderTree(repo, bases, i).value.Keys
    requires Matches(files, RenderTree(repo, bases, i).value)
    ensures forall p :: p in files && IsYaml(p) ==> Documents(files[p]).Some?
    ensures YamlPaths(i.slug) <= files.Keys
    ensures forall p :: p in YamlPaths(i.slug) ==> Documents(files[p]).Some?
    ensures Extract(files, i.slug) == Some(i)
  {
    hide RenderTree, Extract, CheckPaths, YamlPaths, KnownPaths, RenderFile, ValidInterface;
    CheckedPaths(files);
    RenderedKeys(repo, bases, i);
    forall p | p in YamlPaths(i.slug)
      ensures p in files && Semantic(files[p]).Some?
      ensures Semantic(files[p]) == Semantic(RenderFile(repo, bases, i, p))
    {
      YamlPathsMeaning(i.slug, p);
      assert RenderTree(repo, bases, i).value[p] == RenderFile(repo, bases, i, p);
    }
    MatchingClaims(files, repo, bases, i);
  }

  /** Rendering and validating: the inputs come back, provided the address names a repository;
      otherwise the applications have no comparable meaning and the tree is refused. */
  lemma ValidateRendered(repo: string, bases: string, i: Inputs)
    requires RenderTree(repo, bases, i).Some?
    ensures Validate(RenderTree(repo, bases, i).value, repo, bases)
         == if Canonical(repo).Some? then Accepted(i) else Incompatible
  {
    hide RenderTree, CheckPaths, YamlPaths, KnownPaths, Extract, Canonical, Matches, Parsed;
    RenderedPaths(repo, bases, i);
    RenderedClaims(repo, bases, i);
    RenderedMatches(repo, bases, i);
  }

  /** A rendered tree parses, and matches itself exactly when its address names a repository. */
  lemma RenderedMatches(repo: string, bases: string, i: Inputs)
    requires RenderTree(repo, bases, i).Some?
    ensures Parsed(RenderTree(repo, bases, i).value)
    ensures Matches(RenderTree(repo, bases, i).value, RenderTree(repo, bases, i).value) <==> Canonical(repo).Some?
  {
    hide RenderTree, YamlPaths, KnownPaths, RenderFile, Semantic, Documents, Canonical, Rendered;
    var tree := RenderTree(repo, bases, i).value;
    RenderedKeys(repo, bases, i);
    forall p | p in tree && IsYaml(p)
      ensures Documents(tree[p]).Some?
      ensures Semantic(tree[p]).Some? <==> p.Ingress? || p.app == AppsKustomization || Canonical(repo).Some?
    {
      RenderedDocuments(repo, bases, i, p);
      RenderedSemantic(repo, bases, i, p);
    }
    var app := Apps(i.slug, ArgoCd);
    YamlPathsMeaning(i.slug, app);
    assert app in tree && IsYaml(app);
  }

  lemma RenderedPaths(repo: string, bases: string, i: Inputs)
    requires RenderTree(repo, bases, i).Some?
    ensures CheckPaths(RenderTree(repo, bases, i).value) == Cluster(i.slug)
  {
    hide RenderFile, YamlPaths, KnownPaths, ValidHostname, ValidOctets, ValidInterface, ValidContact, PlainUrl;
    var tree := RenderTree(repo, bases, i).value;
    assert tree.Keys == KnownPaths(i.slug);
    KnownCount(i.slug);
    assert |tree| == |tree.Keys|;
    OneCluster(tree, i.slug);
  }

  lemma OneCluster(tree: Tree, slug: string)
    requires tree.Keys == KnownPaths(slug)
    ensures Clusters(tree) == {slug} && YamlPaths(slug) <= tree.Keys && tree != map[]
  {
    hide YamlPaths, KnownPaths;
    YamlPathsMeaning(slug, Apps(slug, ArgoCd));
    assert Apps(slug, ArgoCd) in tree;
    forall p | p in tree && (p.Ingress? || p.Apps?) ensures p.cluster == slug {
      YamlPathsMeaning(slug, p);
    }
    forall p | p in YamlPaths(slug) ensures p in KnownPaths(slug) {
      YamlPathsMeaning(slug, p);
    }
  }

  lemma KnownCount(slug: string)
    ensures |KnownPaths(slug)| <= 17
  {
    var ingress := {Ingress(slug, LoadBalancer), Ingress(slug, EnvoyProxy), Ingress(slug, Gateway),
                    Ingress(slug, Issuer), Ingress(slug, Certificate), Ingress(slug, Routes),
                    Ingress(slug, IngressKustomization)};
    var apps := {Apps(slug, CustomerClusterApps), Apps(slug, EnvoyGateway), Apps(slug, CertManager),
                 Apps(slug, ArgoCd), Apps(slug, PortalAccess), Apps(slug, ArgoCdIngress),
                 Apps(slug, AppsKustomization)};
    var inert := {Readme, Gitmodules, Ingress(slug, IngressReadme)};
    assert |ingress| <= 7 && |apps| <= 7 && |inert| <= 3;
    forall p | p in YamlPaths(slug) ensures p in ingress + apps {
      EachManifest(slug, p);
    }
    UnionSize(ingress, apps);
    UnionSize(inert, ingress + apps);
    SubsetSize(KnownPaths(slug), inert + (ingress + apps));
  }

  lemma EachManifest(slug: string, p: Path)
    requires p in YamlPaths(slug)
    ensures p.Ingress? ==> p.file == LoadBalancer || p.file == EnvoyProxy || p.file == Gateway || p.file == Issuer
                           || p.file == Certificate || p.file == Routes || p.file == IngressKustomization
    ensures p.Apps? ==> p.app == CustomerClusterApps || p.app == EnvoyGateway || p.app == CertManager
                        || p.app == ArgoCd || p.app == PortalAccess || p.app == ArgoCdIngress
                        || p.app == AppsKustomization
    ensures p.Ingress? || p.Apps?
    ensures p.cluster == slug
  {
  }

  lemma UnionSize<T>(a: set<T>, b: set<T>)
    ensures |a + b| <= |a| + |b|
  {
    assert a + b == a + (b - a);
  }

  lemma {:induction false} SubsetSize<T>(a: set<T>, b: set<T>)
    requires a <= b
    ensures |a| <= |b|
  {
    if a != {} {
      var x :| x in a;
      SubsetSize(a - {x}, b - {x});
    }
  }

  lemma RenderedClaims(repo: string, bases: string, i: Inputs)
    requires RenderTree(repo, bases, i).Some?
    ensures var tree := RenderTree(repo, bases, i).value;
            && (forall p :: p in YamlPaths(i.slug) ==> p in tree && Documents(tree[p]).Some?)
            && Extract(tree, i.slug) == Some(i)
  {
    hide RenderTree, YamlPaths, KnownPaths, RenderFile, Rendered, RenderedIngress, Extract, Documents, ValidInterface;
    var tree := RenderTree(repo, bases, i).value;
    RenderedKeys(repo, bases, i);
    forall p | p in YamlPaths(i.slug) ensures p in tree && Documents(tree[p]) == Some(Rendered(repo, i, p)) {
      YamlPathsMeaning(i.slug, p);
      RenderedDocuments(repo, bases, i, p);
    }
    Identifying(i.slug);
    forall file | file == LoadBalancer || file == Gateway || file == Issuer
      ensures Documents(tree[Ingress(i.slug, file)]) == Some(RenderedIngress(i, file))
    {
      YamlPathsMeaning(i.slug, Ingress(i.slug, file));
      RenderedDocuments(repo, bases, i, Ingress(i.slug, file));
    }
    ExtractRendered(tree, repo, i);
  }

  // ---- canonical trees ----

  /** Same files, same meaning. */
  ghost predicate SameMeaning(a: Tree, b: Tree) {
    a.Keys == b.Keys
    && forall p | p in a :: if IsYaml(p) then Semantic(a[p]).Some? && Semantic(a[p]) == Semantic(b[p])
                            else a[p] == b[p]
  }

  lemma SameMeaningAccepted(a: Tree, b: Tree, repo: string, bases: string, i: Inputs)
    requires SameMeaning(a, b) && Validate(a, repo, bases) == Accepted(i)
    ensures Validate(b, repo, bases) == Accepted(i)
  {
    hide Validate, RenderTree, CheckPaths, Semantic;
    AcceptedIff(a, repo, bases, i);
    assert Clusters(a) == Clusters(b) by {
      assert forall p :: p in a <==> p in b;
    }
    SameKeys(a, b);
    AcceptedIff(b, repo, bases, i);
  }

  lemma SameKeys(a: Tree, b: Tree)
    requires a.Keys == b.Keys && Clusters(a) == Clusters(b)
    ensures CheckPaths(a) == CheckPaths(b)
  {
    assert |a| == |a.Keys| == |b|;
    if |Clusters(a)| == 1 {
      Singleton(Clusters(a));
    }
  }

  lemma GeneratedMeaning(files: Tree, c: Tree, repo: string, bases: string, i: Inputs)
    requires Validate(files, repo, bases) == Accepted(i) && c.Keys == files.Keys
    requires forall p | p in c :: c[p] == RenderFile(repo, bases, i, p)
    ensures SameMeaning(files, c)
  {
    hide Validate, RenderFile, RenderTree, CheckPaths, Semantic, KnownPaths;
    AcceptedIff(files, repo, bases, i);
    RenderedKeys(repo, bases, i);
  }

  /** Canonicalising keeps the files and what they mean, is accepted with the same inputs, and
      changes nothing the second time. */
  lemma CanonicalTreeLaws(files: Tree, repo: string, bases: string)
    requires CanonicalTree(files, repo, bases).Some?
    ensures var c := CanonicalTree(files, repo, bases).value;
            && SameMeaning(files, c)
            && Validate(c, repo, bases) == Validate(files, repo, bases)
            && CanonicalTree(c, repo, bases) == Some(c)
  {
    hide Validate, RenderFile, SameMeaning;
    var c := CanonicalTree(files, repo, bases).value;
    var i := Validate(files, repo, bases).inputs;
    GeneratedMeaning(files, c, repo, bases, i);
    SameMeaningAccepted(files, c, repo, bases, i);
    var cc := CanonicalTree(c, repo, bases).value;
    assert cc.Keys == c.Keys;
    assert forall p :: p in c ==> cc[p] == RenderFile(repo, bases, i, p) == c[p];
    assert cc == c;
  }

  /** Trees of one meaning have one canonical form. */
  lemma CanonicalTreeUnique(a: Tree, b: Tree, repo: string, bases: string)
    requires SameMeaning(a, b) && CanonicalTree(a, repo, bases).Some?
    ensures CanonicalTree(b, repo, bases) == CanonicalTree(a, repo, bases)
  {
    SameMeaningAccepted(a, b, repo, bases, Validate(a, repo, bases).inputs);
  }
}
