/** The generated tree of one cluster: printing it from its inputs, and recognising it again.

    YAML is abstract: a file is its parsed documents beside a formatting style.  A path is the role
    it plays in a cluster's tree; `Bases` is the submodule at `k8s-manifests`.
 */
module Manifests {
  import opened Options
  import opened Addresses

  datatype Node = Str(text: string) | Num(number: int) | Bool(flag: bool) | Null
                 | List(items: seq<Node>) | Obj(fields: map<string, Node>)

  /** A file: YAML documents, a Git configuration of the bases submodule alone, or other text. */
  datatype Content = Yaml(docs: seq<Node>, style: string) | Modules(url: string, style: string)
                   | Text(text: string)

  datatype IngressFile = LoadBalancer | EnvoyProxy | Gateway | Issuer | Certificate | Routes
                       | IngressKustomization | IngressReadme

  datatype App = CustomerClusterApps | EnvoyGateway | CertManager | ArgoCd | PortalAccess
               | ArgoCdIngress | AppsKustomization

  datatype Path = Readme | Gitmodules | Bases | Ingress(cluster: string, file: IngressFile)
                | Apps(cluster: string, app: App) | Foreign(text: string)

  type Tree = map<Path, Content>

  datatype Inputs = Inputs(slug: string, hostname: string, vip: string, interface: string, contact: string)

  // ---- paths ----

  predicate IsYaml(p: Path) {
    (p.Ingress? && !p.file.IngressReadme?) || p.Apps?
  }

  predicate IsReadme(p: Path) {
    p.Readme? || (p.Ingress? && p.file.IngressReadme?)
  }

  /** The fourteen manifests of a cluster. */
  function YamlPaths(slug: string): set<Path> {
    (set file: IngressFile | file != IngressReadme :: Ingress(slug, file)) + (set app: App :: Apps(slug, app))
  }

  /** The manifests, two READMEs and the submodule configuration. */
  function KnownPaths(slug: string): set<Path> {
    {Readme, Gitmodules, Ingress(slug, IngressReadme)} + YamlPaths(slug)
  }

  lemma YamlPathsMeaning(slug: string, p: Path)
    ensures p in YamlPaths(slug) <==> IsYaml(p) && p.cluster == slug
    ensures p in KnownPaths(slug) <==> p in YamlPaths(slug) || p == Gitmodules || p == Readme
                                       || p == Ingress(slug, IngressReadme)
  {
  }

  // ---- valid inputs ----

  predicate SlugChar(c: char) {
    'a' <= c <= 'z' || Digit(c) || c == '-'
  }

  predicate ValidSlug(s: string) {
    && 1 <= |s| <= 63 && 'a' <= s[0] <= 'z' && s[|s| - 1] != '-'
    && forall i :: 0 <= i < |s| ==> SlugChar(s[i])
  }

  predicate ValidLabel(s: string) {
    && 1 <= |s| <= 63 && s[0] != '-' && s[|s| - 1] != '-'
    && forall i :: 0 <= i < |s| ==> SlugChar(s[i])
  }

  predicate ValidLabels(s: string)
    decreases |s|
  {
    var i := IndexOf(s, '.');
    ValidLabel(s[..i]) && (i < |s| ==> ValidLabels(s[i + 1..]))
  }

  predicate ValidHostname(s: string) {
    |s| <= 253 && '.' in s && ValidLabels(s)
  }

  predicate ValidOctet(s: string) {
    Digits(s) && |s| <= 3 && (|s| > 1 ==> s[0] != '0') && Value(s) <= 255
  }

  predicate ValidOctets(s: string, count: nat) {
    var i := IndexOf(s, '.');
    if count <= 1 then i == |s| && ValidOctet(s)
    else i < |s| && ValidOctet(s[..i]) && ValidOctets(s[i + 1..], count - 1)
  }

  predicate InterfaceChar(c: char) {
    Alnum(c) || c == '_' || c == '.' || c == ':' || c == '-'
  }

  predicate ValidInterface(s: string) {
    && 1 <= |s| <= 15 && (Alnum(s[0]) || s[0] == '_')
    && forall i :: 0 <= i < |s| ==> InterfaceChar(s[i])
  }

  predicate ValidContact(s: string) {
    var i := IndexOf(s, '@');
    && 1 <= i <= 64 && i < |s| && 1 <= |s| - i - 1 <= 253
    && (forall k :: 0 <= k < i ==> Alnum(s[k]) || s[k] in ".!#$%&'*+/=?^_`{|}~-")
    && Host(s[i + 1..])
  }

  predicate ValidInputs(i: Inputs) {
    && ValidSlug(i.slug) && ValidHostname(i.hostname) && ValidOctets(i.vip, 4)
    && ValidInterface(i.interface) && ValidContact(i.contact)
  }

  predicate ValidSegments(path: string)
    decreases |path|
  {
    var i := IndexOf(path, '/');
    && path[..i] != "" && path[..i] != "." && path[..i] != ".."
    && (i < |path| ==> ValidSegments(path[i + 1..]))
  }

  function Without(s: string, last: char): string {
    if s != "" && s[|s| - 1] == last then s[..|s| - 1] else s
  }

  /** An HTTPS address without credentials, query or fragment, empty ones aside, and with a proper
      path; IPv6 hosts are not modelled. */
  predicate PlainUrl(s: string) {
    var plain := Without(Without(s, '#'), '?');
    |plain| > 8 && Lower(plain[..8]) == "https://" && PlainRest(plain[8..])
  }

  predicate PlainRest(rest: string) {
    var i := IndexOf(rest, '/');
    var j := IndexOf(rest[..i], ':');
    && (forall k :: 0 <= k < i ==> rest[k] as int > 32 && rest[k] !in "@?#[]")
    && j > 0 && (j + 1 < i ==> Digits(rest[j + 1..i]) && 1 <= Value(rest[j + 1..i]) <= 65535)
    && i < |rest| && ValidSegments(rest[i + 1..])
    && forall k :: i <= k < |rest| ==> Alnum(rest[k]) || rest[k] in "_./~-"
  }

  // ---- regular-expression escaping of the interface name ----

  /** The characters Python's `re.escape` puts a backslash before. */
  predicate Special(c: char) {
    c in "()[]{}?*+-|^$\\.&~# \t\n\r" || c as int == 11 || c as int == 12
  }

  function Escape(s: string): string {
    if s == "" then "" else (if Special(s[0]) then ['\\', s[0]] else [s[0]]) + Escape(s[1..])
  }

  /** Drop the backslash before each dot, colon and dash, scanning once from the left. */
  function Unescape(s: string): string {
    if s == "" then ""
    else if |s| >= 2 && s[0] == '\\' && (s[1] == '.' || s[1] == ':' || s[1] == '-') then [s[1]] + Unescape(s[2..])
    else [s[0]] + Unescape(s[1..])
  }

  function Pattern(interface: string): string {
    ['^'] + (Escape(interface) + ['$'])
  }

  lemma SpecialInterface(c: char)
    requires InterfaceChar(c)
    ensures Special(c) <==> c == '.' || c == '-'
    ensures c != '\\'
  {
  }

  lemma {:induction false} UnescapeEscape(s: string)
    requires forall i :: 0 <= i < |s| ==> InterfaceChar(s[i])
    ensures Unescape(Escape(s)) == s
  {
    if s != "" {
      UnescapeEscape(s[1..]);
      assert InterfaceChar(s[0]);
      SpecialInterface(s[0]);
      hide Special, InterfaceChar;
      assert s == [s[0]] + s[1..];
      if Special(s[0]) {
        assert Escape(s)[2..] == Escape(s[1..]);
      } else {
        assert Escape(s)[1..] == Escape(s[1..]);
      }
    }
  }

  // ---- the documents ----

  function Resource(api: string, kind: string, name: string, spec: Node, namespace: Option<string>): Node {
    var metadata := match namespace
                    case None => map["name" := Str(name)]
                    case Some(ns) => map["name" := Str(name), "namespace" := Str(ns)];
    Obj(map["apiVersion" := Str(api), "kind" := Str(kind), "metadata" := Obj(metadata), "spec" := spec])
  }

  function Selector(): Node {
    Obj(map["matchLabels" := Obj(map["customer-clusters.sunet.se/load-balancer-pool" := Str("ingress")])])
  }

  function Pool(vip: string): Node {
    var addresses := Obj(map["start" := Str(vip), "stop" := Str(vip)]);
    Resource("cilium.io/v2", "CiliumLoadBalancerIPPool", "customer-ingress",
             Obj(map["blocks" := List([addresses]), "serviceSelector" := Selector()]), None)
  }

  function Announcement(interface: string): Node {
    var workers := Obj(map["key" := Str("node-role.kubernetes.io/control-plane"),
                           "operator" := Str("DoesNotExist")]);
    Resource("cilium.io/v2alpha1", "CiliumL2AnnouncementPolicy", "customer-ingress",
             Obj(map["loadBalancerIPs" := Bool(true), "interfaces" := List([Str(Pattern(interface))]),
                     "nodeSelector" := Obj(map["matchExpressions" := List([workers])]),
                     "serviceSelector" := Selector()]), None)
  }

  function Spread(): Node {
    Obj(map["maxSkew" := Num(1), "topologyKey" := Str("kubernetes.io/hostname"),
            "whenUnsatisfiable" := Str("ScheduleAnyway"),
            "labelSelector" := Obj(map["matchLabels" := Obj(map[
              "gateway.envoyproxy.io/owning-gateway-name" := Str("public"),
              "gateway.envoyproxy.io/owning-gateway-namespace" := Str("envoy-gateway-system")])])])
  }

  function Proxy(vip: string): Node {
    var service := Obj(map["type" := Str("LoadBalancer"), "allocateLoadBalancerNodePorts" := Bool(false),
                           "externalTrafficPolicy" := Str("Cluster"), "loadBalancerIP" := Str(vip),
                           "labels" := Obj(map["customer-clusters.sunet.se/load-balancer-pool" := Str("ingress")])]);
    var deployment := Obj(map["replicas" := Num(2),
                              "pod" := Obj(map["topologySpreadConstraints" := List([Spread()])])]);
    var kubernetes := Obj(map["envoyDeployment" := deployment, "envoyPDB" := Obj(map["minAvailable" := Num(1)]),
                              "envoyService" := service]);
    Resource("gateway.envoyproxy.io/v1alpha1", "EnvoyProxy", "public",
             Obj(map["ipFamily" := Str("IPv4"),
                     "provider" := Obj(map["type" := Str("Kubernetes"), "kubernetes" := kubernetes])]),
             Some("envoy-gateway-system"))
  }

  function Listener(name: string, hostname: string, protocol: string, port: int): map<string, Node> {
    map["name" := Str(name), "hostname" := Str(hostname), "protocol" := Str(protocol), "port" := Num(port),
        "allowedRoutes" := Obj(map["namespaces" := Obj(map["from" := Str("All")])])]
  }

  function PublicGateway(hostname: string): Node {
    var secret := Obj(map["group" := Str(""), "kind" := Str("Secret"), "name" := Str("argocd-gateway-tls")]);
    var tls := Obj(map["mode" := Str("Terminate"), "certificateRefs" := List([secret])]);
    var parameters := Obj(map["group" := Str("gateway.envoyproxy.io"), "kind" := Str("EnvoyProxy"),
                              "name" := Str("public")]);
    Resource("gateway.networking.k8s.io/v1", "Gateway", "public",
             Obj(map["gatewayClassName" := Str("envoy"),
                     "infrastructure" := Obj(map["parametersRef" := parameters]),
                     "listeners" := List([Obj(Listener("argocd-http", hostname, "HTTP", 80)),
                                          Obj(Listener("argocd-https", hostname, "HTTPS", 443)["tls" := tls])])]),
             Some("envoy-gateway-system"))
  }

  function ParentRef(section: string): Node {
    Obj(map["group" := Str("gateway.networking.k8s.io"), "kind" := Str("Gateway"), "name" := Str("public"),
            "namespace" := Str("envoy-gateway-system"), "sectionName" := Str(section)])
  }

  function LetsEncrypt(contact: string): Node {
    var route := Obj(map["parentRefs" := List([ParentRef("argocd-http")])]);
    var solver := Obj(map["http01" := Obj(map["gatewayHTTPRoute" := route])]);
    var acme := Obj(map["email" := Str(contact),
                        "server" := Str("https://acme-v02.api.letsencrypt.org/directory"),
                        "privateKeySecretRef" := Obj(map["name" := Str("letsencrypt-account-key")]),
                        "solvers" := List([solver])]);
    Resource("cert-manager.io/v1", "Issuer", "letsencrypt", Obj(map["acme" := acme]), Some("envoy-gateway-system"))
  }

  function GatewayCertificate(hostname: string): Node {
    var issuer := Obj(map["group" := Str("cert-manager.io"), "kind" := Str("Issuer"), "name" := Str("letsencrypt")]);
    Resource("cert-manager.io/v1", "Certificate", "argocd-gateway",
             Obj(map["secretName" := Str("argocd-gateway-tls"), "issuerRef" := issuer,
                     "dnsNames" := List([Str(hostname)])]),
             Some("envoy-gateway-system"))
  }

  function Route(name: string, section: string, hostname: string, extra: string, backend: Node): Node {
    var root := Obj(map["path" := Obj(map["type" := Str("PathPrefix"), "value" := Str("/")])]);
    var rule := Obj(map["matches" := List([root]), extra := List([backend])]);
    Resource("gateway.networking.k8s.io/v1", "HTTPRoute", name,
             Obj(map["parentRefs" := List([ParentRef(section)]), "hostnames" := List([Str(hostname)]),
                     "rules" := List([rule])]),
             Some("argocd"))
  }

  function HttpsRoute(hostname: string): Node {
    Route("argocd", "argocd-https", hostname, "backendRefs",
          Obj(map["group" := Str(""), "kind" := Str("Service"), "name" := Str("argocd-server"),
                  "port" := Num(80), "weight" := Num(1)]))
  }

  function RedirectRoute(hostname: string): Node {
    Route("argocd-http-redirect", "argocd-http", hostname, "filters",
          Obj(map["type" := Str("RequestRedirect"),
                  "requestRedirect" := Obj(map["scheme" := Str("https"), "statusCode" := Num(301)])]))
  }

  function Kustomization(resources: seq<Node>): Node {
    Obj(map["apiVersion" := Str("kustomize.config.k8s.io/v1beta1"), "kind" := Str("Kustomization"),
            "resources" := List(resources)])
  }

  function IngressResources(): seq<Node> {
    [Str("cilium-load-balancer.yaml"), Str("envoy-proxy.yaml"), Str("gateway.yaml"), Str("issuer.yaml"),
     Str("certificate.yaml"), Str("routes.yaml")]
  }

  function AppResources(): seq<Node> {
    [Str("customer-cluster-apps.yaml"), Str("envoy-gateway.yaml"), Str("cert-manager.yaml"),
     Str("argocd.yaml"), Str("portal-access.yaml"), Str("argocd-ingress.yaml")]
  }

  function AppName(app: App): string {
    match app
    case CustomerClusterApps => "customer-cluster-apps"
    case EnvoyGateway => "envoy-gateway"
    case CertManager => "cert-manager"
    case ArgoCd => "argocd"
    case PortalAccess => "portal-access"
    case ArgoCdIngress => "argocd-ingress"
    case AppsKustomization => "kustomization"
  }

  function AppNamespace(app: App): string {
    match app
    case EnvoyGateway => "envoy-gateway-system"
    case ArgoCdIngress => "envoy-gateway-system"
    case CertManager => "cert-manager"
    case _ => "argocd"
  }

  function AppWave(app: App): Option<string> {
    match app
    case EnvoyGateway => Some("-30")
    case CertManager => Some("-20")
    case ArgoCd => Some("-20")
    case PortalAccess => Some("-10")
    case ArgoCdIngress => Some("0")
    case _ => None
  }

  function AppPath(app: App, slug: string): string {
    match app
    case CustomerClusterApps => "clusters/" + slug + "/argocd-apps"
    case ArgoCdIngress => "clusters/" + slug + "/addons/argocd-ingress"
    case _ => "k8s-manifests/" + AppName(app)
  }

  function SyncOptions(app: App): seq<Node> {
    (if app == EnvoyGateway || app == CertManager || app == ArgoCd then [Str("CreateNamespace=true")] else [])
    + [Str("PruneLast=true")]
    + (if app == ArgoCd then [Str("RespectIgnoreDifferences=true")] else [])
    + [Str("ServerSideApply=true")]
  }

  function Source(repo: string, app: App, slug: string): Node {
    Obj(map["repoURL" := Str(repo), "targetRevision" := Str("main"), "path" := Str(AppPath(app, slug))])
  }

  function Application(repo: string, app: App, slug: string): Node {
    var compare := map["argocd.argoproj.io/compare-options" := Str("ServerSideDiff=true")];
    var annotations := match AppWave(app)
                       case None => compare
                       case Some(wave) => compare["argocd.argoproj.io/sync-wave" := Str(wave)];
    var policy := Obj(map["automated" := Obj(map["prune" := Bool(true), "selfHeal" := Bool(true)]),
                          "syncOptions" := List(SyncOptions(app))]);
    var spec := map["project" := Str("default"), "source" := Source(repo, app, slug),
                    "destination" := Obj(map["server" := Str("https://kubernetes.default.svc"),
                                             "namespace" := Str(AppNamespace(app))]),
                    "syncPolicy" := policy];
    var ignored := Obj(map["kind" := Str("Secret"), "name" := Str("argocd-secret"),
                           "namespace" := Str("argocd"), "jsonPointers" := List([Str("/data")])]);
    Obj(map["apiVersion" := Str("argoproj.io/v1alpha1"), "kind" := Str("Application"),
            "metadata" := Obj(map["name" := Str(AppName(app)), "namespace" := Str("argocd"),
                                  "annotations" := Obj(annotations)]),
            "spec" := Obj(if app == ArgoCd then spec["ignoreDifferences" := List([ignored])] else spec)])
  }

  /** The documents of one YAML file; only the six applications mention the repository. */
  function Rendered(repo: string, i: Inputs, p: Path): seq<Node> {
    match p
    case Ingress(_, file) => RenderedIngress(i, file)
    case Apps(_, AppsKustomization) =>
      [Kustomization(AppResources())]
    case Apps(_, app) => [Application(repo, app, i.slug)]
    case _ => []
  }

  function RenderedIngress(i: Inputs, file: IngressFile): seq<Node> {
    match file
    case LoadBalancer => [Pool(i.vip), Announcement(i.interface)]
    case EnvoyProxy => [Proxy(i.vip)]
    case Gateway => [PublicGateway(i.hostname)]
    case Issuer => [LetsEncrypt(i.contact)]
    case Certificate => [GatewayCertificate(i.hostname)]
    case Routes => [HttpsRoute(i.hostname), RedirectRoute(i.hostname)]
    case IngressKustomization =>
      [Kustomization(IngressResources())]
    case IngressReadme => []
  }

  /** One generated file.  The READMEs stand for their fixed text; the ingress one names the interface. */
  function RenderFile(repo: string, bases: string, i: Inputs, p: Path): Content {
    if IsYaml(p) then Yaml(Rendered(repo, i, p), "")
    else match p
         case Gitmodules => Modules(bases, "")
         case Ingress(_, _) => Text("Argo CD ingress on " + i.interface)
         case _ => Text("Customer Kubernetes clusters")
  }

  /** The whole tree, or nothing when an input or an address is invalid. */
  function RenderTree(repo: string, bases: string, i: Inputs): Option<Tree> {
    if PlainUrl(repo) && ValidInputs(i) && PlainUrl(bases) then
      Some(map p | p in KnownPaths(i.slug) :: RenderFile(repo, bases, i, p))
    else None
  }

  // ---- reading ----

  function Field(v: Option<Node>, k: string): Option<Node> {
    if v.Some? && v.value.Obj? && k in v.value.fields then Some(v.value.fields[k]) else None
  }

  function First(v: Option<Node>): Option<Node> {
    if v.Some? && v.value.List? && v.value.items != [] then Some(v.value.items[0]) else None
  }

  /** A file's documents: at least one, and each an object. */
  function Documents(c: Content): Option<seq<Node>> {
    if c.Yaml? && c.docs != [] && (forall i :: 0 <= i < |c.docs| ==> c.docs[i].Obj?) then Some(c.docs) else None
  }

  predicate IsApplication(d: Node) {
    && Field(Some(d), "apiVersion") == Some(Str("argoproj.io/v1alpha1"))
    && Field(Some(d), "kind") == Some(Str("Application"))
  }

  /** A document up to the spelling of an Application's repository address. */
  function Normal(d: Node): Option<Node> {
    var url := Field(Field(Field(Some(d), "spec"), "source"), "repoURL");
    if !IsApplication(d) || url.None? then Some(d)
    else if !url.value.Str? || Canonical(url.value.text).None? then None
    else
      var spec := d.fields["spec"];
      var source := spec.fields["source"].fields["repoURL" := Str(Canonical(url.value.text).value)];
      Some(Obj(d.fields["spec" := Obj(spec.fields["source" := Obj(source)])]))
  }

  function NormalAll(docs: seq<Node>): (r: Option<seq<Node>>)
    ensures r.Some? <==> forall i :: 0 <= i < |docs| ==> Normal(docs[i]).Some?
    ensures r.Some? ==> |r.value| == |docs|
    ensures r.Some? ==> forall i :: 0 <= i < |docs| ==> Normal(docs[i]) == Some(r.value[i])
  {
    if forall i :: 0 <= i < |docs| ==> Normal(docs[i]).Some? then
      Some(seq(|docs|, i requires 0 <= i < |docs| => Normal(docs[i]).value))
    else None
  }

  /** What a file means: its documents up to formatting and address spelling. */
  function Semantic(c: Content): Option<seq<Node>> {
    match Documents(c)
    case None => None
    case Some(docs) => NormalAll(docs)
  }

  datatype PathCheck = Cluster(slug: string) | BadPaths | BadSlug

  function Clusters(files: Tree): set<string> {
    set p | p in files && (p.Ingress? || p.Apps?) :: p.cluster
  }

  lemma Singleton<T>(s: set<T>)
    requires |s| == 1
    ensures exists x :: s == {x}
  {
    var x :| x in s;
    assert |s - {x}| == 0;
    assert s == {x};
  }

  function ClusterOf(files: Tree): string
    requires |Clusters(files)| == 1
  {
    Singleton(Clusters(files));
    var slug :| Clusters(files) == {slug};
    slug
  }

  /** Exactly one cluster, only its known paths, and every manifest of it. */
  function CheckPaths(files: Tree): PathCheck {
    if files == map[] || |files| > 17 || |Clusters(files)| != 1 then BadPaths
    else
      var slug := ClusterOf(files);
      if !ValidSlug(slug) then BadSlug
      else if !(files.Keys <= KnownPaths(slug)) || !(YamlPaths(slug) <= files.Keys) then BadPaths
      else Cluster(slug)
  }

  /** The inputs a tree claims, read out of four of its documents. */
  function Extract(files: Tree, slug: string): Option<Inputs>
    requires YamlPaths(slug) <= files.Keys
    requires forall p :: p in YamlPaths(slug) ==> Documents(files[p]).Some?
  {
    var balancer := Documents(files[Ingress(slug, LoadBalancer)]).value;
    if |balancer| != 2 then None
    else
      var pattern := First(Field(Field(Some(balancer[1]), "spec"), "interfaces"));
      var vip := Field(First(Field(Field(Some(balancer[0]), "spec"), "blocks")), "start");
      var hostname := Field(First(Field(Field(Some(Documents(files[Ingress(slug, Gateway)]).value[0]),
                                              "spec"), "listeners")), "hostname");
      var contact := Field(Field(Field(Some(Documents(files[Ingress(slug, Issuer)]).value[0]),
                                       "spec"), "acme"), "email");
      if IsText(pattern) && IsText(vip) && IsText(hostname) && IsText(contact) then
        var inner := Inner(pattern.value.text);
        if pattern.value.text != Pattern(Unescape(inner)) then None
        else Some(Inputs(slug, hostname.value.text, vip.value.text, Unescape(inner), contact.value.text))
      else None
  }

  predicate IsText(v: Option<Node>) {
    v.Some? && v.value.Str?
  }

  /** A string without its first and last character. */
  function Inner(s: string): string {
    if |s| < 2 then "" else s[1..|s| - 1]
  }

  datatype Validation = Accepted(inputs: Inputs) | InvalidManifests | InvalidInput | Incompatible

  /** Manifests agree in meaning, other files exactly. */
  predicate Matches(files: Tree, expected: Tree)
    requires files.Keys <= expected.Keys
  {
    forall p | p in files ::
      if IsYaml(p) then Semantic(files[p]).Some? && Semantic(files[p]) == Semantic(expected[p])
      else files[p] == expected[p]
  }

  predicate Parsed(files: Tree) {
    forall p | p in files && IsYaml(p) :: Documents(files[p]).Some?
  }

  lemma ParsedYaml(files: Tree, slug: string)
    requires Parsed(files) && YamlPaths(slug) <= files.Keys
    ensures forall p :: p in YamlPaths(slug) ==> Documents(files[p]).Some?
  {
    hide YamlPaths, Documents;
    forall p | p in YamlPaths(slug) ensures IsYaml(p) {
      YamlPathsMeaning(slug, p);
    }
  }

  function Validate(files: Tree, repo: string, bases: string): Validation {
    match CheckPaths(files)
    case BadPaths => InvalidManifests
    case BadSlug => InvalidInput
    case Cluster(slug) =>
      if !Parsed(files) then InvalidManifests
      else
        ParsedYaml(files, slug);
        match Extract(files, slug)
        case None => Incompatible
        case Some(inputs) =>
          match RenderTree(repo, bases, inputs)
          case None => Incompatible
          case Some(expected) =>
            if files.Keys <= expected.Keys && Matches(files, expected) then Accepted(inputs) else Incompatible
  }

  /** Rewrite every file of an accepted tree as it would be generated. */
  function CanonicalTree(files: Tree, repo: string, bases: string): Option<Tree> {
    match Validate(files, repo, bases)
    case Accepted(inputs) => Some(map p | p in files :: RenderFile(repo, bases, inputs, p))
    case _ => None
  }
}
