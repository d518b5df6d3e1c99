/** Which input lands in which field of a cluster's tree, and that the documents refer to each other.

    Fields are read as the tree's consumers read them, by their paths.
 */
module Fields {
  import opened Options
  import opened Addresses
  import opened Manifests
  import opened Recognition

  // ---- reading a field ----

  /** A document of a file. */
  function Doc(t: Tree, p: Path, k: nat): Option<Node> {
    if p in t && Documents(t[p]).Some? && k < |Documents(t[p]).value| then Some(Documents(t[p]).value[k]) else None
  }

  function Spec(t: Tree, p: Path, k: nat): Option<Node> {
    Field(Doc(t, p, k), "spec")
  }

  function Item(v: Option<Node>, k: nat): Option<Node> {
    if v.Some? && v.value.List? && k < |v.value.items| then Some(v.value.items[k]) else None
  }

  function Name(d: Option<Node>): Option<Node> {
    Field(Field(d, "metadata"), "name")
  }

  function Namespace(d: Option<Node>): Option<Node> {
    Field(Field(d, "metadata"), "namespace")
  }

  function EnvoyService(t: Tree, slug: string): Option<Node> {
    Field(Field(Field(Spec(t, Ingress(slug, EnvoyProxy), 0), "provider"), "kubernetes"), "envoyService")
  }

  function Listeners(t: Tree, slug: string): Option<Node> {
    Field(Spec(t, Ingress(slug, Gateway), 0), "listeners")
  }

  // ---- where the inputs are ----

  /** The virtual address: both ends of the pool's only block, and the one the Envoy service asks for. */
  predicate HasVip(t: Tree, i: Inputs) {
    var blocks := Field(Spec(t, Ingress(i.slug, LoadBalancer), 0), "blocks");
    && blocks.Some? && blocks.value.List? && |blocks.value.items| == 1
    && Field(Item(blocks, 0), "start") == Some(Str(i.vip)) && Field(Item(blocks, 0), "stop") == Some(Str(i.vip))
    && Field(EnvoyService(t, i.slug), "loadBalancerIP") == Some(Str(i.vip))
  }

  /** The hostname: that of both listeners, the only name of the certificate and of each route. */
  predicate HasHostname(t: Tree, i: Inputs) {
    var listeners := Listeners(t, i.slug);
    && listeners.Some? && listeners.value.List? && |listeners.value.items| == 2
    && Field(Item(listeners, 0), "hostname") == Some(Str(i.hostname))
    && Field(Item(listeners, 1), "hostname") == Some(Str(i.hostname))
    && Field(Spec(t, Ingress(i.slug, Certificate), 0), "dnsNames") == Some(List([Str(i.hostname)]))
    && Field(Spec(t, Ingress(i.slug, Routes), 0), "hostnames") == Some(List([Str(i.hostname)]))
    && Field(Spec(t, Ingress(i.slug, Routes), 1), "hostnames") == Some(List([Str(i.hostname)]))
  }

  /** The contact of the certificate authority, and the interfaces that announce the address. */
  predicate HasContact(t: Tree, i: Inputs) {
    && Field(Field(Spec(t, Ingress(i.slug, Issuer), 0), "acme"), "email") == Some(Str(i.contact))
    && Field(Spec(t, Ingress(i.slug, LoadBalancer), 1), "interfaces") == Some(List([Str(Pattern(i.interface))]))
  }

  /** The directory an application synchronises and the namespace it is deployed to. */
  function Directory(app: App, slug: string): string {
    match app
    case CustomerClusterApps => "clusters/" + slug + "/argocd-apps"
    case EnvoyGateway => "k8s-manifests/envoy-gateway"
    case CertManager => "k8s-manifests/cert-manager"
    case ArgoCd => "k8s-manifests/argocd"
    case PortalAccess => "k8s-manifests/portal-access"
    case ArgoCdIngress => "clusters/" + slug + "/addons/argocd-ingress"
    case AppsKustomization => ""
  }

  function Deployed(app: App): string {
    match app
    case EnvoyGateway => "envoy-gateway-system"
    case ArgoCdIngress => "envoy-gateway-system"
    case CertManager => "cert-manager"
    case _ => "argocd"
  }

  predicate HasApplication(t: Tree, repo: string, slug: string, app: App) {
    var source := Field(Spec(t, Apps(slug, app), 0), "source");
    && Field(source, "repoURL") == Some(Str(repo)) && Field(source, "path") == Some(Str(Directory(app, slug)))
    && Field(source, "targetRevision") == Some(Str("main"))
    && Field(Field(Spec(t, Apps(slug, app), 0), "destination"), "namespace") == Some(Str(Deployed(app)))
    && Namespace(Doc(t, Apps(slug, app), 0)) == Some(Str("argocd"))
  }

  // ---- what refers to what ----

  /** The Envoy service carries the label by which the pool and the announcement select services. */
  predicate PoolSelectsEnvoy(t: Tree, slug: string) {
    var labels := Field(EnvoyService(t, slug), "labels");
    && labels.Some? && labels.value.Obj? && labels.value.fields != map[]
    && Field(Field(Spec(t, Ingress(slug, LoadBalancer), 0), "serviceSelector"), "matchLabels") == labels
    && Field(Field(Spec(t, Ingress(slug, LoadBalancer), 1), "serviceSelector"), "matchLabels") == labels
    && Field(EnvoyService(t, slug), "type") == Some(Str("LoadBalancer"))
  }

  /** A parent reference names the gateway and one of its listeners. */
  predicate RefersTo(t: Tree, slug: string, parent: Option<Node>, listener: nat) {
    var gateway := Doc(t, Ingress(slug, Gateway), 0);
    && Name(gateway).Some? && Namespace(gateway).Some? && Field(Item(Listeners(t, slug), listener), "name").Some?
    && Field(parent, "name") == Name(gateway) && Field(parent, "namespace") == Namespace(gateway)
    && Field(parent, "kind") == Field(gateway, "kind")
    && Field(parent, "sectionName") == Field(Item(Listeners(t, slug), listener), "name")
  }

  function Parent(v: Option<Node>): Option<Node> {
    Item(Field(v, "parentRefs"), 0)
  }

  /** The solver that answers the certificate authority's challenges. */
  function Solver(t: Tree, slug: string): Option<Node> {
    var solvers := Field(Field(Spec(t, Ingress(slug, Issuer), 0), "acme"), "solvers");
    Field(Field(Item(solvers, 0), "http01"), "gatewayHTTPRoute")
  }

  /** Traffic is routed from the encrypted listener, redirected from the plain one, and challenges are
      answered on the plain one; the plain listener is HTTP on 80, the other HTTPS on 443. */
  predicate RoutesAttach(t: Tree, slug: string) {
    && RefersTo(t, slug, Parent(Spec(t, Ingress(slug, Routes), 0)), 1)
    && RefersTo(t, slug, Parent(Spec(t, Ingress(slug, Routes), 1)), 0)
    && RefersTo(t, slug, Parent(Solver(t, slug)), 0)
    && Field(Item(Listeners(t, slug), 0), "protocol") == Some(Str("HTTP"))
    && Field(Item(Listeners(t, slug), 0), "port") == Some(Num(80))
    && Field(Item(Listeners(t, slug), 1), "protocol") == Some(Str("HTTPS"))
    && Field(Item(Listeners(t, slug), 1), "port") == Some(Num(443))
  }

  /** The encrypted listener terminates with the secret the certificate is written to, the certificate
      is the issuer's, and the gateway is run by the Envoy proxy; all in one namespace. */
  predicate CertificateServes(t: Tree, slug: string) {
    var gateway, certificate := Doc(t, Ingress(slug, Gateway), 0), Doc(t, Ingress(slug, Certificate), 0);
    var issuer, proxy := Doc(t, Ingress(slug, Issuer), 0), Doc(t, Ingress(slug, EnvoyProxy), 0);
    var tls := Field(Item(Listeners(t, slug), 1), "tls");
    var secret := Field(Field(certificate, "spec"), "secretName");
    var owner := Field(Field(certificate, "spec"), "issuerRef");
    var parameters := Field(Field(Field(gateway, "spec"), "infrastructure"), "parametersRef");
    && secret.Some? && Field(Item(Field(tls, "certificateRefs"), 0), "name") == secret
    && Field(tls, "mode") == Some(Str("Terminate"))
    && Name(issuer).Some? && Field(owner, "name") == Name(issuer) && Field(owner, "kind") == Field(issuer, "kind")
    && Name(proxy).Some? && Field(parameters, "name") == Name(proxy) && Field(parameters, "kind") == Field(proxy, "kind")
    && Namespace(gateway).Some?
    && Namespace(gateway) == Namespace(certificate) == Namespace(issuer) == Namespace(proxy)
  }

  /** The kustomization of the applications lists each of them by its own name, and nothing else; that of
      the ingress lists the six files beside it. */
  predicate Listed(t: Tree, slug: string) {
    var apps := Field(Doc(t, Apps(slug, AppsKustomization), 0), "resources");
    && apps.Some? && apps.value.List? && |apps.value.items| == 6
    && (forall app: App | app != AppsKustomization ::
          var name := Name(Doc(t, Apps(slug, app), 0));
          name.Some? && name.value.Str? && Str(name.value.text + ".yaml") in apps.value.items)
    && Field(Doc(t, Ingress(slug, IngressKustomization), 0), "resources")
       == Some(List([Str("cilium-load-balancer.yaml"), Str("envoy-proxy.yaml"), Str("gateway.yaml"),
                     Str("issuer.yaml"), Str("certificate.yaml"), Str("routes.yaml")]))
  }

  // ---- in which order the applications are synchronised ----

  const WAVE := "argocd.argoproj.io/sync-wave"

  /** A wave as it is annotated; none counts as zero. */
  function Number(wave: Option<Node>): int {
    match wave
    case Some(Str(s)) =>
      if Digits(s) then Value(s)
      else if s != [] && s[0] == '-' && Digits(s[1..]) then 0 - Value(s[1..]) else 0
    case _ => 0
  }

  function Wave(t: Tree, slug: string, app: App): int {
    Number(Field(Field(Field(Doc(t, Apps(slug, app), 0), "metadata"), "annotations"), WAVE))
  }

  /** An application is told to create the namespace it deploys to. */
  predicate Creates(t: Tree, slug: string, app: App) {
    var options := Field(Field(Spec(t, Apps(slug, app), 0), "syncPolicy"), "syncOptions");
    options.Some? && options.value.List? && Str("CreateNamespace=true") in options.value.items
  }

  function Target(t: Tree, slug: string, app: App): Option<Node> {
    Field(Field(Spec(t, Apps(slug, app), 0), "destination"), "namespace")
  }

  /** Some application creates the namespace this one deploys to. */
  predicate HasCreator(t: Tree, slug: string, b: App) {
    exists a: App :: a != AppsKustomization && Target(t, slug, a) == Target(t, slug, b) && Creates(t, slug, a)
  }

  /** Where one application creates the namespace another deploys to, it alone does, in an earlier wave. */
  predicate Before(t: Tree, slug: string, a: App, b: App) {
    Target(t, slug, a) == Target(t, slug, b) && Creates(t, slug, a) ==>
      !Creates(t, slug, b) && Wave(t, slug, a) < Wave(t, slug, b)
  }

  /** Each namespace is created by exactly one of the applications that deploy to it, and that one is
      synchronised in an earlier wave than the others. */
  predicate NamespacesFirst(t: Tree, slug: string) {
    && (forall b: App | b != AppsKustomization :: HasCreator(t, slug, b))
    && (forall a: App, b: App | a != AppsKustomization && b != AppsKustomization && a != b :: Before(t, slug, a, b))
  }

  // ---- every generated and every accepted tree ----

  /** The ingress documents of a tree are the generated ones. */
  ghost predicate IngressOf(t: Tree, i: Inputs) {
    forall file | file != IngressReadme ::
      Ingress(i.slug, file) in t && Documents(t[Ingress(i.slug, file)]) == Some(RenderedIngress(i, file))
  }

  lemma DocOf(t: Tree, i: Inputs, file: IngressFile, k: nat)
    requires IngressOf(t, i) && file != IngressReadme && k < |RenderedIngress(i, file)|
    ensures Doc(t, Ingress(i.slug, file), k) == Some(RenderedIngress(i, file)[k])
  {
    hide RenderedIngress;
  }

  lemma Docs(t: Tree, i: Inputs)
    requires IngressOf(t, i)
    ensures Doc(t, Ingress(i.slug, LoadBalancer), 0) == Some(Pool(i.vip))
    ensures Doc(t, Ingress(i.slug, LoadBalancer), 1) == Some(Announcement(i.interface))
    ensures Doc(t, Ingress(i.slug, EnvoyProxy), 0) == Some(Proxy(i.vip))
    ensures Doc(t, Ingress(i.slug, Gateway), 0) == Some(PublicGateway(i.hostname))
    ensures Doc(t, Ingress(i.slug, Issuer), 0) == Some(LetsEncrypt(i.contact))
    ensures Doc(t, Ingress(i.slug, Certificate), 0) == Some(GatewayCertificate(i.hostname))
    ensures Doc(t, Ingress(i.slug, Routes), 0) == Some(HttpsRoute(i.hostname))
    ensures Doc(t, Ingress(i.slug, Routes), 1) == Some(RedirectRoute(i.hostname))
    ensures Doc(t, Ingress(i.slug, IngressKustomization), 0) == Some(Kustomization(IngressResources()))
  {
    hide Pool, Announcement, Proxy, PublicGateway, LetsEncrypt, GatewayCertificate, HttpsRoute, RedirectRoute,
         Kustomization, IngressOf, Doc;
    DocOf(t, i, LoadBalancer, 0);
    DocOf(t, i, LoadBalancer, 1);
    DocOf(t, i, EnvoyProxy, 0);
    DocOf(t, i, Gateway, 0);
    DocOf(t, i, Issuer, 0);
    DocOf(t, i, Certificate, 0);
    DocOf(t, i, Routes, 0);
    DocOf(t, i, Routes, 1);
    DocOf(t, i, IngressKustomization, 0);
  }

  lemma VipFields(t: Tree, i: Inputs)
    requires IngressOf(t, i)
    ensures HasVip(t, i)
  {
    hide IngressOf, Doc, Proxy;
    Docs(t, i);
    ServiceOf(i.vip);
  }

  lemma ServiceOf(vip: string)
    ensures var service := Field(Field(Field(Field(Some(Proxy(vip)), "spec"), "provider"), "kubernetes"), "envoyService");
            && Field(service, "loadBalancerIP") == Some(Str(vip))
            && Field(service, "type") == Some(Str("LoadBalancer"))
            && Field(service, "labels")
               == Some(Obj(map["customer-clusters.sunet.se/load-balancer-pool" := Str("ingress")]))
  {
    hide Spread;
  }

  lemma HostnameFields(t: Tree, i: Inputs)
    requires IngressOf(t, i)
    ensures HasHostname(t, i)
  {
    hide IngressOf, Doc, Route, PublicGateway;
    Docs(t, i);
    ListenersOf(i.hostname);
    RouteOf("argocd", "argocd-https", i.hostname, "backendRefs",
            Obj(map["group" := Str(""), "kind" := Str("Service"), "name" := Str("argocd-server"),
                    "port" := Num(80), "weight" := Num(1)]));
    RouteOf("argocd-http-redirect", "argocd-http", i.hostname, "filters",
            Obj(map["type" := Str("RequestRedirect"),
                    "requestRedirect" := Obj(map["scheme" := Str("https"), "statusCode" := Num(301)])]));
  }

  lemma ListenersOf(hostname: string)
    ensures var gateway := Some(PublicGateway(hostname));
            var listeners := Field(Field(gateway, "spec"), "listeners");
            && listeners.Some? && listeners.value.List? && |listeners.value.items| == 2
            && (forall k | 0 <= k < 2 ::
                  && Field(Item(listeners, k), "hostname") == Some(Str(hostname))
                  && Field(Item(listeners, k), "name") == Some(Str(if k == 0 then "argocd-http" else "argocd-https"))
                  && Field(Item(listeners, k), "protocol") == Some(Str(if k == 0 then "HTTP" else "HTTPS"))
                  && Field(Item(listeners, k), "port") == Some(Num(if k == 0 then 80 else 443)))
            && var tls := Field(Item(listeners, 1), "tls");
            && Field(tls, "mode") == Some(Str("Terminate"))
            && Field(Item(Field(tls, "certificateRefs"), 0), "name") == Some(Str("argocd-gateway-tls"))
  {
  }

  lemma GatewayOf(hostname: string)
    ensures var gateway := Some(PublicGateway(hostname));
            && Name(gateway) == Some(Str("public")) && Namespace(gateway) == Some(Str("envoy-gateway-system"))
            && Field(gateway, "kind") == Some(Str("Gateway"))
            && var parameters := Field(Field(Field(gateway, "spec"), "infrastructure"), "parametersRef");
            && Field(parameters, "name") == Some(Str("public")) && Field(parameters, "kind") == Some(Str("EnvoyProxy"))
  {
    hide Listener;
  }

  lemma RouteOf(name: string, section: string, hostname: string, extra: string, backend: Node)
    ensures var spec := Field(Some(Route(name, section, hostname, extra, backend)), "spec");
            && Field(spec, "hostnames") == Some(List([Str(hostname)]))
            && Item(Field(spec, "parentRefs"), 0) == Some(ParentRef(section))
  {
    hide ParentRef;
  }

  lemma ContactFields(t: Tree, i: Inputs)
    requires IngressOf(t, i)
    ensures HasContact(t, i)
  {
    hide IngressOf, Doc, Pattern;
    Docs(t, i);
  }

  lemma SelectorsOf(vip: string, interface: string)
    ensures var labels := Some(Obj(map["customer-clusters.sunet.se/load-balancer-pool" := Str("ingress")]));
            && Field(Field(Field(Some(Pool(vip)), "spec"), "serviceSelector"), "matchLabels") == labels
            && Field(Field(Field(Some(Announcement(interface)), "spec"), "serviceSelector"), "matchLabels") == labels
  {
    hide Pattern;
  }

  lemma SelectFields(t: Tree, i: Inputs)
    requires IngressOf(t, i)
    ensures PoolSelectsEnvoy(t, i.slug)
  {
    hide IngressOf, Doc, Pool, Announcement, Proxy, Field;
    Docs(t, i);
    ServiceOf(i.vip);
    SelectorsOf(i.vip, i.interface);
    assert "customer-clusters.sunet.se/load-balancer-pool"
        in map["customer-clusters.sunet.se/load-balancer-pool" := Str("ingress")];
  }

  lemma ParentRefOf(section: string)
    ensures var parent := Some(ParentRef(section));
            && Field(parent, "name") == Some(Str("public")) && Field(parent, "namespace") == Some(Str("envoy-gateway-system"))
            && Field(parent, "kind") == Some(Str("Gateway")) && Field(parent, "sectionName") == Some(Str(section))
  {
  }

  lemma SolverOf(contact: string)
    ensures var solvers := Field(Field(Field(Some(LetsEncrypt(contact)), "spec"), "acme"), "solvers");
            Parent(Field(Field(Item(solvers, 0), "http01"), "gatewayHTTPRoute")) == Some(ParentRef("argocd-http"))
  {
    hide ParentRef;
  }

  lemma RouteFields(t: Tree, i: Inputs)
    requires IngressOf(t, i)
    ensures RoutesAttach(t, i.slug)
  {
    hide IngressOf, Doc, PublicGateway, LetsEncrypt, ParentRef, Route, Field, Item;
    Docs(t, i);
    ListenersOf(i.hostname);
    GatewayOf(i.hostname);
    SolverOf(i.contact);
    ParentRefOf("argocd-http");
    ParentRefOf("argocd-https");
    RouteOf("argocd", "argocd-https", i.hostname, "backendRefs",
            Obj(map["group" := Str(""), "kind" := Str("Service"), "name" := Str("argocd-server"),
                    "port" := Num(80), "weight" := Num(1)]));
    RouteOf("argocd-http-redirect", "argocd-http", i.hostname, "filters",
            Obj(map["type" := Str("RequestRedirect"),
                    "requestRedirect" := Obj(map["scheme" := Str("https"), "statusCode" := Num(301)])]));
  }

  lemma CertificateOf(hostname: string)
    ensures var certificate := Some(GatewayCertificate(hostname));
            && Field(Field(certificate, "spec"), "secretName") == Some(Str("argocd-gateway-tls"))
            && Field(Field(Field(certificate, "spec"), "issuerRef"), "name") == Some(Str("letsencrypt"))
            && Field(Field(Field(certificate, "spec"), "issuerRef"), "kind") == Some(Str("Issuer"))
            && Namespace(certificate) == Some(Str("envoy-gateway-system"))
  {
  }

  lemma IssuerOf(contact: string)
    ensures var issuer := Some(LetsEncrypt(contact));
            && Name(issuer) == Some(Str("letsencrypt")) && Field(issuer, "kind") == Some(Str("Issuer"))
            && Namespace(issuer) == Some(Str("envoy-gateway-system"))
  {
    hide ParentRef;
  }

  lemma ProxyOf(vip: string)
    ensures var proxy := Some(Proxy(vip));
            && Name(proxy) == Some(Str("public")) && Field(proxy, "kind") == Some(Str("EnvoyProxy"))
            && Namespace(proxy) == Some(Str("envoy-gateway-system"))
  {
    hide Spread;
  }

  lemma CertificateFields(t: Tree, i: Inputs)
    requires IngressOf(t, i)
    ensures CertificateServes(t, i.slug)
  {
    hide IngressOf, Doc, PublicGateway, LetsEncrypt, GatewayCertificate, Proxy, Field, Item, Name, Namespace;
    Docs(t, i);
    ListenersOf(i.hostname);
    GatewayOf(i.hostname);
    CertificateOf(i.hostname);
    IssuerOf(i.contact);
    ProxyOf(i.vip);
  }

  /** The ingress of a tree: each input where it belongs, and every reference resolved. */
  predicate IngressCoherent(t: Tree, i: Inputs) {
    && HasVip(t, i) && HasHostname(t, i) && HasContact(t, i)
    && PoolSelectsEnvoy(t, i.slug) && RoutesAttach(t, i.slug) && CertificateServes(t, i.slug)
  }

  lemma IngressCoheres(t: Tree, i: Inputs)
    requires IngressOf(t, i)
    ensures IngressCoherent(t, i)
  {
    hide IngressOf, HasVip, HasHostname, HasContact, PoolSelectsEnvoy, RoutesAttach, CertificateServes;
    VipFields(t, i);
    HostnameFields(t, i);
    ContactFields(t, i);
    SelectFields(t, i);
    RouteFields(t, i);
    CertificateFields(t, i);
  }

  lemma ApplicationAt(repo: string, app: App, slug: string)
    requires app != AppsKustomization
    ensures var d := Some(Application(repo, app, slug));
            var source := Field(Field(d, "spec"), "source");
            && Field(source, "repoURL") == Some(Str(repo)) && Field(source, "path") == Some(Str(Directory(app, slug)))
            && Field(source, "targetRevision") == Some(Str("main"))
            && Field(Field(Field(d, "spec"), "destination"), "namespace") == Some(Str(Deployed(app)))
            && Namespace(d) == Some(Str("argocd")) && Name(d) == Some(Str(AppName(app)))
  {
    hide SyncOptions, AppWave, AppPath, AppNamespace, AppName, Directory, Deployed;
    AppPathAt(app, slug);
  }

  lemma AppPathAt(app: App, slug: string)
    requires app != AppsKustomization
    ensures AppPath(app, slug) == Directory(app, slug) && AppNamespace(app) == Deployed(app)
  {
    var bases := "k8s-manifests/";
    assert bases + "envoy-gateway" == "k8s-manifests/envoy-gateway";
    assert bases + "cert-manager" == "k8s-manifests/cert-manager";
    assert bases + "argocd" == "k8s-manifests/argocd";
    assert bases + "portal-access" == "k8s-manifests/portal-access";
  }

  lemma TwoDigits(a: char, b: char)
    requires Digit(a) && Digit(b)
    ensures Number(Some(Str(['-', a, b]))) == 0 - 10 * (a as int - '0' as int) - (b as int - '0' as int)
  {
    var s := ['-', a, b];
    assert s[1..] == [a, b] && [a, b][..1] == [a] && [a][..0] == "";
    assert Value("") == 0 && Value([a]) == a as int - '0' as int;
    assert s[0] == '-' && !Digit(s[0]);
    assert Digit([a, b][0]) && Digit([a, b][1]);
  }

  lemma WavesOf(app: App)
    ensures Number(match AppWave(app) case Some(w) => Some(Str(w)) case None => None)
         == match app
            case EnvoyGateway => -30
            case CertManager => -20
            case ArgoCd => -20
            case PortalAccess => -10
            case _ => 0
  {
    hide Number;
    TwoDigits('3', '0');
    TwoDigits('2', '0');
    TwoDigits('1', '0');
    assert ['-', '3', '0'] == "-30" && ['-', '2', '0'] == "-20" && ['-', '1', '0'] == "-10";
    NoWave();
  }

  lemma NoWave()
    ensures Number(None) == 0 && Number(Some(Str("0"))) == 0
  {
    assert "0"[..0] == "" && Value("") == 0 && Digit("0"[0]);
  }

  lemma OptionsOf(app: App)
    ensures Str("CreateNamespace=true") in SyncOptions(app) <==> app in {EnvoyGateway, CertManager, ArgoCd}
  {
    var create := "CreateNamespace=true";
    assert |create| == 20 && |"PruneLast=true"| == 14 && |"RespectIgnoreDifferences=true"| == 29 && |"ServerSideApply=true"| == 20;
    assert create[0] == 'C' && "ServerSideApply=true"[0] == 'S';
    if app in {EnvoyGateway, CertManager, ArgoCd} {
      assert SyncOptions(app)[0] == Str(create);
    }
  }

  lemma OrderAt(repo: string, app: App, slug: string)
    requires app != AppsKustomization
    ensures var d := Some(Application(repo, app, slug));
            && Field(Field(Field(d, "metadata"), "annotations"), WAVE)
               == (match AppWave(app) case Some(w) => Some(Str(w)) case None => None)
            && Field(Field(Field(d, "spec"), "syncPolicy"), "syncOptions") == Some(List(SyncOptions(app)))
  {
    hide SyncOptions, AppWave, AppPath, AppNamespace, AppName;
    assert |WAVE| != |"argocd.argoproj.io/compare-options"|;
    assert WAVE != "argocd.argoproj.io/compare-options";
  }

  /** Where, when and how an application of a generated tree is synchronised. */
  predicate Ordered(t: Tree, slug: string, app: App) {
    && Target(t, slug, app) == Some(Str(Deployed(app)))
    && (Creates(t, slug, app) <==> app in {EnvoyGateway, CertManager, ArgoCd})
    && Wave(t, slug, app) == match app
                             case EnvoyGateway => -30
                             case CertManager => -20
                             case ArgoCd => -20
                             case PortalAccess => -10
                             case _ => 0
  }

  lemma OrderOf(t: Tree, repo: string, i: Inputs, app: App)
    requires AppsOf(t, repo, i) && app != AppsKustomization
    ensures Ordered(t, i.slug, app)
  {
    hide AppsOf, Application, Field, Doc, Number, SyncOptions, AppWave, Directory, Deployed;
    AppDoc(t, repo, i, app);
    ApplicationAt(repo, app, i.slug);
    OrderAt(repo, app, i.slug);
    OptionsOf(app);
    WavesOf(app);
  }

  lemma EarlierThan(t: Tree, slug: string, a: App, b: App)
    requires Ordered(t, slug, a) && Ordered(t, slug, b) && a != b && AppsKustomization !in {a, b}
    ensures Before(t, slug, a, b)
  {
    hide Creates, Wave, Target;
    if Target(t, slug, a) == Target(t, slug, b) {
      assert Deployed(a) == Deployed(b);
      assert |"argocd"| == 6 && |"cert-manager"| == 12 && |"envoy-gateway-system"| == 20;
    }
  }

  lemma CreatedBy(t: Tree, repo: string, i: Inputs, b: App)
    requires AppsOf(t, repo, i) && b != AppsKustomization
    ensures HasCreator(t, i.slug, b)
  {
    var a := match b
             case EnvoyGateway => EnvoyGateway
             case ArgoCdIngress => EnvoyGateway
             case CertManager => CertManager
             case _ => ArgoCd;
    hide AppsOf, Creates, Wave, Target;
    OrderOf(t, repo, i, a);
    OrderOf(t, repo, i, b);
    assert Target(t, i.slug, a) == Target(t, i.slug, b) && Creates(t, i.slug, a);
  }

  lemma OrderFields(t: Tree, repo: string, i: Inputs)
    requires AppsOf(t, repo, i)
    ensures NamespacesFirst(t, i.slug)
  {
    hide AppsOf, HasCreator, Before, Ordered;
    forall app: App | app != AppsKustomization ensures HasCreator(t, i.slug, app) && Ordered(t, i.slug, app) {
      OrderOf(t, repo, i, app);
      CreatedBy(t, repo, i, app);
    }
    forall a: App, b: App | a != AppsKustomization && b != AppsKustomization && a != b ensures Before(t, i.slug, a, b) {
      EarlierThan(t, i.slug, a, b);
    }
  }

  /** Every generated tree: its ingress is coherent, each application synchronises its own directory of
      the repository into its own namespace, and the kustomizations list what is there, and
      namespaces are created first. */
  lemma RenderedFields(repo: string, bases: string, i: Inputs)
    requires RenderTree(repo, bases, i).Some?
    ensures var t := RenderTree(repo, bases, i).value;
            && IngressCoherent(t, i) && Listed(t, i.slug) && NamespacesFirst(t, i.slug)
            && (forall app: App | app != AppsKustomization :: HasApplication(t, repo, i.slug, app))
  {
    hide RenderTree, IngressCoherent, RenderedIngress, Application, RenderFile, Kustomization, KnownPaths, YamlPaths,
         IsApplication, Directory, Deployed, AppName, Rendered, Documents, Listed, HasApplication, NamespacesFirst;
    var t := RenderTree(repo, bases, i).value;
    RenderedKeys(repo, bases, i);
    forall file | file != IngressReadme
      ensures Ingress(i.slug, file) in t && Documents(t[Ingress(i.slug, file)]) == Some(RenderedIngress(i, file))
    {
      YamlPathsMeaning(i.slug, Ingress(i.slug, file));
      RenderedDocuments(repo, bases, i, Ingress(i.slug, file));
    }
    IngressCoheres(t, i);
    forall app: App
      ensures Apps(i.slug, app) in t && Documents(t[Apps(i.slug, app)]) == Some(Rendered(repo, i, Apps(i.slug, app)))
    {
      YamlPathsMeaning(i.slug, Apps(i.slug, app));
      RenderedDocuments(repo, bases, i, Apps(i.slug, app));
    }
    AppFields(t, repo, i);
    Docs(t, i);
    ListedFields(t, repo, i);
    OrderFields(t, repo, i);
  }

  /** The application documents of a tree are the generated ones. */
  ghost predicate AppsOf(t: Tree, repo: string, i: Inputs) {
    forall app: App ::
      Apps(i.slug, app) in t && Documents(t[Apps(i.slug, app)]) == Some(Rendered(repo, i, Apps(i.slug, app)))
  }

  lemma AppDoc(t: Tree, repo: string, i: Inputs, app: App)
    requires AppsOf(t, repo, i)
    ensures Doc(t, Apps(i.slug, app), 0)
         == Some(if app == AppsKustomization then Kustomization(AppResources()) else Application(repo, app, i.slug))
  {
    hide Application, Kustomization, Documents;
    assert Apps(i.slug, app) in t;
  }

  lemma AppFields(t: Tree, repo: string, i: Inputs)
    requires AppsOf(t, repo, i)
    ensures forall app: App | app != AppsKustomization :: HasApplication(t, repo, i.slug, app)
  {
    hide AppsOf, Application, Field, Doc, Directory, Deployed;
    forall app: App | app != AppsKustomization ensures HasApplication(t, repo, i.slug, app) {
      AppDoc(t, repo, i, app);
      ApplicationAt(repo, app, i.slug);
    }
  }

  lemma ResourceNames(app: App)
    requires app != AppsKustomization
    ensures Str(AppName(app) + ".yaml") in AppResources() && |AppResources()| == 6
  {
    var rs := AppResources();
    match app {
      case CustomerClusterApps => assert rs[0] == Str("customer-cluster-apps" + ".yaml");
      case EnvoyGateway => assert rs[1] == Str("envoy-gateway" + ".yaml");
      case CertManager => assert rs[2] == Str("cert-manager" + ".yaml");
      case ArgoCd => assert rs[3] == Str("argocd" + ".yaml");
      case PortalAccess => assert rs[4] == Str("portal-access" + ".yaml");
      case ArgoCdIngress => assert rs[5] == Str("argocd-ingress" + ".yaml");
    }
  }

  lemma ListedFields(t: Tree, repo: string, i: Inputs)
    requires AppsOf(t, repo, i)
    requires Doc(t, Ingress(i.slug, IngressKustomization), 0) == Some(Kustomization(IngressResources()))
    ensures Listed(t, i.slug)
  {
    hide AppsOf, Application, Doc, AppResources, AppName, Name, Namespace;
    AppDoc(t, repo, i, AppsKustomization);
    ResourceNames(ArgoCd);
    forall app: App | app != AppsKustomization
      ensures var name := Name(Doc(t, Apps(i.slug, app), 0));
              name == Some(Str(AppName(app))) && Str(AppName(app) + ".yaml") in AppResources()
    {
      AppDoc(t, repo, i, app);
      ApplicationAt(repo, app, i.slug);
      ResourceNames(app);
    }
  }

  /** Every accepted tree, however it is written: its ingress is coherent for the inputs it is accepted
      with, so its files agree on the address, on the hostname and on each other. */
  lemma AcceptedFields(files: Tree, repo: string, bases: string, i: Inputs)
    requires Validate(files, repo, bases) == Accepted(i)
    ensures IngressCoherent(files, i)
  {
    hide Validate, RenderTree, IngressCoherent, RenderedIngress, RenderFile, KnownPaths, YamlPaths, IsApplication,
         Rendered, Documents, Semantic, CheckPaths;
    AcceptedIff(files, repo, bases, i);
    CheckedPaths(files);
    RenderedKeys(repo, bases, i);
    forall file | file != IngressReadme
      ensures Ingress(i.slug, file) in files && Documents(files[Ingress(i.slug, file)]) == Some(RenderedIngress(i, file))
    {
      var p := Ingress(i.slug, file);
      YamlPathsMeaning(i.slug, p);
      RenderedDocuments(repo, bases, i, p);
      SameDocuments(files[p], RenderFile(repo, bases, i, p));
    }
    IngressCoheres(files, i);
  }

  /** Normalising a document's repository address changes no other field of its source or destination. */
  lemma NormalKeepsFields(d: Node, k: string)
    requires Normal(d).Some? && k != "repoURL"
    ensures Field(Field(Field(Normal(d), "spec"), "source"), k) == Field(Field(Field(Some(d), "spec"), "source"), k)
    ensures Field(Field(Field(Normal(d), "spec"), "destination"), k) == Field(Field(Field(Some(d), "spec"), "destination"), k)
  {
    hide IsApplication, Canonical;
  }

  /** Where an application of a tree deploys what from, its repository aside. */
  predicate Deploys(t: Tree, slug: string, app: App) {
    var source := Field(Spec(t, Apps(slug, app), 0), "source");
    && Field(source, "path") == Some(Str(Directory(app, slug))) && Field(source, "targetRevision") == Some(Str("main"))
    && Field(Field(Spec(t, Apps(slug, app), 0), "destination"), "namespace") == Some(Str(Deployed(app)))
  }

  lemma SameDeploys(c: Content, repo: string, app: App, slug: string, t: Tree)
    requires app != AppsKustomization && Apps(slug, app) in t && t[Apps(slug, app)] == c
    requires Documents(RenderFile(repo, "", Inputs(slug, "", "", "", ""), Apps(slug, app))) == Some([Application(repo, app, slug)])
    requires Semantic(c).Some? && NormalAll([Application(repo, app, slug)]) == Semantic(c)
    ensures Deploys(t, slug, app)
  {
    hide Application, Normal, RenderFile, Directory, Deployed, Field;
    var docs := Documents(c).value;
    var d, e := docs[0], [Application(repo, app, slug)][0];
    assert Normal(d) == Some(Semantic(c).value[0]) == Normal(e);
    ApplicationAt(repo, app, slug);
    NormalKeepsFields(d, "path");
    NormalKeepsFields(e, "path");
    NormalKeepsFields(d, "targetRevision");
    NormalKeepsFields(e, "targetRevision");
    NormalKeepsFields(d, "namespace");
    NormalKeepsFields(e, "namespace");
  }

  /** And each application of an accepted tree deploys its own directory to its own namespace. */
  lemma AcceptedApplications(files: Tree, repo: string, bases: string, i: Inputs, app: App)
    requires Validate(files, repo, bases) == Accepted(i) && app != AppsKustomization
    ensures Deploys(files, i.slug, app)
  {
    hide Validate, RenderTree, RenderFile, KnownPaths, YamlPaths, IsApplication, Rendered, Documents, CheckPaths, Deploys,
         Application, NormalAll;
    AcceptedIff(files, repo, bases, i);
    CheckedPaths(files);
    RenderedKeys(repo, bases, i);
    var p := Apps(i.slug, app);
    YamlPathsMeaning(i.slug, p);
    RenderedDocuments(repo, bases, i, p);
    RenderedApplication(repo, i, app);
    RenderedDocuments(repo, "", Inputs(i.slug, "", "", "", ""), p);
    RenderedApplication(repo, Inputs(i.slug, "", "", "", ""), app);
    SameDeploys(files[p], repo, app, i.slug, files);
  }

  lemma RenderedApplication(repo: string, i: Inputs, app: App)
    requires app != AppsKustomization
    ensures Rendered(repo, i, Apps(i.slug, app)) == [Application(repo, app, i.slug)]
  {
    hide Application;
  }
}
