/** The store after a pass with every call served, spelled out in terms of the settings and the
    cluster: which objects are written, what is in them, and what stays as it was. */
module Store {
  import opened Wrappers
  import opened Naming
  import opened Kube
  import opened Objects
  import opened Operators
  import opened ApiServer
  import opened Protocol
  import opened AdmissionRuns
  import opened BindingSafety
  import opened Footprints
  import opened Convergence
  import Policies
  import Closure
  import CaStability

  // ---------------------------------------------------------------- which objects are due

  /** The OAuth objects: on OpenShift, with OAuth not switched off, for a cluster not suspended. */
  predicate ProxyDue(s: Settings, c: RayCluster) {
    s.oauth != Some(false) && s.openShift && c.suspend != Some(true)
  }

  /** The ingresses: elsewhere, with OAuth switched off, for a cluster not suspended. */
  predicate OnPlainKubernetes(s: Settings, c: RayCluster) {
    s.oauth == Some(false) && !s.openShift && c.suspend != Some(true)
  }

  predicate Due(s: Settings, c: RayCluster, part: Part) {
    match part
    case CaSecretPart => s.mtls != Some(false)
    case DashboardRoutePart => ProxyDue(s, c)
    case OAuthSecretPart => ProxyDue(s, c)
    case OAuthServicePart => ProxyDue(s, c)
    case OAuthAccountPart => ProxyDue(s, c)
    case OAuthBindingPart => ProxyDue(s, c)
    case ClientRoutePart => ProxyDue(s, c)
    case DashboardIngressPart => OnPlainKubernetes(s, c) && s.ingressDomain != ""
    case ClientIngressPart => OnPlainKubernetes(s, c) && s.ingressDomain != ""
    case HeadPolicyPart => !(OnPlainKubernetes(s, c) && s.ingressDomain == "")
    case WorkersPolicyPart => !(OnPlainKubernetes(s, c) && s.ingressDomain == "")
  }

  lemma OperatorFields(s: Settings)
    ensures var op := OperatorFor(s);
            && (op.oauth <==> s.oauth != Some(false)) && (op.mtls <==> s.mtls != Some(false))
            && (op.openShift <==> s.openShift) && (op.hasIngressDomain <==> s.ingressDomain != "")
  {
    hide Place, Content;
  }

  lemma DueIsNeeded(s: Settings, c: RayCluster, part: Part)
    ensures Closure.Needed(OperatorFor(s), c, part) <==> Due(s, c, part)
    ensures Succeeds(OperatorFor(s), c) <==> !(OnPlainKubernetes(s, c) && s.ingressDomain == "")
  {
    hide OperatorFor;
    OperatorFields(s);
  }

  /** Where each object is. */
  lemma PlaceSpelled(s: Settings, id: Identity, part: Part)
    ensures var at := Place(s, id, part); var ns := id.namespace;
            match part
            case CaSecretPart => at == ObjectKey(SecretKind, ns, s.Name(id, CaSecretRole))
            case OAuthSecretPart => at == ObjectKey(SecretKind, ns, s.Name(id, OAuthConfigRole))
            case OAuthServicePart => at == ObjectKey(ServiceKind, ns, s.Name(id, OAuthServiceRole))
            case OAuthAccountPart => at == ObjectKey(AccountKind, ns, s.Name(id, OAuthAccountRole))
            case OAuthBindingPart => at == ObjectKey(BindingKind, "", s.Crb(id))
            case HeadPolicyPart => at == ObjectKey(PolicyKind, ns, s.Name(id, HeadPolicyRole))
            case WorkersPolicyPart => at == ObjectKey(PolicyKind, ns, s.Name(id, WorkersPolicyRole))
            case DashboardRoutePart => at == ObjectKey(RouteKind, ns, "ray-dashboard-" + id.name)
            case ClientRoutePart => at == ObjectKey(RouteKind, ns, "rayclient-" + id.name)
            case DashboardIngressPart => at == ObjectKey(IngressKind, ns, "ray-dashboard-" + id.name)
            case ClientIngressPart => at == ObjectKey(IngressKind, ns, "rayclient-" + id.name)
  {
    hide RoleName, CrbName;
  }

  // ---------------------------------------------------------------- what is in them

  predicate Labelled(a: Applied, c: RayCluster) {
    a.labels == map["ray.openshift.ai/cluster-name" := c.meta.name]
  }

  /** Owned by this incarnation of the cluster, as its controller. */
  predicate OwnedBy(a: Applied, c: RayCluster) {
    a.owner == Some(OwnerRef(c.apiVersion, c.kind, c.meta.name, c.meta.uid, true))
  }

  predicate Plain(a: Applied, c: RayCluster) {
    Labelled(a, c) && a.annotations == map[] && OwnedBy(a, c)
  }

  predicate CaSecretSpelled(a: Applied, c: RayCluster, pair: KeyPair) {
    Plain(a, c) && a.body == SecretBody(map["ca.key" := pair.key, "ca.crt" := pair.cert])
  }

  predicate CookieSpelled(s: Settings, a: Applied, c: RayCluster, salt: string) {
    Plain(a, c) && a.body == SecretBody(map["cookie_secret" := s.cookie(c.meta.name + salt)])
  }

  predicate DashboardRouteSpelled(a: Applied, c: RayCluster, service: string) {
    Plain(a, c) && a.body == RouteBody(service, None, "oauth-proxy", "reencrypt", "Redirect")
  }

  predicate ClientRouteSpelled(a: Applied, c: RayCluster) {
    Plain(a, c) && a.body == RouteBody(c.meta.name + "-head-svc", Some(100), "client", "passthrough", "")
  }

  predicate ServiceSpelled(a: Applied, c: RayCluster, tlsSecret: string) {
    && Labelled(a, c) && OwnedBy(a, c)
    && a.annotations == map["service.beta.openshift.io/serving-cert-secret-name" := tlsSecret]
    && a.body == ServiceBody("oauth-proxy", 443, "oauth-proxy", "TCP",
                             map["ray.io/cluster" := c.meta.name, "ray.io/node-type" := "head"])
  }

  /** The account redirects to the dashboard route. */
  function Redirect(name: string): map<string, string> {
    map["serviceaccounts.openshift.io/oauth-redirectreference.first" :=
        "{\"kind\":\"OAuthRedirectReference\",\"apiVersion\":\"v1\",\"reference\":{\"kind\":\"Route\",\"name\":\""
        + ("ray-dashboard-" + name) + "\"}}"]
  }

  predicate AccountSpelled(a: Applied, c: RayCluster) {
    Labelled(a, c) && OwnedBy(a, c) && a.body == AccountBody && a.annotations == Redirect(c.meta.name)
  }

  predicate BindingSpelled(a: Applied, c: RayCluster, account: string) {
    && a.labels == map["ray.openshift.ai/cluster-name" := c.meta.name,
                       "ray.openshift.ai/cluster-namespace" := c.meta.namespace]
    && a.annotations == map[] && a.owner == None
    && a.body == BindingBody("ServiceAccount", account, c.meta.namespace,
                             "rbac.authorization.k8s.io", "ClusterRole", "system:auth-delegator")
  }

  predicate DashboardIngressSpelled(s: Settings, a: Applied, c: RayCluster) {
    && Plain(a, c)
    && a.body == IngressBody(None, "ray-dashboard-" + c.meta.name + "-" + c.meta.namespace + "." + s.ingressDomain,
                             "/", "Prefix", c.meta.name + "-head-svc", "dashboard", 0)
  }

  predicate ClientIngressSpelled(s: Settings, a: Applied, c: RayCluster) {
    && Labelled(a, c) && OwnedBy(a, c)
    && a.annotations == map["nginx.ingress.kubernetes.io/rewrite-target" := "/",
                            "nginx.ingress.kubernetes.io/ssl-redirect" := "true",
                            "nginx.ingress.kubernetes.io/ssl-passthrough" := "true"]
    && a.body == IngressBody(Some("nginx"), "rayclient-" + c.meta.name + "-" + c.meta.namespace + "." + s.ingressDomain,
                             "/", "ImplementationSpecific", c.meta.name + "-head-svc", "", 10001)
  }

  /** A policy that selects exactly the head pods of the cluster and admits what the closed form says. */
  ghost predicate HeadPolicySpelled(a: Applied, c: RayCluster, mtls: bool, nss: seq<string>) {
    && Plain(a, c) && a.body.PolicyBody?
    && GovernsHead(a.body.spec, c.meta.name) && AdmitsHead(a.body.spec, c.meta.name, mtls, nss)
  }

  ghost predicate GovernsHead(spec: Policies.PolicySpec, name: string) {
    forall dst: Policies.Endpoint :: Policies.Selects(spec.podSelector, dst.labels) <==>
      Policies.Labelled(dst, "ray.io/cluster", name) && Policies.Labelled(dst, "ray.io/node-type", "head")
  }

  ghost predicate AdmitsHead(spec: Policies.PolicySpec, name: string, mtls: bool, nss: seq<string>) {
    forall ns: string, src: Option<Policies.Endpoint>, port: Policies.PolicyPort ::
      Policies.Admits(Policies.Installed(ns, spec), src, port) <==> Policies.HeadOpen(ns, name, mtls, nss, src, port)
  }

  ghost predicate WorkersPolicySpelled(a: Applied, c: RayCluster) {
    && Plain(a, c) && a.body.PolicyBody?
    && GovernsWorkers(a.body.spec, c.meta.name) && AdmitsWorkers(a.body.spec, c.meta.name)
  }

  ghost predicate GovernsWorkers(spec: Policies.PolicySpec, name: string) {
    forall dst: Policies.Endpoint :: Policies.Selects(spec.podSelector, dst.labels) <==>
      Policies.Labelled(dst, "ray.io/cluster", name) && Policies.Labelled(dst, "ray.io/node-type", "worker")
  }

  ghost predicate AdmitsWorkers(spec: Policies.PolicySpec, name: string) {
    forall ns: string, src: Option<Policies.Endpoint>, port: Policies.PolicyPort ::
      Policies.Admits(Policies.Installed(ns, spec), src, port) <==> Policies.WorkerOpen(ns, name, src)
  }

  /** The applied fields of each object. */
  ghost predicate Spelled(s: Settings, a: Applied, c: RayCluster, part: Part, l: Locals) {
    var id := c.Ident();
    match part
    case CaSecretPart => CaSecretSpelled(a, c, l.pair)
    case DashboardRoutePart => DashboardRouteSpelled(a, c, s.Name(id, OAuthServiceRole))
    case OAuthSecretPart => CookieSpelled(s, a, c, l.salt)
    case OAuthServicePart => ServiceSpelled(a, c, s.Name(id, OAuthTlsRole))
    case OAuthAccountPart => AccountSpelled(a, c)
    case OAuthBindingPart => BindingSpelled(a, c, s.Name(id, OAuthAccountRole))
    case ClientRoutePart => ClientRouteSpelled(a, c)
    case DashboardIngressPart => DashboardIngressSpelled(s, a, c)
    case ClientIngressPart => ClientIngressSpelled(s, a, c)
    case HeadPolicyPart => HeadPolicySpelled(a, c, s.mtls != Some(false), l.kubeRayNamespaces)
    case WorkersPolicyPart => WorkersPolicySpelled(a, c)
  }

  // ---------------------------------------------------------------- the builders meet the description

  lemma LabelledContent(s: Settings, c: RayCluster, part: Part, l: Locals)
    requires part != OAuthBindingPart
    ensures var a := Content(s, SubjectOf(c), part, l); Labelled(a, c) && OwnedBy(a, c)
  {
    hide BodyOf, AnnotationsOf;
  }

  lemma PlainContent(s: Settings, c: RayCluster, part: Part, l: Locals)
    requires part != OAuthBindingPart && part != OAuthServicePart && part != OAuthAccountPart
        && part != ClientIngressPart
    ensures Plain(Content(s, SubjectOf(c), part, l), c)
  {
    hide BodyOf, LabelsOf, Labelled, OwnedBy, Owner;
    LabelledContent(s, c, part, l);
  }

  lemma SecretsSpelled(s: Settings, c: RayCluster, l: Locals)
    ensures CaSecretSpelled(Content(s, SubjectOf(c), CaSecretPart, l), c, l.pair)
    ensures CookieSpelled(s, Content(s, SubjectOf(c), OAuthSecretPart, l), c, l.salt)
  {
    hide LabelsOf, AnnotationsOf, Owner, Plain, RoleName;
    hide DashboardRoute, ClientRoute, ProxyService, DelegatorBinding, DashboardIngress, ClientIngress;
    hide Policies.HeadPolicy, Policies.WorkersPolicy;
    PlainContent(s, c, CaSecretPart, l);
    PlainContent(s, c, OAuthSecretPart, l);
  }

  lemma DashboardRouteIsSpelled(s: Settings, c: RayCluster, l: Locals)
    ensures DashboardRouteSpelled(Content(s, SubjectOf(c), DashboardRoutePart, l), c,
                                  s.Name(c.Ident(), OAuthServiceRole))
  {
    hide LabelsOf, AnnotationsOf, Owner, Plain, RoleName;
    hide CaSecret, CookieSecret, ProxyService, DelegatorBinding, DashboardIngress, ClientIngress, ClientRoute;
    hide Policies.HeadPolicy, Policies.WorkersPolicy;
    PlainContent(s, c, DashboardRoutePart, l);
  }

  lemma ClientRouteIsSpelled(s: Settings, c: RayCluster, l: Locals)
    ensures ClientRouteSpelled(Content(s, SubjectOf(c), ClientRoutePart, l), c)
  {
    hide LabelsOf, AnnotationsOf, Owner, Plain, RoleName;
    hide CaSecret, CookieSecret, ProxyService, DelegatorBinding, DashboardIngress, ClientIngress, DashboardRoute;
    hide Policies.HeadPolicy, Policies.WorkersPolicy;
    PlainContent(s, c, ClientRoutePart, l);
  }

  lemma ServiceIsSpelled(s: Settings, c: RayCluster, l: Locals)
    ensures ServiceSpelled(Content(s, SubjectOf(c), OAuthServicePart, l), c, s.Name(c.Ident(), OAuthTlsRole))
  {
    hide LabelsOf, Owner, Labelled, OwnedBy, RoleName, AccountAnnotations, ClientIngressAnnotations;
    hide CaSecret, CookieSecret, DashboardRoute, ClientRoute, DelegatorBinding, DashboardIngress, ClientIngress;
    hide Policies.HeadPolicy, Policies.WorkersPolicy;
    LabelledContent(s, c, OAuthServicePart, l);
  }

  lemma AccountIsSpelled(s: Settings, c: RayCluster, l: Locals)
    ensures AccountSpelled(Content(s, SubjectOf(c), OAuthAccountPart, l), c)
  {
    hide LabelsOf, Owner, Labelled, OwnedBy, RoleName, AccountAnnotations, ClientIngressAnnotations, Redirect;
    hide CaSecret, CookieSecret, DashboardRoute, ClientRoute, DelegatorBinding, DashboardIngress, ClientIngress;
    hide Policies.HeadPolicy, Policies.WorkersPolicy, ProxyService;
    LabelledContent(s, c, OAuthAccountPart, l);
    RedirectSpelled(c.Ident());
  }

  lemma RedirectSpelled(id: Identity)
    ensures AccountAnnotations(id) == Redirect(id.name)
  {
  }

  lemma BindingFields(s: Settings, c: RayCluster, l: Locals)
    ensures var a := Content(s, SubjectOf(c), OAuthBindingPart, l);
            && a.labels == LabelsOf(SubjectOf(c), OAuthBindingPart) && a.annotations == map[] && a.owner == None
            && a.body == DelegatorBinding(s, c.Ident())
  {
    hide LabelsOf, Owner, AccountAnnotations, ClientIngressAnnotations, RoleName;
    hide CaSecret, CookieSecret, DashboardRoute, ClientRoute, ProxyService, DelegatorBinding, DashboardIngress;
    hide ClientIngress, Policies.HeadPolicy, Policies.WorkersPolicy;
  }

  lemma BindingIsSpelled(s: Settings, c: RayCluster, l: Locals)
    ensures BindingSpelled(Content(s, SubjectOf(c), OAuthBindingPart, l), c, s.Name(c.Ident(), OAuthAccountRole))
  {
    hide Content, RoleName;
    BindingFields(s, c, l);
  }

  lemma DashboardIngressIsSpelled(s: Settings, c: RayCluster, l: Locals)
    ensures DashboardIngressSpelled(s, Content(s, SubjectOf(c), DashboardIngressPart, l), c)
  {
    hide LabelsOf, AnnotationsOf, Owner, Plain, RoleName;
    hide CaSecret, CookieSecret, DashboardRoute, ClientRoute, ProxyService, DelegatorBinding, ClientIngress;
    hide Policies.HeadPolicy, Policies.WorkersPolicy;
    PlainContent(s, c, DashboardIngressPart, l);
  }

  lemma ClientIngressIsSpelled(s: Settings, c: RayCluster, l: Locals)
    ensures ClientIngressSpelled(s, Content(s, SubjectOf(c), ClientIngressPart, l), c)
  {
    hide LabelsOf, Owner, Labelled, OwnedBy, RoleName, AccountAnnotations;
    hide CaSecret, CookieSecret, DashboardRoute, ClientRoute, ProxyService, DelegatorBinding, DashboardIngress;
    hide Policies.HeadPolicy, Policies.WorkersPolicy;
    LabelledContent(s, c, ClientIngressPart, l);
  }

  lemma HeadPolicyBody(s: Settings, c: RayCluster, l: Locals)
    ensures Content(s, SubjectOf(c), HeadPolicyPart, l).body ==
            PolicyBody(Policies.HeadPolicy(c.meta.name, s.mtls != Some(false), l.kubeRayNamespaces))
  {
    hide LabelsOf, AnnotationsOf, Owner, RoleName, Policies.HeadPolicy, Policies.WorkersPolicy;
    hide CaSecret, CookieSecret, DashboardRoute, ClientRoute, ProxyService, DelegatorBinding, DashboardIngress;
    hide ClientIngress;
  }

  lemma WorkersPolicyBody(s: Settings, c: RayCluster, l: Locals)
    ensures Content(s, SubjectOf(c), WorkersPolicyPart, l).body == PolicyBody(Policies.WorkersPolicy(c.meta.name))
  {
    hide LabelsOf, AnnotationsOf, Owner, RoleName, Policies.HeadPolicy, Policies.WorkersPolicy;
    hide CaSecret, CookieSecret, DashboardRoute, ClientRoute, ProxyService, DelegatorBinding, DashboardIngress;
    hide ClientIngress;
  }

  lemma PoliciesSpelled(s: Settings, c: RayCluster, l: Locals)
    ensures HeadPolicySpelled(Content(s, SubjectOf(c), HeadPolicyPart, l), c, s.mtls != Some(false),
        l.kubeRayNamespaces)
    ensures WorkersPolicySpelled(Content(s, SubjectOf(c), WorkersPolicyPart, l), c)
  {
    hide Content, Plain, Policies.HeadPolicy, Policies.WorkersPolicy;
    hide GovernsHead, AdmitsHead, GovernsWorkers, AdmitsWorkers;
    PlainContent(s, c, HeadPolicyPart, l);
    PlainContent(s, c, WorkersPolicyPart, l);
    HeadPolicyBody(s, c, l);
    WorkersPolicyBody(s, c, l);
    HeadPolicyMeans(c.meta.name, s.mtls != Some(false), l.kubeRayNamespaces);
    WorkersPolicyMeans(c.meta.name);
  }

  lemma HeadPolicyMeans(name: string, mtls: bool, nss: seq<string>)
    ensures var spec := Policies.HeadPolicy(name, mtls, nss);
            GovernsHead(spec, name) && AdmitsHead(spec, name, mtls, nss)
  {
    hide Policies.HeadPolicy, Policies.WorkersPolicy, Policies.Admits;
    hide Policies.HeadOpen, Policies.Selects, Policies.NodeSelector;
    Policies.PolicySelectors(name, mtls, nss);
    var spec := Policies.HeadPolicy(name, mtls, nss);
    forall dst: Policies.Endpoint
      ensures Policies.Selects(spec.podSelector, dst.labels) <==>
              Policies.Labelled(dst, "ray.io/cluster", name) && Policies.Labelled(dst, "ray.io/node-type", "head")
    {
      Policies.NodeSelected(name, "head", dst.labels);
    }
    forall ns: string, src: Option<Policies.Endpoint>, port: Policies.PolicyPort
      ensures Policies.Admits(Policies.Installed(ns, spec), src, port) <==>
              Policies.HeadOpen(ns, name, mtls, nss, src, port)
    {
      Policies.HeadAdmits(ns, name, mtls, nss, src, port);
    }
  }

  lemma WorkersPolicyMeans(name: string)
    ensures var spec := Policies.WorkersPolicy(name); GovernsWorkers(spec, name) && AdmitsWorkers(spec, name)
  {
    hide Policies.HeadPolicy, Policies.WorkersPolicy, Policies.Admits;
    hide Policies.WorkerOpen, Policies.Selects, Policies.NodeSelector;
    Policies.PolicySelectors(name, false, []);
    var spec := Policies.WorkersPolicy(name);
    forall dst: Policies.Endpoint
      ensures Policies.Selects(spec.podSelector, dst.labels) <==>
              Policies.Labelled(dst, "ray.io/cluster", name) && Policies.Labelled(dst, "ray.io/node-type", "worker")
    {
      Policies.NodeSelected(name, "worker", dst.labels);
    }
    forall ns: string, src: Option<Policies.Endpoint>, port: Policies.PolicyPort
      ensures Policies.Admits(Policies.Installed(ns, spec), src, port) <==> Policies.WorkerOpen(ns, name, src)
    {
      Policies.WorkerAdmits(ns, name, src, port);
    }
  }

  lemma ContentSpelled(s: Settings, c: RayCluster, part: Part, l: Locals)
    ensures Spelled(s, Content(s, SubjectOf(c), part, l), c, part, l)
  {
    hide Content, CaSecretSpelled, CookieSpelled, DashboardRouteSpelled;
    hide ClientRouteSpelled, ServiceSpelled, AccountSpelled;
    hide BindingSpelled, DashboardIngressSpelled, ClientIngressSpelled;
    hide HeadPolicySpelled, WorkersPolicySpelled, RoleName;
    match part
    case CaSecretPart => SecretsSpelled(s, c, l);
    case OAuthSecretPart => SecretsSpelled(s, c, l);
    case DashboardRoutePart => DashboardRouteIsSpelled(s, c, l);
    case ClientRoutePart => ClientRouteIsSpelled(s, c, l);
    case OAuthServicePart => ServiceIsSpelled(s, c, l);
    case OAuthAccountPart => AccountIsSpelled(s, c, l);
    case OAuthBindingPart => BindingIsSpelled(s, c, l);
    case DashboardIngressPart => DashboardIngressIsSpelled(s, c, l);
    case ClientIngressPart => ClientIngressIsSpelled(s, c, l);
    case HeadPolicyPart => PoliciesSpelled(s, c, l);
    case WorkersPolicyPart => PoliciesSpelled(s, c, l);
  }

  // ---------------------------------------------------------------- after a served pass

  /** The fields that the controller does not apply are as before, or empty in a new object. */
  predicate OthersFieldsKept(before: map<ObjectKey, Object>, after: map<ObjectKey, Object>, at: ObjectKey)
    requires at in after
  {
    var o := after[at];
    if at in before
    then o.pullSecrets == before[at].pullSecrets && o.foreign == before[at].foreign && o.deleting == before[at].deleting
    else o.pullSecrets == [] && o.foreign == map[] && !o.deleting
  }

  /** The object of a part is written as described if it is due, and untouched otherwise. */
  ghost predicate Written(s: Settings, before: map<ObjectKey, Object>, after: map<ObjectKey, Object>, c: RayCluster,
                          part: Part, l: Locals) {
    var at := Place(s, c.Ident(), part);
    if Due(s, c, part) then
      at in after && Spelled(s, after[at].applied, c, part, l) && OthersFieldsKept(before, after, at)
    else SameObject(before, after, at)
  }

  /** The first operator pod's namespace or the default; on OpenShift that of the applications, or the
      two well-known ones. */
  predicate NamespacesFound(s: Settings, w: World, nss: seq<string>) {
    if s.openShift then
      nss == if w.applicationsNamespace.Some? then [w.applicationsNamespace.value]
             else ["opendatahub", "redhat-ods-applications"]
    else
      || (NoOperator(w.pods) && nss == ["ray-system"])
      || (exists i | 0 <= i < |w.pods| ::
            IsOperator(w.pods[i]) && NoOperator(w.pods[..i]) && nss == [w.pods[i].namespace])
  }

  predicate IsOperator(p: Pod) {
    p.component == Some("kuberay-operator")
  }

  predicate NoOperator(pods: seq<Pod>) {
    forall i | 0 <= i < |pods| :: !IsOperator(pods[i])
  }

  lemma {:induction false} FirstOperator(pods: seq<Pod>)
    ensures if OperatorPods(pods) == [] then NoOperator(pods)
            else exists i | 0 <= i < |pods| ::
              IsOperator(pods[i]) && NoOperator(pods[..i]) && OperatorPods(pods)[0] == pods[i]
  {
    if pods != [] {
      FirstOperator(pods[1..]);
      if IsOperator(pods[0]) {
        assert NoOperator(pods[..0]);
      } else if OperatorPods(pods[1..]) != [] {
        var i :| 0 <= i < |pods[1..]| && IsOperator(pods[1..][i]) && NoOperator(pods[1..][..i])
                 && OperatorPods(pods[1..])[0] == pods[1..][i];
        assert pods[..i + 1] == [pods[0]] + pods[1..][..i];
        assert pods[i + 1] == pods[1..][i];
      } else {
        assert forall i | 1 <= i < |pods| :: pods[i] == pods[1..][i - 1];
      }
    }
  }

  lemma NamespacesSpelled(s: Settings, w: World)
    ensures NamespacesFound(s, w, NamespacesOf(OperatorFor(s), w))
  {
    hide OperatorFor, OperatorPods;
    OperatorFields(s);
    FirstOperator(w.pods);
  }

  /** The stored pair is used, entry by entry; without a secret the generated one. */
  lemma PairSpelled(op: Operator, k: Key, objects: map<ObjectKey, Object>, generated: Option<KeyPair>)
    ensures var pair := PairUsed(op, k, objects, generated); var at := CaStability.CaKey(op, k);
            && (at !in objects && generated.Some? ==> pair == generated.value)
            && (at in objects && objects[at].applied.body.SecretBody? ==>
                  var data := objects[at].applied.body.data;
                  && ("ca.key" in data ==> pair.key == data["ca.key"])
                  && ("ca.crt" in data ==> pair.cert == data["ca.crt"]))
  {
  }

  /** The cluster with the finalizer, once: it is appended unless it is there or the cluster is marked. */
  function Finalized(c: RayCluster, version: nat): RayCluster {
    if c.meta.deleting || "ray.openshift.ai/oauth-finalizer" in c.meta.finalizers then c
    else c.(meta := c.meta.(finalizers := c.meta.finalizers + ["ray.openshift.ai/oauth-finalizer"],
                            resourceVersion := version))
  }

  function PassValues(s: Settings, k: Key, st: State, generated: Option<KeyPair>): Locals {
    Locals(PairUsed(OperatorFor(s), k, st.world.objects, generated), NamespacesOf(OperatorFor(s), st.world), st.salt)
  }

  lemma RelevantSpelled(s: Settings, a: Applied, c: RayCluster, part: Part, l: Locals)
    ensures Spelled(s, a, c, part, Relevant(part, l)) <==> Spelled(s, a, c, part, l)
  {
    hide CaSecretSpelled, CookieSpelled, DashboardRouteSpelled, ClientRouteSpelled, ServiceSpelled, AccountSpelled;
    hide BindingSpelled, DashboardIngressSpelled, ClientIngressSpelled;
    hide HeadPolicySpelled, WorkersPolicySpelled, RoleName;
  }

  lemma AppliedSpelled(s: Settings, goal: RayCluster, c: RayCluster, part: Part, l: Locals)
    requires SubjectOf(goal) == SubjectOf(c)
    ensures Spelled(s, ContentOf(OperatorFor(s), goal, part, l), c, part, l)
  {
    hide Spelled, Content, Place, SubjectOf, Relevant;
    ContentSpelled(s, c, part, Relevant(part, l));
    RelevantSpelled(s, Content(s, SubjectOf(c), part, Relevant(part, l)), c, part, l);
  }

  lemma PlaceOf(s: Settings, k: Key, part: Part)
    ensures KeyOf(OperatorFor(s), k, part) == Place(s, IdOf(k), part)
  {
    hide Place, Content;
  }

  /** Complete, for any operator: what is needed is applied over what was there, the rest is untouched. */
  lemma CompleteMeans(op: Operator, b: Base, objects: map<ObjectKey, Object>, part: Part)
    requires Sound(op) && Complete(op, b, objects)
    ensures var at := KeyOf(op, b.key, part);
            if Closure.Needed(op, b.goal, part) then
              && at in objects && objects[at].applied == ContentOf(op, b.goal, part, b.locals)
              && OthersFieldsKept(b.objects, objects, at)
            else SameObject(b.objects, objects, at)
  {
    hide Closure.Needed, ContentOf, SoundWebhook, SoundKinds, SoundCa;
    var at := KeyOf(op, b.key, part);
    if Closure.Needed(op, b.goal, part) {
      assert InPlace(op, b, objects, part);
    } else if Wants(op, b, at) {
      WantedIsNeeded(op, b, part);
      assert false;
    }
  }

  lemma WantedIsNeeded(op: Operator, b: Base, part: Part)
    requires Sound(op) && Wants(op, b, KeyOf(op, b.key, part))
    ensures Closure.Needed(op, b.goal, part)
  {
    hide Closure.Needed, SoundWebhook, SoundKinds, SoundCa;
    var q :| Closure.Needed(op, b.goal, q) && KeyOf(op, b.key, part) == KeyOf(op, b.key, q);
    assert op.place(IdOf(b.key), q) == op.place(IdOf(b.key), part);
  }

  lemma PartWritten(s: Settings, b: Base, c: RayCluster, objects: map<ObjectKey, Object>, part: Part)
    requires Complete(OperatorFor(s), b, objects)
    requires SubjectOf(b.goal) == SubjectOf(c) && b.goal.suspend == c.suspend && c.Ident() == IdOf(b.key)
    ensures Written(s, b.objects, objects, c, part, b.locals)
  {
    hide OperatorFor, Sound, Complete, Spelled, Place, KeyOf, ContentOf, Closure.Needed, SubjectOf, OthersFieldsKept;
    hide Due, SameObject;
    OperatorIsSound(s);
    CompleteMeans(OperatorFor(s), b, objects, part);
    PlaceOf(s, b.key, part);
    DueIsNeeded(s, b.goal, part);
    AppliedSpelled(s, b.goal, c, part, b.locals);
    SameDue(s, b.goal, c, part);
  }

  lemma SameDue(s: Settings, a: RayCluster, b: RayCluster, part: Part)
    requires a.suspend == b.suspend
    ensures Due(s, a, part) == Due(s, b, part)
  {
  }

  lemma OthersUntouched(s: Settings, b: Base, objects: map<ObjectKey, Object>, o: ObjectKey)
    requires Complete(OperatorFor(s), b, objects) && forall part :: o != Place(s, IdOf(b.key), part)
    ensures SameObject(b.objects, objects, o)
  {
    hide OperatorFor, Place, KeyOf, Closure.Needed, SameObject;
    if Wants(OperatorFor(s), b, o) {
      WantedPlace(s, b, o);
      assert false;
    }
  }

  lemma WantedPlace(s: Settings, b: Base, o: ObjectKey)
    requires Wants(OperatorFor(s), b, o)
    ensures exists part :: o == Place(s, IdOf(b.key), part)
  {
    hide OperatorFor, Place, KeyOf, Closure.Needed;
    var part :| Closure.Needed(OperatorFor(s), b.goal, part) && o == KeyOf(OperatorFor(s), b.key, part);
    PlaceOf(s, b.key, part);
  }

  /** The store before and after: each object that is due is written as described, with the fields of
      others kept, and every other object is as it was. */
  ghost predicate StoreSpelled(s: Settings, before: map<ObjectKey, Object>, after: map<ObjectKey, Object>,
                               c: RayCluster, l: Locals)
  {
    && (forall part :: Written(s, before, after, c, part, l))
    && (forall o | (forall part :: o != Place(s, c.Ident(), part)) :: SameObject(before, after, o))
  }

  lemma CompleteSpelled(s: Settings, b: Base, c: RayCluster, objects: map<ObjectKey, Object>)
    requires Complete(OperatorFor(s), b, objects)
    requires SubjectOf(b.goal) == SubjectOf(c) && b.goal.suspend == c.suspend && c.Ident() == IdOf(b.key)
    ensures StoreSpelled(s, b.objects, objects, c, b.locals)
  {
    hide OperatorFor, Complete, Place, SameObject, Written, SubjectOf;
    forall part ensures Written(s, b.objects, objects, c, part, b.locals) {
      PartWritten(s, b, c, objects, part);
    }
    forall o | forall part :: o != Place(s, c.Ident(), part) ensures SameObject(b.objects, objects, o) {
      OthersUntouched(s, b, objects, o);
    }
  }

  /** What a pass with every call served leaves, in terms of the settings and the cluster: the store as
      described above; the cluster with the finalizer, once; and no error but a missing ingress domain. */
  lemma ServedPassStores(s: Settings, k: Key, st: State, generated: Option<KeyPair>)
    requires Tidy(OperatorFor(s), st) && Ready(OperatorFor(s), k, st)
    requires CanPair(OperatorFor(s), k, st.world.objects, generated)
    ensures var after := FullPass(OperatorFor(s), st, k, generated); var c := st.world.clusters[k];
            && StoreSpelled(s, st.world.objects, after.world.objects, c, PassValues(s, k, st, generated))
            && after.world.clusters == st.world.clusters[k := Finalized(c, st.world.nextVersion)]
            && k in after.returned && after.returned[k] == !(OnPlainKubernetes(s, c) && s.ingressDomain == "")
    ensures NamespacesFound(s, st.world, PassValues(s, k, st, generated).kubeRayNamespaces)
  {
    hide OperatorFor, Sound, Complete, FullPass, Tidy, StoreSpelled, PairUsed, NamespacesOf, CanPair, Succeeds;
    hide OnPlainKubernetes, NamespacesFound, Finalized, SubjectOf;
    var op := OperatorFor(s);
    OperatorIsSound(s);
    ServedPassOutcome(op, k, st, generated);
    NamespacesSpelled(s, st.world);
    var c := st.world.clusters[k];
    var b := BaseOf(op, k, st.world, PairUsed(op, k, st.world.objects, generated), st.salt, {st.salt});
    GoalSpelled(op, k, st, b);
    CompleteSpelled(s, b, c, FullPass(op, st, k, generated).world.objects);
    DueIsNeeded(s, b.goal, CaSecretPart);
    SameBranches(s, b.goal, c);
  }

  lemma SameBranches(s: Settings, a: RayCluster, b: RayCluster)
    requires a.suspend == b.suspend
    ensures OnPlainKubernetes(s, a) == OnPlainKubernetes(s, b)
  {
  }

  lemma GoalSpelled(op: Operator, k: Key, st: State, b: Base)
    requires Tidy(op, st) && Ready(op, k, st)
    requires b.start == st.world.clusters[k] && b.goal == GoalOf(b.start, b.version)
    ensures b.goal == Finalized(b.start, b.version)
    ensures SubjectOf(b.goal) == SubjectOf(b.start) && b.goal.suspend == b.start.suspend && b.start.Ident() == IdOf(k)
  {
    hide Fixed;
    assert ViewOf(st.world, k, b.start);
    GoalKeeps(b);
  }

  /** For a suspended cluster a pass writes the CA secret and the policies, and nothing else. */
  lemma SuspendedWritesLittle(s: Settings, before: map<ObjectKey, Object>, after: map<ObjectKey, Object>, c: RayCluster,
                              l: Locals, part: Part)
    requires StoreSpelled(s, before, after, c, l) && c.suspend == Some(true)
    requires part != CaSecretPart && part != HeadPolicyPart && part != WorkersPolicyPart
    ensures SameObject(before, after, Place(s, c.Ident(), part))
  {
    hide Place, SameObject, Spelled;
    assert Written(s, before, after, c, part, l);
  }

  // ---------------------------------------------------------------- the policies in the store

  /** The policies that are in force. */
  ghost function StorePolicies(objects: map<ObjectKey, Object>): set<Policies.Installed> {
    set o | o in objects && objects[o].applied.body.PolicyBody? ::
      Policies.Installed(o.namespace, objects[o].applied.body.spec)
  }

  /** Where the two policies of a cluster, given as (namespace, name), are. */
  function PolicyPlace(s: Settings, c: (string, string), head: bool): ObjectKey {
    ObjectKey(PolicyKind, c.0, s.Name(Identity(c.1, c.0, false), if head then HeadPolicyRole else WorkersPolicyRole))
  }

  ghost predicate ClusterGoverned(s: Settings, objects: map<ObjectKey, Object>, c: (string, string), nss: seq<string>) {
    var h, w := PolicyPlace(s, c, true), PolicyPlace(s, c, false);
    && h in objects && objects[h].applied.body.PolicyBody?
    && GovernsHead(objects[h].applied.body.spec, c.1)
    && AdmitsHead(objects[h].applied.body.spec, c.1, s.mtls != Some(false), nss)
    && w in objects && objects[w].applied.body.PolicyBody?
    && GovernsWorkers(objects[w].applied.body.spec, c.1) && AdmitsWorkers(objects[w].applied.body.spec, c.1)
  }

  /** The policies in the store are those of these clusters. */
  ghost predicate Governed(s: Settings, objects: map<ObjectKey, Object>, clusters: Policies.Tenants) {
    && (forall c | c in clusters :: ClusterGoverned(s, objects, c, clusters[c]))
    && (forall o | o in objects && objects[o].applied.body.PolicyBody? :: OfSome(s, clusters, o))
  }

  ghost predicate OfSome(s: Settings, clusters: Policies.Tenants, o: ObjectKey) {
    exists c :: c in clusters && (o == PolicyPlace(s, c, true) || o == PolicyPlace(s, c, false))
  }

  /** A policy in the store governs a pod exactly when it is the pod's cluster's, for its node type. */
  lemma GovernsOwnPods(s: Settings, objects: map<ObjectKey, Object>, clusters: Policies.Tenants, c: (string, string),
                       kind: bool, name: string, dst: Policies.Endpoint, head: bool)
    requires Governed(s, objects, clusters) && c in clusters
    requires Policies.Labelled(dst, "ray.io/cluster", name)
    requires Policies.Labelled(dst, "ray.io/node-type", if head then "head" else "worker")
    ensures var at := PolicyPlace(s, c, kind);
            && at in objects && objects[at].applied.body.PolicyBody?
            && (Policies.Governs(Policies.Installed(c.0, objects[at].applied.body.spec), dst) <==>
                  c == (dst.namespace, name) && kind == head)
  {
    hide Policies.Selects, AdmitsHead, AdmitsWorkers, RoleName, OfSome;
    assert ClusterGoverned(s, objects, c, clusters[c]);
    assert |"head"| != |"worker"|;
  }

  function OwnInStore(s: Settings, objects: map<ObjectKey, Object>, c: (string, string), head: bool): Policies.Installed
    requires PolicyPlace(s, c, head) in objects && objects[PolicyPlace(s, c, head)].applied.body.PolicyBody?
  {
    Policies.Installed(c.0, objects[PolicyPlace(s, c, head)].applied.body.spec)
  }

  lemma OnlyOwnGoverns(s: Settings, objects: map<ObjectKey, Object>, clusters: Policies.Tenants, name: string,
                       dst: Policies.Endpoint, head: bool, p: Policies.Installed)
    requires Governed(s, objects, clusters) && (dst.namespace, name) in clusters && p in StorePolicies(objects)
    requires Policies.Labelled(dst, "ray.io/cluster", name)
    requires Policies.Labelled(dst, "ray.io/node-type", if head then "head" else "worker")
    requires Policies.Governs(p, dst)
    ensures var at := PolicyPlace(s, (dst.namespace, name), head);
            at in objects && objects[at].applied.body.PolicyBody?
                && p == OwnInStore(s, objects, (dst.namespace, name), head)
  {
    hide Policies.Governs, Policies.Labelled, PolicyPlace, ClusterGoverned;
    var o :| o in objects && objects[o].applied.body.PolicyBody?
             && p == Policies.Installed(o.namespace, objects[o].applied.body.spec);
    assert OfSome(s, clusters, o);
    var c :| c in clusters && (o == PolicyPlace(s, c, true) || o == PolicyPlace(s, c, false));
    PlaceNamespace(s, c, true);
    PlaceNamespace(s, c, false);
    GovernsOwnPods(s, objects, clusters, c, o == PolicyPlace(s, c, true), name, dst, head);
  }

  lemma OwnGoverns(s: Settings, objects: map<ObjectKey, Object>, clusters: Policies.Tenants, name: string,
                   src: Option<Policies.Endpoint>, dst: Policies.Endpoint, port: Policies.PolicyPort, head: bool)
    requires Governed(s, objects, clusters) && (dst.namespace, name) in clusters
    requires Policies.Labelled(dst, "ray.io/cluster", name)
    requires Policies.Labelled(dst, "ray.io/node-type", if head then "head" else "worker")
    ensures var me := (dst.namespace, name); var at := PolicyPlace(s, me, head);
            && at in objects && objects[at].applied.body.PolicyBody?
            && var own := OwnInStore(s, objects, me, head);
               && own in StorePolicies(objects) && Policies.Governs(own, dst)
               && (Policies.Admits(own, src, port) <==>
                     if head then Policies.HeadOpen(dst.namespace, name, s.mtls != Some(false), clusters[me], src, port)
                     else Policies.WorkerOpen(dst.namespace, name, src))
  {
    hide Policies.Governs, Policies.Admits, Policies.HeadOpen, Policies.WorkerOpen, Policies.Labelled, PolicyPlace;
    hide GovernsHead, GovernsWorkers, OfSome;
    var me := (dst.namespace, name);
    GovernsOwnPods(s, objects, clusters, me, head, name, dst, head);
    PlaceNamespace(s, me, head);
    assert ClusterGoverned(s, objects, me, clusters[me]);
  }

  /** With the policies that are in the store, traffic to a head or worker pod of one of the clusters is
      allowed exactly as the closed form of that cluster says. */
  lemma StorePolicySemantics(s: Settings, objects: map<ObjectKey, Object>, clusters: Policies.Tenants, name: string,
                             src: Option<Policies.Endpoint>, dst: Policies.Endpoint, port: Policies.PolicyPort,
                             head: bool)
    requires Governed(s, objects, clusters) && (dst.namespace, name) in clusters
    requires Policies.Labelled(dst, "ray.io/cluster", name)
    requires Policies.Labelled(dst, "ray.io/node-type", if head then "head" else "worker")
    ensures Policies.Allowed(StorePolicies(objects), src, dst, port) <==>
            if head
            then Policies.HeadOpen(dst.namespace, name, s.mtls != Some(false), clusters[(dst.namespace, name)],
                                   src, port)
            else Policies.WorkerOpen(dst.namespace, name, src)
  {
    hide Policies.Governs, Policies.Admits, Policies.HeadOpen, Policies.WorkerOpen, Policies.Labelled;
    hide PolicyPlace, Governed, StorePolicies, OwnInStore;
    OwnGoverns(s, objects, clusters, name, src, dst, port, head);
    forall p | p in StorePolicies(objects) && Policies.Governs(p, dst)
      ensures p == OwnInStore(s, objects, (dst.namespace, name), head)
    {
      OnlyOwnGoverns(s, objects, clusters, name, dst, head, p);
    }
  }

  lemma PlaceNamespace(s: Settings, c: (string, string), head: bool)
    ensures PolicyPlace(s, c, head).namespace == c.0
  {
  }

  lemma PolicyPlaces(s: Settings, k: Key, part: Part)
    requires part == HeadPolicyPart || part == WorkersPolicyPart
    ensures Place(s, IdOf(k), part) == PolicyPlace(s, (k.namespace, k.name), part == HeadPolicyPart)
  {
    hide RoleName, CrbName, DashboardName, RayClientName;
  }

  lemma WrittenHead(s: Settings, before: map<ObjectKey, Object>, after: map<ObjectKey, Object>, c: RayCluster,
      l: Locals)
    requires Written(s, before, after, c, HeadPolicyPart, l) && !(OnPlainKubernetes(s, c) && s.ingressDomain == "")
    ensures var at := Place(s, c.Ident(), HeadPolicyPart);
            at in after && HeadPolicySpelled(after[at].applied, c, s.mtls != Some(false), l.kubeRayNamespaces)
  {
    hide Place, HeadPolicySpelled, WorkersPolicySpelled, OnPlainKubernetes, OthersFieldsKept;
    hide CaSecretSpelled, CookieSpelled, DashboardRouteSpelled, ClientRouteSpelled, ServiceSpelled, AccountSpelled;
    hide BindingSpelled, DashboardIngressSpelled, ClientIngressSpelled, RoleName;
  }

  lemma WrittenWorkers(s: Settings, before: map<ObjectKey, Object>, after: map<ObjectKey, Object>, c: RayCluster,
      l: Locals)
    requires Written(s, before, after, c, WorkersPolicyPart, l) && !(OnPlainKubernetes(s, c) && s.ingressDomain == "")
    ensures var at := Place(s, c.Ident(), WorkersPolicyPart);
            at in after && WorkersPolicySpelled(after[at].applied, c)
  {
    hide Place, HeadPolicySpelled, WorkersPolicySpelled, OnPlainKubernetes, OthersFieldsKept;
    hide CaSecretSpelled, CookieSpelled, DashboardRouteSpelled, ClientRouteSpelled, ServiceSpelled, AccountSpelled;
    hide BindingSpelled, DashboardIngressSpelled, ClientIngressSpelled, RoleName;
  }

  lemma WrittenPolicies(s: Settings, before: map<ObjectKey, Object>, after: map<ObjectKey, Object>, c: RayCluster,
                        l: Locals, k: Key)
    requires StoreSpelled(s, before, after, c, l) && c.Ident() == IdOf(k) && c.meta.name == k.name
    requires !(OnPlainKubernetes(s, c) && s.ingressDomain == "")
    ensures ClusterGoverned(s, after, (k.namespace, k.name), l.kubeRayNamespaces)
  {
    hide Place, PolicyPlace, GovernsHead, AdmitsHead, GovernsWorkers, AdmitsWorkers, Plain, Written, OnPlainKubernetes;
    PolicyPlaces(s, k, HeadPolicyPart);
    PolicyPlaces(s, k, WorkersPolicyPart);
    WrittenHead(s, before, after, c, l);
    WrittenWorkers(s, before, after, c, l);
  }

  /** Only the two policy parts write policies. */
  lemma PolicyBodies(s: Settings, a: Applied, c: RayCluster, part: Part, l: Locals)
    requires Spelled(s, a, c, part, l) && a.body.PolicyBody?
    ensures part == HeadPolicyPart || part == WorkersPolicyPart
  {
    hide RoleName, Plain, Labelled, OwnedBy, Redirect;
  }

  lemma OtherPolicyKept(s: Settings, before: map<ObjectKey, Object>, after: map<ObjectKey, Object>, c: RayCluster,
                        l: Locals, k: Key, other: (string, string), head: bool)
    requires StoreSpelled(s, before, after, c, l) && c.Ident() == IdOf(k) && other != (k.namespace, k.name)
    ensures SameObject(before, after, PolicyPlace(s, other, head))
  {
    hide Place, Written, SameObject;
    var k' := Key(other.0, other.1);
    var part' := if head then HeadPolicyPart else WorkersPolicyPart;
    PolicyPlaces(s, k', part');
    forall part ensures PolicyPlace(s, other, head) != Place(s, c.Ident(), part) {
      if Place(s, IdOf(k'), part') == Place(s, IdOf(k), part) {
        PlaceInjective(s, IdOf(k'), part', IdOf(k), part);
      }
    }
  }

  /** A pass with every call served adds the policies of its cluster to those that are in force, with
      the namespaces it found, and leaves the others in force. */
  lemma PassGoverns(s: Settings, before: map<ObjectKey, Object>, after: map<ObjectKey, Object>, c: RayCluster,
                    l: Locals, k: Key, clusters: Policies.Tenants)
    requires StoreSpelled(s, before, after, c, l) && c.Ident() == IdOf(k) && c.meta.name == k.name
    requires !(OnPlainKubernetes(s, c) && s.ingressDomain == "")
    requires Governed(s, before, clusters)
    ensures Governed(s, after, clusters[(k.namespace, k.name) := l.kubeRayNamespaces])
  {
    hide Place, Written, PolicyPlace, ClusterGoverned;
    var me := (k.namespace, k.name);
    var all := clusters[me := l.kubeRayNamespaces];
    WrittenPolicies(s, before, after, c, l, k);
    forall o | o in all && o != me ensures ClusterGoverned(s, after, o, all[o]) {
      OtherPolicyKept(s, before, after, c, l, k, o, true);
      OtherPolicyKept(s, before, after, c, l, k, o, false);
      SameGoverned(s, before, after, o, clusters[o]);
    }
    forall o | o in after && after[o].applied.body.PolicyBody? ensures OfSome(s, all, o) {
      PolicyOrigin(s, before, after, c, l, k, o);
      if !(o == PolicyPlace(s, me, true) || o == PolicyPlace(s, me, false)) {
        assert OfSome(s, clusters, o);
        var other :| other in clusters && (o == PolicyPlace(s, other, true) || o == PolicyPlace(s, other, false));
        assert other in all;
      } else {
        assert me in all;
      }
    }
  }

  lemma SameGoverned(s: Settings, before: map<ObjectKey, Object>, after: map<ObjectKey, Object>, c: (string, string),
                     nss: seq<string>)
    requires ClusterGoverned(s, before, c, nss)
    requires SameObject(before, after, PolicyPlace(s, c, true)) && SameObject(before, after, PolicyPlace(s, c, false))
    ensures ClusterGoverned(s, after, c, nss)
  {
    hide PolicyPlace, GovernsHead, AdmitsHead, GovernsWorkers, AdmitsWorkers;
  }

  /** A policy in the store after the pass is one of its own, or was there before. */
  lemma PolicyOrigin(s: Settings, before: map<ObjectKey, Object>, after: map<ObjectKey, Object>, c: RayCluster,
                    l: Locals, k: Key, o: ObjectKey)
    requires StoreSpelled(s, before, after, c, l) && c.Ident() == IdOf(k)
    requires o in after && after[o].applied.body.PolicyBody?
    ensures var me := (k.namespace, k.name);
            || o == PolicyPlace(s, me, true) || o == PolicyPlace(s, me, false)
            || (o in before && before[o].applied.body.PolicyBody?)
  {
    hide Place, PolicyPlace, Spelled, Due;
    if part :| o == Place(s, c.Ident(), part) {
      assert Written(s, before, after, c, part, l);
      if Due(s, c, part) {
        PolicyBodies(s, after[o].applied, c, part, l);
        PolicyPlaces(s, k, part);
      }
    } else {
      assert SameObject(before, after, o);
    }
  }

  /** After passes with every call served, traffic is decided by the closed forms of the clusters they
      were for: here for the last of them, in terms of the pass itself. */
  lemma ServedPassPolicies(s: Settings, k: Key, st: State, generated: Option<KeyPair>, clusters: Policies.Tenants)
    requires Tidy(OperatorFor(s), st) && Ready(OperatorFor(s), k, st)
    requires CanPair(OperatorFor(s), k, st.world.objects, generated)
    requires !(OnPlainKubernetes(s, st.world.clusters[k]) && s.ingressDomain == "")
    requires Governed(s, st.world.objects, clusters)
    ensures var nss := PassValues(s, k, st, generated).kubeRayNamespaces;
            && NamespacesFound(s, st.world, nss)
            && Governed(s, FullPass(OperatorFor(s), st, k, generated).world.objects,
                clusters[(k.namespace, k.name) := nss])
  {
    hide OperatorFor, FullPass, StoreSpelled, PairUsed, NamespacesOf, CanPair, OnPlainKubernetes, NamespacesFound;
    hide Governed, Finalized, TidyWorld;
    ServedPassStores(s, k, st, generated);
    var c := st.world.clusters[k];
    ReadyIdentity(OperatorFor(s), k, st);
    PassGoverns(s, st.world.objects, FullPass(OperatorFor(s), st, k, generated).world.objects, c,
                PassValues(s, k, st, generated), k, clusters);
  }

  lemma ReadyIdentity(op: Operator, k: Key, st: State)
    requires Tidy(op, st) && Ready(op, k, st)
    ensures st.world.clusters[k].Ident() == IdOf(k) && st.world.clusters[k].meta.name == k.name
  {
    hide Fixed;
    assert ViewOf(st.world, k, st.world.clusters[k]);
  }
}
