/** The objects the controller maintains for a cluster: where each one lives and the fields the
    controller applies to it. */
module Objects {
  import opened Wrappers
  import opened Naming
  import opened Kube
  import Policies

  datatype Kind = RouteKind | SecretKind | ServiceKind | AccountKind | BindingKind | IngressKind | PolicyKind

  /** Cluster-scoped objects have the empty namespace. */
  datatype ObjectKey = ObjectKey(kind: Kind, namespace: string, name: string)

  datatype OwnerRef = OwnerRef(apiVersion: string, kind: string, name: string, uid: nat, controller: bool)

  datatype Body =
    | RouteBody(service: string, weight: Option<int>, targetPort: string, termination: string, insecure: string)
    | SecretBody(data: map<string, string>)
    | ServiceBody(portName: string, port: int, targetPort: string, protocol: string, selector: map<string, string>)
    | AccountBody
    | BindingBody(subjectKind: string, subjectName: string, subjectNamespace: string,
                  roleGroup: string, roleKind: string, roleName: string)
    | IngressBody(ingressClass: Option<string>, host: string, path: string, pathType: string,
                  backend: string, portName: string, portNumber: int)
    | PolicyBody(spec: Policies.PolicySpec)

  /** The fields of an object that the controller applies. */
  datatype Applied = Applied(labels: map<string, string>, annotations: map<string, string>,
                             owner: Option<OwnerRef>, body: Body)

  /** An object in the store: the fields the controller owns once it has applied them, and the
      fields others own. Of the latter the controller reads the pull secrets of a ServiceAccount.
      An object deleted in the foreground stays, marked, until the garbage collector removes it. */
  datatype Object = Object(applied: Applied, pullSecrets: seq<string>, foreign: map<string, string>, deleting: bool)

  /** The objects maintained for one cluster. */
  datatype Part =
    | CaSecretPart | DashboardRoutePart | OAuthSecretPart | OAuthServicePart | OAuthAccountPart
    | OAuthBindingPart | ClientRoutePart | DashboardIngressPart | ClientIngressPart
    | HeadPolicyPart | WorkersPolicyPart

  /** What the applied fields depend on. */
  datatype Subject = Subject(apiVersion: string, kind: string, uid: nat, id: Identity)

  datatype KeyPair = KeyPair(key: string, cert: string)

  /** Values besides the cluster that a pass applies: the CA pair, the namespaces of KubeRay, and the
      cookie salt of the process it runs in. */
  datatype Locals = Locals(pair: KeyPair, kubeRayNamespaces: seq<string>, salt: string)

  function SubjectOf(c: RayCluster): Subject {
    Subject(c.apiVersion, c.kind, c.meta.uid, c.Ident())
  }

  const CLUSTER_NAME_LABEL := "ray.openshift.ai/cluster-name"
  const CLUSTER_NAMESPACE_LABEL := "ray.openshift.ai/cluster-namespace"
  const SERVING_CERT_ANNOTATION := "service.beta.openshift.io/serving-cert-secret-name"
  const CA_PRIVATE_KEY_KEY := "ca.key"
  const CA_CERT_KEY := "ca.crt"

  function KindOf(part: Part): Kind {
    match part
    case CaSecretPart => SecretKind
    case DashboardRoutePart => RouteKind
    case OAuthSecretPart => SecretKind
    case OAuthServicePart => ServiceKind
    case OAuthAccountPart => AccountKind
    case OAuthBindingPart => BindingKind
    case ClientRoutePart => RouteKind
    case DashboardIngressPart => IngressKind
    case ClientIngressPart => IngressKind
    case HeadPolicyPart => PolicyKind
    case WorkersPolicyPart => PolicyKind
  }

  function Place(s: Settings, id: Identity, part: Part): ObjectKey {
    match part
    case CaSecretPart => ObjectKey(SecretKind, id.namespace, s.Name(id, CaSecretRole))
    case DashboardRoutePart => ObjectKey(RouteKind, id.namespace, DashboardName(id.name))
    case OAuthSecretPart => ObjectKey(SecretKind, id.namespace, s.Name(id, OAuthConfigRole))
    case OAuthServicePart => ObjectKey(ServiceKind, id.namespace, s.Name(id, OAuthServiceRole))
    case OAuthAccountPart => ObjectKey(AccountKind, id.namespace, s.Name(id, OAuthAccountRole))
    case OAuthBindingPart => ObjectKey(BindingKind, "", s.Crb(id))
    case ClientRoutePart => ObjectKey(RouteKind, id.namespace, RayClientName(id.name))
    case DashboardIngressPart => ObjectKey(IngressKind, id.namespace, DashboardName(id.name))
    case ClientIngressPart => ObjectKey(IngressKind, id.namespace, RayClientName(id.name))
    case HeadPolicyPart => ObjectKey(PolicyKind, id.namespace, s.Name(id, HeadPolicyRole))
    case WorkersPolicyPart => ObjectKey(PolicyKind, id.namespace, s.Name(id, WorkersPolicyRole))
  }

  function Owner(sub: Subject): OwnerRef {
    OwnerRef(sub.apiVersion, sub.kind, sub.id.name, sub.uid, true)
  }

  function IngressHost(s: Settings, id: Identity, name: string): string {
    name + "-" + id.namespace + "." + s.ingressDomain
  }

  function DashboardRoute(s: Settings, id: Identity): Body {
    RouteBody(s.Name(id, OAuthServiceRole), None, "oauth-proxy", "reencrypt", "Redirect")
  }

  function ClientRoute(id: Identity): Body {
    RouteBody(ServiceName(id.name), Some(100), "client", "passthrough", "")
  }

  function CaSecret(pair: KeyPair): Body {
    SecretBody(map[CA_PRIVATE_KEY_KEY := pair.key, CA_CERT_KEY := pair.cert])
  }

  function CookieSecret(s: Settings, id: Identity, salt: string): Body {
    SecretBody(map["cookie_secret" := s.cookie(id.name + salt)])
  }

  function ProxyService(id: Identity): Body {
    ServiceBody("oauth-proxy", 443, "oauth-proxy", "TCP",
        map["ray.io/cluster" := id.name, "ray.io/node-type" := "head"])
  }

  function DelegatorBinding(s: Settings, id: Identity): Body {
    BindingBody("ServiceAccount", s.Name(id, OAuthAccountRole), id.namespace,
                "rbac.authorization.k8s.io", "ClusterRole", "system:auth-delegator")
  }

  function DashboardIngress(s: Settings, id: Identity): Body {
    IngressBody(None, IngressHost(s, id, DashboardName(id.name)), "/", "Prefix", ServiceName(id.name), "dashboard", 0)
  }

  function ClientIngress(s: Settings, id: Identity): Body {
    IngressBody(Some("nginx"), IngressHost(s, id, RayClientName(id.name)), "/", "ImplementationSpecific",
                ServiceName(id.name), "", 10001)
  }

  function BodyOf(s: Settings, sub: Subject, part: Part, l: Locals): Body {
    match part
    case CaSecretPart => CaSecret(l.pair)
    case DashboardRoutePart => DashboardRoute(s, sub.id)
    case OAuthSecretPart => CookieSecret(s, sub.id, l.salt)
    case OAuthServicePart => ProxyService(sub.id)
    case OAuthAccountPart => AccountBody
    case OAuthBindingPart => DelegatorBinding(s, sub.id)
    case ClientRoutePart => ClientRoute(sub.id)
    case DashboardIngressPart => DashboardIngress(s, sub.id)
    case ClientIngressPart => ClientIngress(s, sub.id)
    case HeadPolicyPart => PolicyBody(Policies.HeadPolicy(sub.id.name, s.MtlsEnabled(), l.kubeRayNamespaces))
    case WorkersPolicyPart => PolicyBody(Policies.WorkersPolicy(sub.id.name))
  }

  function AccountAnnotations(id: Identity): map<string, string> {
    map["serviceaccounts.openshift.io/oauth-redirectreference.first" :=
        "{\"kind\":\"OAuthRedirectReference\",\"apiVersion\":\"v1\",\"reference\":{\"kind\":\"Route\",\"name\":\""
        + DashboardName(id.name) + "\"}}"]
  }

  function ClientIngressAnnotations(): map<string, string> {
    map["nginx.ingress.kubernetes.io/rewrite-target" := "/",
        "nginx.ingress.kubernetes.io/ssl-redirect" := "true",
        "nginx.ingress.kubernetes.io/ssl-passthrough" := "true"]
  }

  function AnnotationsOf(s: Settings, sub: Subject, part: Part): map<string, string> {
    match part
    case OAuthServicePart => map[SERVING_CERT_ANNOTATION := s.Name(sub.id, OAuthTlsRole)]
    case OAuthAccountPart => AccountAnnotations(sub.id)
    case ClientIngressPart => ClientIngressAnnotations()
    case _ => map[]
  }

  function LabelsOf(sub: Subject, part: Part): map<string, string> {
    if part.OAuthBindingPart?
    then map[CLUSTER_NAME_LABEL := sub.id.name, CLUSTER_NAMESPACE_LABEL := sub.id.namespace]
    else map[CLUSTER_NAME_LABEL := sub.id.name]
  }

  /** The applied fields of one object. A ClusterRoleBinding is cluster-scoped and has no owner. */
  function Content(s: Settings, sub: Subject, part: Part, l: Locals): Applied {
    Applied(LabelsOf(sub, part), AnnotationsOf(s, sub, part),
            if part.OAuthBindingPart? then None else Some(Owner(sub)), BodyOf(s, sub, part, l))
  }

  /** Stored and not on its way out. */
  predicate Live(objects: map<ObjectKey, Object>, at: ObjectKey) {
    at in objects && !objects[at].deleting
  }

  function Lookup(m: map<string, string>, k: string): string {
    if k in m then m[k] else ""
  }

  /** The CA pair stored in a secret; a missing entry reads as empty. */
  function PairOf(o: Object): KeyPair {
    if o.applied.body.SecretBody? then
      KeyPair(Lookup(o.applied.body.data, CA_PRIVATE_KEY_KEY), Lookup(o.applied.body.data, CA_CERT_KEY))
    else KeyPair("", "")
  }

  // ---------------------------------------------------------------- placement is injective

  /** For annotated clusters no two objects share a place, within a cluster or across clusters;
      only the cluster-wide binding needs the name-namespace strings to differ. */
  lemma PlaceInjective(s: Settings, a: Identity, p: Part, b: Identity, q: Part)
    requires !a.legacy && !b.legacy && Place(s, a, p) == Place(s, b, q)
    ensures p == q
    ensures if p.OAuthBindingPart? then a.name + "-" + a.namespace == b.name + "-" + b.namespace else a == b
  {
    hide HashedName, CrbName, DashboardName, RayClientName;
    RolePlaces(s, a, p, b, q);
    PrefixNamesDistinct(a.name, b.name);
    PrefixNamesDistinct(b.name, a.name);
    CrbNameCollides(s.hash, a.name, a.namespace, b.name, b.namespace);
  }

  function RoleOf(p: Part): Option<Role> {
    match p
    case CaSecretPart => Some(CaSecretRole)
    case OAuthSecretPart => Some(OAuthConfigRole)
    case OAuthServicePart => Some(OAuthServiceRole)
    case OAuthAccountPart => Some(OAuthAccountRole)
    case HeadPolicyPart => Some(HeadPolicyRole)
    case WorkersPolicyPart => Some(WorkersPolicyRole)
    case _ => None
  }

  lemma RolePlaces(s: Settings, a: Identity, p: Part, b: Identity, q: Part)
    requires !a.legacy && !b.legacy && Place(s, a, p) == Place(s, b, q)
    ensures RoleOf(p).Some? && RoleOf(q).Some? ==> p == q && a == b
  {
    hide HashedName;
    if RoleOf(p).Some? && RoleOf(q).Some? {
      HashedNameInjective(s.hash, a.name, RoleOf(p).value, b.name, RoleOf(q).value);
    }
  }

  /** Two clusters share an ingress host exactly when their name-namespace strings coincide. */
  lemma IngressHostsCollide(s: Settings, a: Identity, b: Identity)
    ensures IngressHost(s, a, DashboardName(a.name)) == IngressHost(s, b, DashboardName(b.name)) <==>
            a.name + "-" + a.namespace == b.name + "-" + b.namespace
    ensures IngressHost(s, a, RayClientName(a.name)) == IngressHost(s, b, RayClientName(b.name)) <==>
            a.name + "-" + a.namespace == b.name + "-" + b.namespace
  {
    var x, y := a.name + "-" + a.namespace, b.name + "-" + b.namespace;
    Framed("ray-dashboard-", x, y, "." + s.ingressDomain);
    Framed("rayclient-", x, y, "." + s.ingressDomain);
    HostFramed(s, a, "ray-dashboard-");
    HostFramed(s, b, "ray-dashboard-");
    HostFramed(s, a, "rayclient-");
    HostFramed(s, b, "rayclient-");
  }

  lemma HostFramed(s: Settings, id: Identity, prefix: string)
    ensures IngressHost(s, id, prefix + id.name) == prefix + (id.name + "-" + id.namespace) + ("." + s.ingressDomain)
  {
  }

  lemma Framed(prefix: string, x: string, y: string, suffix: string)
    ensures prefix + x + suffix == prefix + y + suffix <==> x == y
  {
    if prefix + x + suffix == prefix + y + suffix {
      assert |x| == |y|;
      assert x == (prefix + x + suffix)[|prefix|..|prefix| + |x|];
      assert y == (prefix + y + suffix)[|prefix|..|prefix| + |y|];
    }
  }
}
