/** Reference closure: what the pod templates of a defaulted cluster name is what a pass that
    returned nil has put into the store. */
module References {
  import opened Wrappers
  import opened Naming
  import opened Kube
  import opened Items
  import opened Support
  import opened Defaulting
  import opened Objects
  import opened Operators
  import opened ApiServer
  import opened Protocol
  import opened AdmissionRuns
  import opened BindingSafety
  import Policies
  import Closure

  const CA_VOLUME := "ca-vol"
  const PROXY_PORT := "oauth-proxy"

  /** The object exists and is owned by this incarnation of the cluster. */
  predicate Owned(c: RayCluster, objects: map<ObjectKey, Object>, at: ObjectKey) {
    at in objects && objects[at].applied.owner.Some? && objects[at].applied.owner.value.uid == c.meta.uid
  }

  /** The secret exists, is owned by the cluster and has all the entries. */
  predicate SecretHas(c: RayCluster, objects: map<ObjectKey, Object>, name: string, entries: set<string>) {
    var at := ObjectKey(SecretKind, c.meta.namespace, name);
    && Owned(c, objects, at)
    && objects[at].applied.body.SecretBody?
    && entries <= objects[at].applied.body.data.Keys
  }

  /** The first volume of that name is backed by a secret that has all the entries. */
  predicate Mounted(c: RayCluster, objects: map<ObjectKey, Object>, t: PodSpec, volume: string, entries: set<string>) {
    var i := IndexOf(t.volumes, VolumeName, volume);
    && i < |t.volumes| && t.volumes[i].secret.Some?
    && SecretHas(c, objects, t.volumes[i].secret.value.secretName, entries)
  }

  /** Every secret key the proxy container takes an environment variable from exists, and it takes one. */
  ghost predicate CookieAvailable(c: RayCluster, objects: map<ObjectKey, Object>, k: Container) {
    && (exists i | 0 <= i < |k.env| :: FromSecret(k.env[i]))
    && forall i | 0 <= i < |k.env| && FromSecret(k.env[i]) ::
         var ref := k.env[i].valueFrom.value.secretKeyRef.value;
         SecretHas(c, objects, ref.name, {ref.key})
  }

  predicate FromSecret(e: EnvVar) {
    e.valueFrom.Some? && e.valueFrom.value.secretKeyRef.Some?
  }

  /** The secret behind a volume is the one that the service behind a route asks for. */
  predicate TlsRequested(c: RayCluster, objects: map<ObjectKey, Object>, route: ObjectKey, annotation: string,
                         t: PodSpec, volume: string) {
    var i := IndexOf(t.volumes, VolumeName, volume);
    && i < |t.volumes| && t.volumes[i].secret.Some?
    && route in objects && objects[route].applied.body.RouteBody?
    && var service := ObjectKey(ServiceKind, c.meta.namespace, objects[route].applied.body.service);
       && Owned(c, objects, service)
       && annotation in objects[service].applied.annotations
       && objects[service].applied.annotations[annotation] == t.volumes[i].secret.value.secretName
  }

  ghost predicate Closed(c: RayCluster, objects: map<ObjectKey, Object>) {
    && Owned(c, objects, ObjectKey(AccountKind, c.meta.namespace, c.head.template.serviceAccountName))
    && ProxyClosed(c, objects, OAUTH_PROXY_CONTAINER)
    && TlsRequested(c, objects, ObjectKey(RouteKind, c.meta.namespace, DashboardName(c.meta.name)),
                    SERVING_CERT_ANNOTATION, c.head.template, OAUTH_PROXY_VOLUME)
    && ProxyServed(c, objects, ObjectKey(RouteKind, c.meta.namespace, DashboardName(c.meta.name)),
        OAUTH_PROXY_CONTAINER)
    && CaClosed(c, objects, CA_VOLUME, {CA_PRIVATE_KEY_KEY, CA_CERT_KEY})
    && exists at :: Grants(c, objects, at)
  }

  /** The service behind a route targets a port that the first container of that name declares. */
  predicate ProxyServed(c: RayCluster, objects: map<ObjectKey, Object>, route: ObjectKey, name: string) {
    var ks := c.head.template.containers;
    var i := IndexOf(ks, ContainerName, name);
    && i < |ks| && route in objects && objects[route].applied.body.RouteBody?
    && var service := ObjectKey(ServiceKind, c.meta.namespace, objects[route].applied.body.service);
       && service in objects && objects[service].applied.body.ServiceBody?
       && exists n | 0 <= n < |ks[i].ports| :: ks[i].ports[n].name == objects[service].applied.body.targetPort
  }

  /** A binding whose subject is the service account of the head pod. */
  predicate Grants(c: RayCluster, objects: map<ObjectKey, Object>, at: ObjectKey) {
    && at in objects && at.kind == BindingKind && objects[at].applied.body.BindingBody?
    && objects[at].applied.body.subjectName == c.head.template.serviceAccountName
    && objects[at].applied.body.subjectNamespace == c.meta.namespace
  }

  /** The first container of that name is there and takes its cookie from a secret of the cluster. */
  ghost predicate ProxyClosed(c: RayCluster, objects: map<ObjectKey, Object>, name: string) {
    var ks := c.head.template.containers;
    var i := IndexOf(ks, ContainerName, name);
    i < |ks| && CookieAvailable(c, objects, ks[i])
  }

  /** Head and workers all mount the CA pair. */
  ghost predicate CaClosed(c: RayCluster, objects: map<ObjectKey, Object>, volume: string, entries: set<string>) {
    && Mounted(c, objects, c.head.template, volume, entries)
    && forall i | 0 <= i < |c.workers| :: Mounted(c, objects, c.workers[i].template, volume, entries)
  }

  // ---------------------------------------------------------------- what the templates name

  /** What a defaulted cluster's templates name, in terms of the injected items. */
  ghost predicate Names(p: ProxyItems, certs: CertItems, c: RayCluster) {
    var t := c.head.template;
    var i := IndexOf(t.containers, ContainerName, p.container.name);
    && t.serviceAccountName == p.account
    && i < |t.containers| && t.containers[i].ports == p.container.ports
    && (t.containers[i].env == p.container.env || t.containers[i].env == p.container.env + certs.env)
    && Holds(t.volumes, p.volume, VolumeName)
    && (forall v | v in certs.volumes :: Holds(t.volumes, v, VolumeName))
    && forall g | 0 <= g < |c.workers| :: forall v | v in certs.volumes ::
        Holds(c.workers[g].template.volumes, v, VolumeName)
  }

  lemma DefaultedNames(j: Injection, c: RayCluster)
    requires Coherent(j) && Fits(j, c) && Inject(j, c) == c && j.oauth.Some? && j.mtls.Some?
    ensures Names(j.oauth.value, j.mtls.value, c)
  {
    var p, certs, t := j.oauth.value, j.mtls.value, c.head.template;
    ProxyAfterTls(p, certs, certs.headInit, t);
    TlsHolds(certs, certs.headInit, WithProxy(p, t));
    UpsertAllAppends(p.container.env, certs.env, EnvName);
    forall g | 0 <= g < |c.workers|
      ensures forall v | v in certs.volumes :: Holds(c.workers[g].template.volumes, v, VolumeName)
    {
      TlsHolds(certs, certs.workerInit, c.workers[g].template);
    }
  }

  // ---------------------------------------------------------------- what the items name

  lemma ProxyNames(s: Settings, id: Identity)
    ensures var p := ProxyItemsFor(s, id);
            && p.container.name == OAUTH_PROXY_CONTAINER
            && |p.container.env| == 1 && FromSecret(p.container.env[0])
            && p.container.env[0].valueFrom.value.secretKeyRef.value.name == s.Name(id, OAuthConfigRole)
            && p.container.env[0].valueFrom.value.secretKeyRef.value.key == COOKIE_KEY
            && p.volume == SecretVolume(OAUTH_PROXY_VOLUME, s.Name(id, OAuthTlsRole))
            && p.account == s.Name(id, OAuthAccountRole)
            && |p.container.ports| == 1 && p.container.ports[0].name == PROXY_PORT
  {
    hide RoleName;
  }

  lemma CertNames(s: Settings, id: Identity)
    ensures var certs := CertItemsFor(s, id);
            && SecretVolume(CA_VOLUME, s.Name(id, CaSecretRole)) in certs.volumes
            && forall i | 0 <= i < |certs.env| :: !FromSecret(certs.env[i])
  {
    hide RoleName, HeadInitContainer, WorkerInitContainer, CertVolumeMounts;
    assert CaVolumes(s.Name(id, CaSecretRole))[0] == SecretVolume(CA_VOLUME, s.Name(id, CaSecretRole));
  }

  // ---------------------------------------------------------------- what the store holds

  /** The applied fields of a part stand, owned by the cluster. */
  predicate Stored(s: Settings, c: RayCluster, l: Locals, objects: map<ObjectKey, Object>, part: Part) {
    var at := Place(s, c.Ident(), part);
    at in objects && objects[at].applied == Content(s, SubjectOf(c), part, Relevant(part, l))
  }

  lemma SecretPlaces(s: Settings, id: Identity)
    ensures Place(s, id, OAuthSecretPart) == ObjectKey(SecretKind, id.namespace, s.Name(id, OAuthConfigRole))
    ensures Place(s, id, CaSecretPart) == ObjectKey(SecretKind, id.namespace, s.Name(id, CaSecretRole))
  {
    hide RoleName, CrbName, DashboardName, RayClientName;
  }

  lemma ProxyPlaces(s: Settings, id: Identity)
    ensures Place(s, id, OAuthAccountPart) == ObjectKey(AccountKind, id.namespace, s.Name(id, OAuthAccountRole))
    ensures Place(s, id, OAuthServicePart) == ObjectKey(ServiceKind, id.namespace, s.Name(id, OAuthServiceRole))
    ensures Place(s, id, DashboardRoutePart) == ObjectKey(RouteKind, id.namespace, DashboardName(id.name))
  {
    hide RoleName, CrbName, DashboardName, RayClientName;
  }

  lemma StoredOwned(s: Settings, c: RayCluster, l: Locals, objects: map<ObjectKey, Object>, part: Part)
    requires Stored(s, c, l, objects, part) && part != OAuthBindingPart
    ensures Owned(c, objects, Place(s, c.Ident(), part))
  {
    hide Place, BodyOf, LabelsOf, AnnotationsOf;
  }

  lemma StoredCookie(s: Settings, c: RayCluster, l: Locals, objects: map<ObjectKey, Object>)
    requires Stored(s, c, l, objects, OAuthSecretPart)
    ensures SecretHas(c, objects, s.Name(c.Ident(), OAuthConfigRole), {COOKIE_KEY})
  {
    hide RoleName, DashboardName, Content, Owned, Relevant, Place;
    SecretPlaces(s, c.Ident());
    StoredOwned(s, c, l, objects, OAuthSecretPart);
    CookieEntry(s, SubjectOf(c), Relevant(OAuthSecretPart, l));
  }

  lemma StoredCa(s: Settings, c: RayCluster, l: Locals, objects: map<ObjectKey, Object>)
    requires Stored(s, c, l, objects, CaSecretPart)
    ensures SecretHas(c, objects, s.Name(c.Ident(), CaSecretRole), {CA_PRIVATE_KEY_KEY, CA_CERT_KEY})
  {
    hide RoleName, DashboardName, Content, Owned, Relevant, Place;
    SecretPlaces(s, c.Ident());
    StoredOwned(s, c, l, objects, CaSecretPart);
    CaEntries(s, SubjectOf(c), Relevant(CaSecretPart, l));
  }

  lemma CookieEntry(s: Settings, sub: Subject, l: Locals)
    ensures var body := Content(s, sub, OAuthSecretPart, l).body; body.SecretBody? && COOKIE_KEY in body.data
  {
    hide RoleName, LabelsOf, Owner, AnnotationsOf, DelegatorBinding, ProxyService, CaSecret, DashboardRoute;
    hide DashboardIngress, ClientIngress, ClientRoute, Policies.HeadPolicy, Policies.WorkersPolicy;
  }

  lemma CaEntries(s: Settings, sub: Subject, l: Locals)
    ensures var body := Content(s, sub, CaSecretPart, l).body;
            body.SecretBody? && CA_PRIVATE_KEY_KEY in body.data && CA_CERT_KEY in body.data
  {
    hide RoleName, LabelsOf, Owner, AnnotationsOf, DelegatorBinding, ProxyService, CookieSecret, DashboardRoute;
    hide DashboardIngress, ClientIngress, ClientRoute, Policies.HeadPolicy, Policies.WorkersPolicy;
  }

  lemma StoredAccount(s: Settings, c: RayCluster, l: Locals, objects: map<ObjectKey, Object>)
    requires Stored(s, c, l, objects, OAuthAccountPart)
    ensures Owned(c, objects, ObjectKey(AccountKind, c.meta.namespace, s.Name(c.Ident(), OAuthAccountRole)))
  {
    hide RoleName, DashboardName, Owned, Content, Place;
    ProxyPlaces(s, c.Ident());
    StoredOwned(s, c, l, objects, OAuthAccountPart);
  }

  lemma StoredService(s: Settings, c: RayCluster, l: Locals, objects: map<ObjectKey, Object>)
    requires Stored(s, c, l, objects, OAuthServicePart)
    ensures var service := ObjectKey(ServiceKind, c.meta.namespace, s.Name(c.Ident(), OAuthServiceRole));
            Owned(c, objects, service)
            && objects[service].applied.annotations == map[SERVING_CERT_ANNOTATION := s.Name(c.Ident(), OAuthTlsRole)]
  {
    hide RoleName, DashboardName, LabelsOf, Owner, BodyOf;
    hide Relevant, Place, AccountAnnotations, ClientIngressAnnotations;
    ProxyPlaces(s, c.Ident());
    StoredOwned(s, c, l, objects, OAuthServicePart);
  }

  lemma StoredRoute(s: Settings, c: RayCluster, l: Locals, objects: map<ObjectKey, Object>)
    requires Stored(s, c, l, objects, DashboardRoutePart)
    ensures var route := ObjectKey(RouteKind, c.meta.namespace, DashboardName(c.meta.name));
            && route in objects && objects[route].applied.body.RouteBody?
            && objects[route].applied.body.service == s.Name(c.Ident(), OAuthServiceRole)
  {
    hide RoleName, DashboardName, LabelsOf, AnnotationsOf, Owner, Relevant, Place, CaSecret, CookieSecret, ProxyService;
    hide DelegatorBinding, ClientRoute, DashboardIngress, ClientIngress, Policies.HeadPolicy, Policies.WorkersPolicy;
    ProxyPlaces(s, c.Ident());
  }

  lemma StoredPort(s: Settings, c: RayCluster, l: Locals, objects: map<ObjectKey, Object>)
    requires Stored(s, c, l, objects, OAuthServicePart)
    ensures var service := ObjectKey(ServiceKind, c.meta.namespace, s.Name(c.Ident(), OAuthServiceRole));
            service in objects && objects[service].applied.body.ServiceBody?
            && objects[service].applied.body.targetPort == PROXY_PORT
  {
    hide RoleName, DashboardName, LabelsOf, Owner, AnnotationsOf, Relevant, Place, CaSecret, CookieSecret;
    hide DashboardRoute, DelegatorBinding, ClientRoute, DashboardIngress, ClientIngress;
    hide Policies.HeadPolicy, Policies.WorkersPolicy;
    ProxyPlaces(s, c.Ident());
  }

  lemma StoredBinding(s: Settings, c: RayCluster, l: Locals, objects: map<ObjectKey, Object>)
    requires Stored(s, c, l, objects, OAuthBindingPart)
        && c.head.template.serviceAccountName == s.Name(c.Ident(), OAuthAccountRole)
    ensures Grants(c, objects, Place(s, c.Ident(), OAuthBindingPart))
  {
    hide RoleName, Content, Place, Relevant, KindOf;
    var account := s.Name(c.Ident(), OAuthAccountRole);
    BindingPlaceKind(s, c.Ident());
    BindingSubject(s, SubjectOf(c), Relevant(OAuthBindingPart, l));
    GrantsAccount(c, objects, Place(s, c.Ident(), OAuthBindingPart), account);
  }

  lemma BindingPlaceKind(s: Settings, id: Identity)
    ensures Place(s, id, OAuthBindingPart).kind == BindingKind
  {
    hide Place;
    PlaceKind(s, id, OAuthBindingPart);
  }

  lemma GrantsAccount(c: RayCluster, objects: map<ObjectKey, Object>, at: ObjectKey, account: string)
    requires at in objects && at.kind == BindingKind && objects[at].applied.body.BindingBody?
    requires objects[at].applied.body.subjectName == account && c.head.template.serviceAccountName == account
    requires objects[at].applied.body.subjectNamespace == c.meta.namespace
    ensures Grants(c, objects, at)
  {
  }

  lemma BindingSubject(s: Settings, sub: Subject, l: Locals)
    ensures var body := Content(s, sub, OAuthBindingPart, l).body;
            && body.BindingBody? && body.subjectName == s.Name(sub.id, OAuthAccountRole)
            && body.subjectNamespace == sub.id.namespace
  {
    hide RoleName, LabelsOf, Owner, AnnotationsOf, CaSecret, CookieSecret;
    hide ProxyService, DashboardRoute, DashboardIngress, ClientIngress;
    hide ClientRoute, Policies.HeadPolicy, Policies.WorkersPolicy;
  }

  lemma PortCloses(c: RayCluster, objects: map<ObjectKey, Object>, p: ProxyItems, certs: CertItems, route: ObjectKey,
                   service: string)
    requires Names(p, certs, c) && |p.container.ports| == 1
    requires route in objects && objects[route].applied.body.RouteBody?
        && objects[route].applied.body.service == service
    requires var at := ObjectKey(ServiceKind, c.meta.namespace, service);
             at in objects && objects[at].applied.body.ServiceBody?
             && objects[at].applied.body.targetPort == p.container.ports[0].name
    ensures ProxyServed(c, objects, route, p.container.name)
  {
    var ks := c.head.template.containers;
    assert ks[IndexOf(ks, ContainerName, p.container.name)].ports[0] == p.container.ports[0];
  }

  lemma StoredAsks(s: Settings, c: RayCluster, l: Locals, objects: map<ObjectKey, Object>)
    requires Stored(s, c, l, objects, DashboardRoutePart) && Stored(s, c, l, objects, OAuthServicePart)
    ensures Asks(c, objects, ObjectKey(RouteKind, c.meta.namespace, DashboardName(c.meta.name)),
                 SERVING_CERT_ANNOTATION, s.Name(c.Ident(), OAuthTlsRole))
  {
    hide RoleName, DashboardName, Stored, Owned;
    StoredService(s, c, l, objects);
    StoredRoute(s, c, l, objects);
  }

  /** The service behind the route exists and asks for the secret. */
  predicate Asks(c: RayCluster, objects: map<ObjectKey, Object>, route: ObjectKey, annotation: string,
                 secretName: string)
  {
    && route in objects && objects[route].applied.body.RouteBody?
    && var service := ObjectKey(ServiceKind, c.meta.namespace, objects[route].applied.body.service);
       && Owned(c, objects, service)
       && annotation in objects[service].applied.annotations
       && objects[service].applied.annotations[annotation] == secretName
  }

  // ---------------------------------------------------------------- the theorem

  predicate AllStored(s: Settings, c: RayCluster, l: Locals, objects: map<ObjectKey, Object>) {
    && Stored(s, c, l, objects, OAuthAccountPart) && Stored(s, c, l, objects, OAuthSecretPart)
    && Stored(s, c, l, objects, CaSecretPart) && Stored(s, c, l, objects, DashboardRoutePart)
    && Stored(s, c, l, objects, OAuthServicePart) && Stored(s, c, l, objects, OAuthBindingPart)
  }

  lemma FixpointNames(s: Settings, c: RayCluster)
    requires s.OAuthEnabled() && s.MtlsEnabled() && !c.Legacy() && Defaulted(s, c) == Some(c)
    ensures Names(ProxyItemsFor(s, c.Ident()), CertItemsFor(s, c.Ident()), c)
  {
    hide ProxyItemsFor, CertItemsFor, Inject, Fits, Coherent, Names;
    var j := DefaultItems(s, c);
    assert c.meta == Annotated(s.operatorVersion, c).meta by { InjectKeepsIdentity(j, s.operatorVersion, c); }
    assert c == Annotated(s.operatorVersion, c);
    InjectionCoherent(s, c.Ident());
    FitsIgnoresMeta(j, s.operatorVersion, c);
    DefaultedNames(j, c);
  }

  lemma StoredCloses(s: Settings, c: RayCluster, l: Locals, objects: map<ObjectKey, Object>)
    requires s.OAuthEnabled() && s.MtlsEnabled() && !c.Legacy() && Defaulted(s, c) == Some(c)
    requires AllStored(s, c, l, objects)
    ensures Closed(c, objects)
  {
    hide Stored, ProxyItemsFor, CertItemsFor, RoleName, DashboardName, Owned, SecretHas;
    hide CookieAvailable, Mounted, CaClosed, ProxyClosed, Defaulted, TlsRequested, ProxyServed, Grants;
    var id := c.Ident();
    var p, certs := ProxyItemsFor(s, id), CertItemsFor(s, id);
    FixpointNames(s, c);
    ProxyNames(s, id);
    CertNames(s, id);
    StoredAccount(s, c, l, objects);
    StoredCookie(s, c, l, objects);
    CookieCloses(c, objects, p, certs);
    StoredCa(s, c, l, objects);
    CaCloses(c, objects, p, certs, SecretVolume(CA_VOLUME, s.Name(id, CaSecretRole)),
        {CA_PRIVATE_KEY_KEY, CA_CERT_KEY});
    StoredAsks(s, c, l, objects);
    StoredRoute(s, c, l, objects);
    StoredPort(s, c, l, objects);
    PortCloses(c, objects, p, certs, ObjectKey(RouteKind, c.meta.namespace, DashboardName(c.meta.name)),
        s.Name(id, OAuthServiceRole));
    StoredBinding(s, c, l, objects);
    TlsCloses(c, objects, ObjectKey(RouteKind, c.meta.namespace, DashboardName(c.meta.name)), SERVING_CERT_ANNOTATION,
        p, certs);
  }

  lemma TlsCloses(c: RayCluster, objects: map<ObjectKey, Object>, route: ObjectKey, annotation: string, p: ProxyItems,
                  certs: CertItems)
    requires Names(p, certs, c) && p.volume.secret.Some?
    requires Asks(c, objects, route, annotation, p.volume.secret.value.secretName)
    ensures TlsRequested(c, objects, route, annotation, c.head.template, p.volume.name)
  {
    HeldVolume(c.head.template.volumes, p.volume);
  }

  lemma HeldVolume(volumes: seq<Volume>, v: Volume)
    requires Holds(volumes, v, VolumeName)
    ensures var i := IndexOf(volumes, VolumeName, v.name); i < |volumes| && volumes[i] == v
  {
    assert VolumeName(v) == v.name;
  }

  lemma CookieCloses(c: RayCluster, objects: map<ObjectKey, Object>, p: ProxyItems, certs: CertItems)
    requires Names(p, certs, c)
    requires |p.container.env| == 1 && FromSecret(p.container.env[0])
    requires forall i | 0 <= i < |certs.env| :: !FromSecret(certs.env[i])
    requires var ref := p.container.env[0].valueFrom.value.secretKeyRef.value;
             SecretHas(c, objects, ref.name, {ref.key})
    ensures ProxyClosed(c, objects, p.container.name)
  {
    hide SecretHas, Holds;
    var ks := c.head.template.containers;
    var k := ks[IndexOf(ks, ContainerName, p.container.name)];
    assert FromSecret(k.env[0]);
  }

  lemma CaCloses(c: RayCluster, objects: map<ObjectKey, Object>, p: ProxyItems, certs: CertItems, ca: Volume,
                 entries: set<string>)
    requires Names(p, certs, c) && ca in certs.volumes && ca.secret.Some?
    requires SecretHas(c, objects, ca.secret.value.secretName, entries)
    ensures CaClosed(c, objects, ca.name, entries)
  {
    hide SecretHas;
    HeldVolume(c.head.template.volumes, ca);
    forall g | 0 <= g < |c.workers| ensures Mounted(c, objects, c.workers[g].template, ca.name, entries) {
      HeldVolume(c.workers[g].template.volumes, ca);
    }
  }

  /** With OAuth and mutual TLS on OpenShift, a pass for an unsuspended, unmarked cluster that
      returns nil leaves everything the head and worker templates name in the store, owned by the
      cluster; the service requests exactly the TLS secret that the proxy mounts and targets a port
      of the proxy; and a binding names the head pod's service account. */
  lemma ReferenceClosure(s: Settings, k: Key, st: State, evs: seq<Event>, last: Event)
    requires s.OAuthEnabled() && s.MtlsEnabled() && s.openShift
    requires Tidy(OperatorFor(s), st) && k !in st.passes && Closure.QuietRunOf(OperatorFor(s), k, evs)
    requires Closure.EndsWell(OperatorFor(s), k, Run(OperatorFor(s), st, evs), last)
    requires !Run(OperatorFor(s), st, evs).passes[k].cluster.Suspended()
    ensures var mid := Run(OperatorFor(s), st, evs);
            Closed(mid.passes[k].cluster, Step(OperatorFor(s), mid, last).world.objects)
  {
    hide Run, Step, Place, Content, Defaulted, Closed, Closure.Quiet, AllStored, Closure.AllStand;
    var op := OperatorFor(s);
    OperatorIsSound(s);
    Closure.NilPassCloses(op, k, st, evs, last);
    hide Sound;
    var mid := Run(op, st, evs);
    var p := mid.passes[k];
    var c := p.cluster;
    var objects := Step(op, mid, last).world.objects;
    SaneDefaulted(s, k, c);
    StandsStored(s, k, p, objects);
    StoredCloses(s, c, p.locals, objects);
  }

  lemma SaneDefaulted(s: Settings, k: Key, c: RayCluster)
    requires Sane(OperatorFor(s), k, c)
    ensures Defaulted(s, c) == Some(c) && c.Ident() == IdOf(k)
  {
    hide Defaulted;
    assert c.(meta := c.meta) == c;
    assert OperatorFor(s).defaulter(c.(meta := c.meta)) == Some(c.(meta := c.meta));
  }

  lemma StandsStored(s: Settings, k: Key, p: Pass, objects: map<ObjectKey, Object>)
    requires s.OAuthEnabled() && s.MtlsEnabled() && s.openShift && !p.cluster.Suspended()
    requires Closure.AllStand(OperatorFor(s), k, p, objects) && p.cluster.Ident() == IdOf(k)
    ensures AllStored(s, p.cluster, p.locals, objects)
  {
    hide Stored, Closure.AllStand, Closure.Stands;
    SixStand(OperatorFor(s), k, p, objects);
    PartStored(s, k, p, objects, OAuthAccountPart);
    PartStored(s, k, p, objects, OAuthSecretPart);
    PartStored(s, k, p, objects, CaSecretPart);
    PartStored(s, k, p, objects, DashboardRoutePart);
    PartStored(s, k, p, objects, OAuthServicePart);
    PartStored(s, k, p, objects, OAuthBindingPart);
  }

  lemma SixStand(op: Operator, k: Key, p: Pass, objects: map<ObjectKey, Object>)
    requires op.oauth && op.mtls && op.openShift && !p.cluster.Suspended()
    requires Closure.AllStand(op, k, p, objects)
    ensures Closure.Stands(op, k, p, objects, OAuthAccountPart)
    ensures Closure.Stands(op, k, p, objects, OAuthSecretPart)
    ensures Closure.Stands(op, k, p, objects, CaSecretPart)
    ensures Closure.Stands(op, k, p, objects, DashboardRoutePart)
    ensures Closure.Stands(op, k, p, objects, OAuthServicePart)
    ensures Closure.Stands(op, k, p, objects, OAuthBindingPart)
  {
    hide Closure.Stands;
  }

  lemma PartStored(s: Settings, k: Key, p: Pass, objects: map<ObjectKey, Object>, part: Part)
    requires Closure.Stands(OperatorFor(s), k, p, objects, part) && p.cluster.Ident() == IdOf(k)
    ensures Stored(s, p.cluster, p.locals, objects, part)
  {
    hide Place, Content, Relevant;
  }
}
