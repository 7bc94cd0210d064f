/** What the mutating webhook does to a RayCluster, as a function on values, and its laws. The
    laws are proved for any coherent injection and then used for the operator's own items. */
module Defaulting {
  import opened Wrappers
  import opened Kube
  import opened Items
  import opened Support

  function WithProxy(p: ProxyItems, t: PodSpec): PodSpec {
    t.(containers := UpsertBy(t.containers, p.container, ContainerName),
       volumes := UpsertBy(t.volumes, p.volume, VolumeName),
       serviceAccountName := p.account)
  }

  function TlsContainer(certs: CertItems, k: Container): Container {
    k.(env := UpsertAll(k.env, certs.env, EnvName),
       volumeMounts := UpsertAll(k.volumeMounts, certs.mounts, MountName))
  }

  function WithTls(certs: CertItems, init: Container, t: PodSpec): PodSpec
    requires t.containers != []
  {
    t.(containers := t.containers[0 := TlsContainer(certs, t.containers[0])],
       initContainers := UpsertBy(t.initContainers, init, ContainerName),
       volumes := UpsertAll(t.volumes, certs.volumes, VolumeName))
  }

  function WorkersWithTls(certs: CertItems, groups: seq<WorkerGroup>): (r: seq<WorkerGroup>)
    requires forall i | 0 <= i < |groups| :: groups[i].template.containers != []
    ensures |r| == |groups|
    ensures forall i | 0 <= i < |groups| ::
              r[i] == groups[i].(template := WithTls(certs, certs.workerInit, groups[i].template))
  {
    seq(|groups|, i requires 0 <= i < |groups| =>
      groups[i].(template := WithTls(certs, certs.workerInit, groups[i].template)))
  }

  /** The container premises: with mutual TLS on, indexing the first container must not panic. */
  predicate Fits(j: Injection, c: RayCluster) {
    j.mtls.Some? ==>
      && (j.oauth.Some? || c.head.template.containers != [])
      && forall i | 0 <= i < |c.workers| :: c.workers[i].template.containers != []
  }

  function HeadStage(j: Injection, t: PodSpec): PodSpec {
    if j.oauth.Some? then WithProxy(j.oauth.value, t) else t
  }

  function Inject(j: Injection, c: RayCluster): RayCluster
    requires Fits(j, c)
  {
    var head := HeadStage(j, c.head.template);
    if j.mtls.None? then c.(head := c.head.(template := head))
    else c.(head := c.head.(template := WithTls(j.mtls.value, j.mtls.value.headInit, head)),
            workers := WorkersWithTls(j.mtls.value, c.workers))
  }

  function Annotated(version: string, c: RayCluster): RayCluster {
    c.(meta := c.meta.(annotations := c.meta.annotations[VERSION_ANNOTATION := version]))
  }

  /** The items of a cluster once it carries the version annotation. */
  function DefaultItems(s: Settings, c: RayCluster): Injection {
    InjectionFor(s, Annotated(s.operatorVersion, c).Ident())
  }

  /** The defaulted cluster; nothing when the webhook panics, which rejects the request. */
  function Defaulted(s: Settings, c: RayCluster): Option<RayCluster> {
    var j := DefaultItems(s, c);
    if Fits(j, c) then Some(Inject(j, Annotated(s.operatorVersion, c))) else None
  }

  // ---------------------------------------------------------------- what a defaulted template holds

  /** The first holder of each injected name is the injected item; the first container, which
      mutual TLS extends, may be the proxy itself. */
  ghost predicate HoldsProxy(p: ProxyItems, t: PodSpec) {
    && Has(t.containers, ContainerName, p.container.name)
    && Holds(t.volumes, p.volume, VolumeName)
    && t.serviceAccountName == p.account
  }

  ghost predicate HoldsTls(certs: CertItems, init: Container, t: PodSpec) {
    && t.containers != []
    && (forall i | 0 <= i < |certs.env| :: Holds(t.containers[0].env, certs.env[i], EnvName))
    && (forall i | 0 <= i < |certs.mounts| :: Holds(t.containers[0].volumeMounts, certs.mounts[i], MountName))
    && (forall i | 0 <= i < |certs.volumes| :: Holds(t.volumes, certs.volumes[i], VolumeName))
    && Holds(t.initContainers, init, ContainerName)
  }

  lemma TlsHolds(certs: CertItems, init: Container, t: PodSpec)
    requires DistinctCerts(certs) && t.containers != []
    ensures HoldsTls(certs, init, WithTls(certs, init, t))
  {
    UpsertAllHolds(t.containers[0].env, certs.env, EnvName);
    UpsertAllHolds(t.containers[0].volumeMounts, certs.mounts, MountName);
    UpsertAllHolds(t.volumes, certs.volumes, VolumeName);
    UpsertIndex(t.initContainers, init, ContainerName, init.name);
  }

  lemma TlsNoop(certs: CertItems, init: Container, t: PodSpec)
    requires HoldsTls(certs, init, t)
    ensures WithTls(certs, init, t) == t
  {
    var k := t.containers[0];
    UpsertAllNoop(k.env, certs.env, EnvName);
    UpsertAllNoop(k.volumeMounts, certs.mounts, MountName);
    UpsertAllNoop(t.volumes, certs.volumes, VolumeName);
    assert TlsContainer(certs, k) == k;
  }

  lemma SameNames(a: seq<Container>, b: seq<Container>, name: string)
    requires |a| == |b| && forall i | 0 <= i < |a| :: a[i].name == b[i].name
    ensures IndexOf(a, ContainerName, name) == IndexOf(b, ContainerName, name)
  {
    IndexOfUnique(b, ContainerName, name, IndexOf(a, ContainerName, name));
  }

  /** Where the proxy sits once mutual TLS has extended the first container: it is unchanged
      there, or it is the extended first container itself. */
  lemma ProxyAfterTls(p: ProxyItems, certs: CertItems, init: Container, t: PodSpec)
    requires DistinctCerts(certs) && Disjoint(p, certs)
    ensures var t1 := WithProxy(p, t); var t2 := WithTls(certs, init, t1);
            var i := IndexOf(t2.containers, ContainerName, p.container.name);
            && HoldsProxy(p, t2)
            && i == IndexOf(t1.containers, ContainerName, p.container.name)
            && t1.containers[i] == p.container
            && t2.containers[i] == (if i == 0 then TlsContainer(certs, p.container) else p.container)
  {
    var t1 := WithProxy(p, t);
    var t2 := WithTls(certs, init, t1);
    UpsertIndex(t.containers, p.container, ContainerName, p.container.name);
    SameNames(t1.containers, t2.containers, p.container.name);
    UpsertIndex(t.volumes, p.volume, VolumeName, p.volume.name);
    UpsertAllKeeps(t1.volumes, certs.volumes, p.volume, VolumeName);
  }

  // ---------------------------------------------------------------- idempotence

  /** The proxy is the first container: it is reset and then extended again. */
  lemma FirstIdempotent(p: ProxyItems, certs: CertItems, init: Container, t: PodSpec)
    requires DistinctCerts(certs) && Disjoint(p, certs)
    requires IndexOf(WithProxy(p, t).containers, ContainerName, p.container.name) == 0
    ensures var t2 := WithTls(certs, init, WithProxy(p, t));
            WithTls(certs, init, WithProxy(p, t2)) == t2
  {
    hide UpsertAll;
    var t1 := WithProxy(p, t);
    var t2 := WithTls(certs, init, t1);
    var t3 := WithProxy(p, t2);
    ProxyAfterTls(p, certs, init, t);
    TlsHolds(certs, init, t1);
    assert t3.volumes == t2.volumes;
    assert t3.containers == t1.containers;
    UpsertAllNoop(t2.volumes, certs.volumes, VolumeName);
  }

  /** The proxy comes later: nothing is left to do. */
  lemma LaterIdempotent(p: ProxyItems, certs: CertItems, init: Container, t: PodSpec)
    requires DistinctCerts(certs) && Disjoint(p, certs)
    requires IndexOf(WithProxy(p, t).containers, ContainerName, p.container.name) != 0
    ensures var t2 := WithTls(certs, init, WithProxy(p, t));
            WithTls(certs, init, WithProxy(p, t2)) == t2
  {
    hide UpsertAll, TlsContainer;
    var t1 := WithProxy(p, t);
    var t2 := WithTls(certs, init, t1);
    ProxyAfterTls(p, certs, init, t);
    TlsHolds(certs, init, t1);
    assert WithProxy(p, t2).containers == t2.containers;
    assert WithProxy(p, t2) == t2;
    TlsNoop(certs, init, t2);
  }

  lemma HeadIdempotent(p: ProxyItems, certs: CertItems, init: Container, t: PodSpec)
    requires DistinctCerts(certs) && Disjoint(p, certs)
    ensures var t2 := WithTls(certs, init, WithProxy(p, t));
            WithTls(certs, init, WithProxy(p, t2)) == t2
  {
    hide WithTls, WithProxy;
    if IndexOf(WithProxy(p, t).containers, ContainerName, p.container.name) == 0 {
      FirstIdempotent(p, certs, init, t);
    } else {
      LaterIdempotent(p, certs, init, t);
    }
  }

  lemma ProxyIdempotent(p: ProxyItems, t: PodSpec)
    ensures WithProxy(p, WithProxy(p, t)) == WithProxy(p, t)
  {
    UpsertIndex(t.containers, p.container, ContainerName, p.container.name);
    UpsertIndex(t.volumes, p.volume, VolumeName, p.volume.name);
  }

  lemma WorkersIdempotent(certs: CertItems, groups: seq<WorkerGroup>)
    requires DistinctCerts(certs)
    requires forall i | 0 <= i < |groups| :: groups[i].template.containers != []
    ensures WorkersWithTls(certs, WorkersWithTls(certs, groups)) == WorkersWithTls(certs, groups)
  {
    var r := WorkersWithTls(certs, groups);
    var rr := WorkersWithTls(certs, r);
    forall i | 0 <= i < |groups| ensures rr[i] == r[i] {
      TlsHolds(certs, certs.workerInit, groups[i].template);
      TlsNoop(certs, certs.workerInit, r[i].template);
    }
  }

  /** A second injection of the same items changes nothing, for arbitrary user lists. */
  lemma InjectIdempotent(j: Injection, c: RayCluster)
    requires Coherent(j) && Fits(j, c)
    ensures Fits(j, Inject(j, c)) && Inject(j, Inject(j, c)) == Inject(j, c)
  {
    var t := c.head.template;
    if j.mtls.Some? {
      var certs := j.mtls.value;
      WorkersIdempotent(certs, c.workers);
      if j.oauth.Some? {
        HeadIdempotent(j.oauth.value, certs, certs.headInit, t);
      } else {
        TlsHolds(certs, certs.headInit, t);
        TlsNoop(certs, certs.headInit, WithTls(certs, certs.headInit, t));
      }
    } else if j.oauth.Some? {
      ProxyIdempotent(j.oauth.value, t);
    }
  }

  /** Injected items touch neither the metadata nor anything the items depend on. */
  lemma InjectKeepsIdentity(j: Injection, version: string, c: RayCluster)
    requires Fits(j, c)
    ensures var c1 := Annotated(version, c);
            && Inject(j, c1).meta == c1.meta
            && Annotated(version, Inject(j, c1)) == Inject(j, c1)
            && Annotated(version, Inject(j, c1)).Ident() == c1.Ident()
            && c1.Ident() == Identity(c.meta.name, c.meta.namespace, false)
  {
    var c1 := Annotated(version, c);
    var d := Inject(j, c1);
    assert d.meta.annotations[VERSION_ANNOTATION := version] == d.meta.annotations;
  }

  /** The webhook is idempotent on the whole cluster. */
  lemma DefaultIdempotent(s: Settings, c: RayCluster)
    requires Defaulted(s, c).Some?
    ensures Defaulted(s, Defaulted(s, c).value) == Defaulted(s, c)
  {
    hide InjectionFor, Inject, Coherent, Fits, Annotated;
    var c1 := Annotated(s.operatorVersion, c);
    var j := DefaultItems(s, c);
    InjectionCoherent(s, c1.Ident());
    InjectKeepsIdentity(j, s.operatorVersion, c);
    assert Fits(j, c1) by { FitsIgnoresMeta(j, s.operatorVersion, c); }
    InjectIdempotent(j, c1);
  }

  /** Defaulting panics exactly when, with mutual TLS not switched off, some worker group has no
      container, or the head has none and gets no proxy. */
  lemma DefaultPanics(s: Settings, c: RayCluster)
    ensures Defaulted(s, c).None? <==>
            && s.mtls != Some(false)
            && ((s.oauth == Some(false) && c.head.template.containers == [])
                || exists i | 0 <= i < |c.workers| :: c.workers[i].template.containers == [])
  {
    hide ProxyItemsFor, CertItemsFor, Inject;
  }

  /** Defaulting writes one annotation and keeps the user's others and all other metadata. */
  lemma MetadataKept(s: Settings, c: RayCluster)
    requires Defaulted(s, c).Some?
    ensures var d := Defaulted(s, c).value;
            && "ray.openshift.ai/version" in d.meta.annotations
            && d.meta.annotations["ray.openshift.ai/version"] == s.operatorVersion
            && (forall a | a != "ray.openshift.ai/version" ::
                  && (a in d.meta.annotations <==> a in c.meta.annotations)
                  && (a in c.meta.annotations ==> d.meta.annotations[a] == c.meta.annotations[a]))
            && d.meta == Meta(c.meta.name, c.meta.namespace, c.meta.uid, c.meta.resourceVersion, c.meta.deleting,
                              c.meta.finalizers, d.meta.annotations)
  {
    hide InjectionFor, WithProxy, WithTls, WorkersWithTls;
    InjectKeepsIdentity(DefaultItems(s, c), s.operatorVersion, c);
  }

  lemma FitsIgnoresMeta(j: Injection, version: string, c: RayCluster)
    ensures Fits(j, Annotated(version, c)) == Fits(j, c)
  {
  }

  // ---------------------------------------------------------------- conservation

  function VolumesOf(proxy: Option<ProxyItems>, certs: Option<CertItems>): seq<Volume> {
    (if proxy.Some? then [proxy.value.volume] else []) + (if certs.Some? then certs.value.volumes else [])
  }

  /** Reference description of a defaulted pod template. Only the first container, and the first
      one called like the proxy, may differ from the user's; every other list is the reference
      injection of the user's list; nothing else changes but the service account. */
  ghost predicate TemplateInjected(proxy: Option<ProxyItems>, certs: Option<CertItems>, init: Container,
                                   before: PodSpec, after: PodSpec) {
    var ks, rs := before.containers, after.containers;
    var at := if proxy.Some? then IndexOf(ks, ContainerName, proxy.value.container.name) else |ks|;
    && |rs| == |ks| + (if proxy.Some? && at == |ks| then 1 else 0)
    && (forall i | 0 <= i < |rs| ::
          var base := if i == at then proxy.value.container else ks[i];
          if i == 0 && certs.Some? then
            && rs[0] == base.(env := rs[0].env, volumeMounts := rs[0].volumeMounts)
            && Injected(base.env, certs.value.env, EnvName, rs[0].env)
            && Injected(base.volumeMounts, certs.value.mounts, MountName, rs[0].volumeMounts)
          else rs[i] == base)
    && Injected(before.volumes, VolumesOf(proxy, certs), VolumeName, after.volumes)
    && Injected(before.initContainers, if certs.Some? then [init] else [], ContainerName, after.initContainers)
    && after.serviceAccountName == (if proxy.Some? then proxy.value.account else before.serviceAccountName)
    && after.imagePullSecrets == before.imagePullSecrets && after.rest == before.rest
  }

  function TemplateStage(proxy: Option<ProxyItems>, certs: Option<CertItems>, init: Container, t: PodSpec): PodSpec
    requires certs.Some? ==> proxy.Some? || t.containers != []
  {
    var t1 := if proxy.Some? then WithProxy(proxy.value, t) else t;
    if certs.Some? then WithTls(certs.value, init, t1) else t1
  }

  lemma TemplateConserved(proxy: Option<ProxyItems>, certs: Option<CertItems>, init: Container, t: PodSpec)
    requires Coherent(Injection(proxy, certs))
    requires certs.Some? ==> proxy.Some? || t.containers != []
    ensures TemplateInjected(proxy, certs, init, t, TemplateStage(proxy, certs, init, t))
  {
    var t1 := if proxy.Some? then WithProxy(proxy.value, t) else t;
    if certs.Some? {
      UpsertAllInjects(t1.containers[0].env, certs.value.env, EnvName);
      UpsertAllInjects(t1.containers[0].volumeMounts, certs.value.mounts, MountName);
      UpsertAllInjects(t.initContainers, [init], ContainerName);
      assert UpsertAll(t.initContainers, [init], ContainerName) == UpsertBy(t.initContainers, init, ContainerName);
    }
    VolumesConserved(proxy, certs, t.volumes);
  }

  lemma VolumesConserved(proxy: Option<ProxyItems>, certs: Option<CertItems>, volumes: seq<Volume>)
    requires Coherent(Injection(proxy, certs))
    ensures var v1 := if proxy.Some? then UpsertBy(volumes, proxy.value.volume, VolumeName) else volumes;
            var v2 := if certs.Some? then UpsertAll(v1, certs.value.volumes, VolumeName) else v1;
            Injected(volumes, VolumesOf(proxy, certs), VolumeName, v2)
  {
    var news := VolumesOf(proxy, certs);
    UpsertAllInjects(volumes, news, VolumeName);
    if proxy.Some? {
      assert news[0] == proxy.value.volume && news[1..] == if certs.Some? then certs.value.volumes else [];
    } else {
      assert news == if certs.Some? then certs.value.volumes else [];
    }
  }

  ghost predicate ClusterInjected(j: Injection, c: RayCluster, d: RayCluster) {
    && d == c.(head := c.head.(template := d.head.template), workers := d.workers)
    && TemplateInjected(j.oauth, j.mtls, HeadInit(j), c.head.template, d.head.template)
    && |d.workers| == |c.workers|
    && (j.mtls.None? ==> d.workers == c.workers)
    && (j.mtls.Some? ==> forall i | 0 <= i < |c.workers| ::
          && d.workers[i].groupName == c.workers[i].groupName
          && TemplateInjected(None, j.mtls, j.mtls.value.workerInit, c.workers[i].template, d.workers[i].template))
  }

  function HeadInit(j: Injection): Container {
    if j.mtls.Some? then j.mtls.value.headInit else PlainContainer("", "")
  }

  lemma InjectConserves(j: Injection, c: RayCluster)
    requires Coherent(j) && Fits(j, c)
    ensures ClusterInjected(j, c, Inject(j, c))
  {
    TemplateConserved(j.oauth, j.mtls, HeadInit(j), c.head.template);
    if j.mtls.Some? {
      forall i | 0 <= i < |c.workers|
        ensures TemplateInjected(None, j.mtls, j.mtls.value.workerInit, c.workers[i].template,
                                 Inject(j, c).workers[i].template)
      {
        TemplateConserved(None, j.mtls, j.mtls.value.workerInit, c.workers[i].template);
      }
    }
  }

  /** Defaulting is conservative: what it returns is the reference injection of the user's cluster,
      and it returns something exactly when the container premises hold. */
  lemma DefaultConserves(s: Settings, c: RayCluster)
    ensures var j := DefaultItems(s, c);
            && (Defaulted(s, c).Some? <==> Fits(j, c))
            && (Defaulted(s, c).Some? ==>
                  ClusterInjected(j, Annotated(s.operatorVersion, c), Defaulted(s, c).value))
  {
    hide InjectionFor, Inject, Coherent, Fits, Annotated, ClusterInjected;
    var c1 := Annotated(s.operatorVersion, c);
    InjectionCoherent(s, c1.Ident());
    FitsIgnoresMeta(DefaultItems(s, c), s.operatorVersion, c);
    if Defaulted(s, c).Some? {
      InjectConserves(DefaultItems(s, c), c1);
    }
  }
}
