/** The admission webhook in the shape of its source: an object updated in place by Default, and
    validators that loop over items and worker groups while collecting errors. */
module Webhook {
  import opened Wrappers
  import opened Kube
  import opened Items
  import opened Support
  import opened Derivative
  import opened Defaulting
  import opened Validation

  /** The object handed to the webhook. */
  class ClusterObject {
    const apiVersion: string
    const kind: string
    const suspend: Option<bool>
    var meta: Meta
    var head: HeadGroup
    var workers: seq<WorkerGroup>

    constructor (c: RayCluster)
      ensures Value() == c
    {
      apiVersion, kind, suspend := c.apiVersion, c.kind, c.suspend;
      meta, head, workers := c.meta, c.head, c.workers;
    }

    function Value(): RayCluster
      reads this
    {
      RayCluster(apiVersion, kind, meta, head, workers, suspend)
    }
  }

  /** The items the validators expect of a cluster as it is. */
  function ExpectedItems(s: Settings, c: RayCluster): Injection {
    InjectionFor(s, c.Ident())
  }

  class RayClusterWebhook {
    const settings: Settings

    constructor (s: Settings)
      ensures settings == s
    {
      settings := s;
    }

    /** Injects into the given object; a panic on a missing first container rejects the request. */
    method Default(c: ClusterObject) returns (panicked: bool)
      modifies c
      ensures panicked <==> Defaulted(settings, old(c.Value())).None?
      ensures !panicked ==> Some(c.Value()) == Defaulted(settings, old(c.Value()))
    {
      hide InjectionFor;
      c.meta := c.meta.(annotations := c.meta.annotations[VERSION_ANNOTATION := settings.operatorVersion]);
      var j := InjectionFor(settings, c.Value().Ident());
      assert j == DefaultItems(settings, old(c.Value()));
      panicked := InjectInto(j, c);
    }

    method InjectInto(j: Injection, c: ClusterObject) returns (panicked: bool)
      modifies c
      ensures panicked <==> !Fits(j, old(c.Value()))
      ensures !panicked ==> c.Value() == Inject(j, old(c.Value()))
    {
      hide WithProxy, WithTls;
      if j.oauth.Some? {
        var t := InjectProxy(j.oauth.value, c.head.template);
        c.head := c.head.(template := t);
      }
      assert c.head.template == HeadStage(j, old(c.head.template));
      if j.mtls.Some? {
        if c.head.template.containers == [] {
          assert j.oauth.Some? ==> false by { ProxyNonempty(j, old(c.head.template)); }
          return true;
        }
        var t := InjectCerts(j.mtls.value, j.mtls.value.headInit, c.head.template);
        c.head := c.head.(template := t);
        panicked := InjectWorkers(j.mtls.value, c);
      } else {
        panicked := false;
      }
    }

    method InjectWorkers(certs: CertItems, c: ClusterObject) returns (panicked: bool)
      modifies c`workers
      ensures panicked <==> exists i | 0 <= i < |old(c.workers)| :: old(c.workers)[i].template.containers == []
      ensures !panicked ==> c.workers == WorkersWithTls(certs, old(c.workers))
    {
      ghost var groups := c.workers;
      for i := 0 to |c.workers|
        modifies c`workers
        invariant |c.workers| == |groups|
        invariant forall k | 0 <= k < i :: groups[k].template.containers != []
        invariant forall k | 0 <= k < i ::
            c.workers[k] == groups[k].(template := WithTls(certs, certs.workerInit, groups[k].template))
        invariant forall k | i <= k < |groups| :: c.workers[k] == groups[k]
      {
        if c.workers[i].template.containers == [] {
          return true;
        }
        var t := InjectCerts(certs, certs.workerInit, c.workers[i].template);
        c.workers := c.workers[i := c.workers[i].(template := t)];
      }
      return false;
    }

    method InjectProxy(p: ProxyItems, t: PodSpec) returns (r: PodSpec)
      ensures r == WithProxy(p, t)
    {
      FirstMatch(t.containers, p.container, WithContainerName(p.container.name), ContainerName);
      var containers := Upsert(t.containers, p.container, WithContainerName(p.container.name));
      FirstMatch(t.volumes, p.volume, WithVolumeName(p.volume.name), VolumeName);
      var volumes := Upsert(t.volumes, p.volume, WithVolumeName(p.volume.name));
      r := t.(containers := containers, volumes := volumes, serviceAccountName := p.account);
    }

    /** One pod template: environment and mounts of the first container, volumes, init container. */
    method InjectCerts(certs: CertItems, init: Container, t: PodSpec) returns (r: PodSpec)
      requires t.containers != []
      ensures r == WithTls(certs, init, t)
    {
      var env := UpsertEnv(t.containers[0].env, certs.env);
      FirstMatch(t.initContainers, init, WithContainerName(init.name), ContainerName);
      var inits := Upsert(t.initContainers, init, WithContainerName(init.name));
      var volumes := UpsertVolumes(t.volumes, certs.volumes);
      var mounts := UpsertMounts(t.containers[0].volumeMounts, certs.mounts);
      r := t.(containers := t.containers[0 := t.containers[0].(env := env, volumeMounts := mounts)],
              initContainers := inits, volumes := volumes);
    }

    method UpsertEnv(items: seq<EnvVar>, news: seq<EnvVar>) returns (r: seq<EnvVar>)
      ensures r == UpsertAll(items, news, EnvName)
    {
      r := items;
      for i := 0 to |news|
        invariant UpsertAll(r, news[i..], EnvName) == UpsertAll(items, news, EnvName)
      {
        FirstMatch(r, news[i], WithEnvVarName(news[i].name), EnvName);
        r := Upsert(r, news[i], WithEnvVarName(news[i].name));
        assert news[i..][1..] == news[i + 1..];
      }
    }

    method UpsertVolumes(items: seq<Volume>, news: seq<Volume>) returns (r: seq<Volume>)
      ensures r == UpsertAll(items, news, VolumeName)
    {
      r := items;
      for i := 0 to |news|
        invariant UpsertAll(r, news[i..], VolumeName) == UpsertAll(items, news, VolumeName)
      {
        FirstMatch(r, news[i], WithVolumeName(news[i].name), VolumeName);
        r := Upsert(r, news[i], WithVolumeName(news[i].name));
        assert news[i..][1..] == news[i + 1..];
      }
    }

    method UpsertMounts(items: seq<VolumeMount>, news: seq<VolumeMount>) returns (r: seq<VolumeMount>)
      ensures r == UpsertAll(items, news, MountName)
    {
      r := items;
      for i := 0 to |news|
        invariant UpsertAll(r, news[i..], MountName) == UpsertAll(items, news, MountName)
      {
        FirstMatch(r, news[i], ByVolumeMountName, MountName);
        r := Upsert(r, news[i], ByVolumeMountName);
        assert news[i..][1..] == news[i + 1..];
      }
    }

    // -------------------------------------------------------------- validators

    method ContainsContainer(items: seq<Container>, item: Container, at: Location) returns (e: Option<FieldError>)
      ensures e == CheckItem(items, item, ContainerName, ContainerDerives, at)
    {
      hide ContainerDerives;
      FirstMatch(items, item, ByContainerName, ContainerName);
      e := Contains(items, item, ByContainerName, ContainerDerives, at);
    }

    method ContainsVolume(items: seq<Volume>, item: Volume, at: Location) returns (e: Option<FieldError>)
      ensures e == CheckItem(items, item, VolumeName, VolumeDerives, at)
    {
      hide VolumeDerives;
      FirstMatch(items, item, ByVolumeName, VolumeName);
      e := Contains(items, item, ByVolumeName, VolumeDerives, at);
    }

    method ContainsEnvVar(items: seq<EnvVar>, item: EnvVar, at: Location) returns (e: Option<FieldError>)
      ensures e == CheckItem(items, item, EnvName, EnvVarDerives, at)
    {
      hide EnvVarDerives;
      FirstMatch(items, item, ByEnvVarName, EnvName);
      e := Contains(items, item, ByEnvVarName, EnvVarDerives, at);
    }

    method ValidateIngress(c: RayCluster) returns (errors: seq<FieldError>)
      ensures forall j :: AllApply(j, c, [IngressSite]) ==> errors == Errors(j, c, [IngressSite])
    {
      errors := [];
      if c.head.enableIngress.GetOr(false) {
        errors := errors + [FieldError(Invalid, EnableIngress)];
      }
    }

    method ValidateOAuth(j: Injection, c: RayCluster) returns (errors: seq<FieldError>)
      requires j.oauth.Some? && AllApply(j, c, OAuthSites(j))
      ensures errors == Errors(j, c, OAuthSites(j))
    {
      hide CheckItem, ContainerDerives, VolumeDerives, EnvVarDerives;
      var p, t := j.oauth.value, c.head.template;
      var e := ContainsContainer(t.containers, p.container, HeadContainers);
      errors := Listed(e);
      e := ContainsVolume(t.volumes, p.volume, HeadProxyVolumes);
      errors := errors + Listed(e);
      if t.serviceAccountName != p.account {
        errors := errors + [FieldError(Invalid, HeadAccount)];
      }
      Peel(j, c, ProxySite, [ProxyVolumeSite, AccountSite]);
      Peel(j, c, ProxyVolumeSite, [AccountSite]);
      Peel(j, c, AccountSite, []);
      assert OAuthSites(j) == [ProxySite] + [ProxyVolumeSite, AccountSite];
      assert [ProxyVolumeSite, AccountSite] == [ProxyVolumeSite] + [AccountSite];
      assert [AccountSite] == [AccountSite] + [];
    }

    method ValidateHeadInitContainer(j: Injection, c: RayCluster) returns (errors: seq<FieldError>)
      requires j.mtls.Some? && AllApply(j, c, [HeadInitSite])
      ensures errors == Errors(j, c, [HeadInitSite])
    {
      hide CheckItem, ContainerDerives, VolumeDerives, EnvVarDerives;
      var e := ContainsContainer(c.head.template.initContainers, j.mtls.value.headInit, HeadInits);
      errors := Listed(e);
    }

    method ValidateWorkerInitContainer(j: Injection, c: RayCluster) returns (errors: seq<FieldError>)
      requires j.mtls.Some?
      ensures AllApply(j, c, WorkerInitSites(0, |c.workers|))
      ensures errors == Errors(j, c, WorkerInitSites(0, |c.workers|))
    {
      hide CheckItem, ContainerDerives, VolumeDerives, EnvVarDerives, ErrorAt, Applies, AllApply;
      hide WorkerInitSites, HeadEnvSites, GroupEnvSites, WorkerVolumeSites, Errors, Listed;
      errors := [];
      ghost var n := |c.workers|;
      WorkerInitAll(j, c);
      for i := 0 to |c.workers|
        invariant AllApply(j, c, WorkerInitSites(0, n)) && AllApply(j, c, WorkerInitSites(i, n))
        invariant errors + Errors(j, c, WorkerInitSites(i, n)) == Errors(j, c, WorkerInitSites(0, n))
      {
        WorkerInitStep(j, c, i);
        var e := ContainsContainer(c.workers[i].template.initContainers, j.mtls.value.workerInit, WorkerInits(i));
        Associate(errors, Listed(e), Errors(j, c, WorkerInitSites(i + 1, n)));
        errors := errors + Listed(e);
      }
    }

    method ValidateHeadEnvVars(j: Injection, c: RayCluster) returns (errors: seq<FieldError>)
      requires j.mtls.Some? && c.head.template.containers != []
      ensures AllApply(j, c, HeadEnvSites(0, |j.mtls.value.env|))
      ensures errors == Errors(j, c, HeadEnvSites(0, |j.mtls.value.env|))
    {
      hide CheckItem, ContainerDerives, VolumeDerives, EnvVarDerives, ErrorAt, Applies, AllApply;
      hide WorkerInitSites, HeadEnvSites, GroupEnvSites, WorkerVolumeSites, Errors, Listed;
      errors := [];
      var envs := j.mtls.value.env;
      HeadEnvAll(j, c);
      for e := 0 to |envs|
        invariant AllApply(j, c, HeadEnvSites(0, |envs|)) && AllApply(j, c, HeadEnvSites(e, |envs|))
        invariant errors + Errors(j, c, HeadEnvSites(e, |envs|)) == Errors(j, c, HeadEnvSites(0, |envs|))
      {
        HeadEnvStep(j, c, e);
        var err := ContainsEnvVar(c.head.template.containers[0].env, envs[e], HeadEnv);
        Associate(errors, Listed(err), Errors(j, c, HeadEnvSites(e + 1, |envs|)));
        errors := errors + Listed(err);
      }
    }

    method ValidateWorkerEnvVars(j: Injection, c: RayCluster) returns (errors: seq<FieldError>)
      requires j.mtls.Some? && WorkersIndexable(c)
      ensures AllApply(j, c, WorkerEnvSites(0, |c.workers|, |j.mtls.value.env|))
      ensures errors == Errors(j, c, WorkerEnvSites(0, |c.workers|, |j.mtls.value.env|))
    {
      hide ErrorAt, Applies, AllApply, Errors, WorkerEnvSites, GroupEnvSites;
      errors := [];
      ghost var n, m := |c.workers|, |j.mtls.value.env|;
      WorkerEnvAll(j, c);
      for i := 0 to |c.workers|
        invariant AllApply(j, c, WorkerEnvSites(0, n, m)) && AllApply(j, c, WorkerEnvSites(i, n, m))
        invariant errors + Errors(j, c, WorkerEnvSites(i, n, m)) == Errors(j, c, WorkerEnvSites(0, n, m))
      {
        WorkerEnvStep(j, c, i);
        var es := ValidateGroupEnvVars(j, c, i);
        Associate(errors, es, Errors(j, c, WorkerEnvSites(i + 1, n, m)));
        errors := errors + es;
      }
    }

    method ValidateGroupEnvVars(j: Injection, c: RayCluster, i: nat) returns (errors: seq<FieldError>)
      requires j.mtls.Some? && i < |c.workers| && c.workers[i].template.containers != []
      ensures AllApply(j, c, GroupEnvSites(i, 0, |j.mtls.value.env|))
      ensures errors == Errors(j, c, GroupEnvSites(i, 0, |j.mtls.value.env|))
    {
      hide CheckItem, ContainerDerives, VolumeDerives, EnvVarDerives, ErrorAt, Applies, AllApply;
      hide WorkerInitSites, HeadEnvSites, GroupEnvSites, WorkerVolumeSites, Errors, Listed;
      errors := [];
      var envs := j.mtls.value.env;
      GroupEnvAll(j, c, i);
      for e := 0 to |envs|
        invariant AllApply(j, c, GroupEnvSites(i, 0, |envs|)) && AllApply(j, c, GroupEnvSites(i, e, |envs|))
        invariant errors + Errors(j, c, GroupEnvSites(i, e, |envs|)) == Errors(j, c, GroupEnvSites(i, 0, |envs|))
      {
        GroupEnvStep(j, c, i, e);
        var err := ContainsEnvVar(c.workers[i].template.containers[0].env, envs[e], WorkerEnv(i));
        Associate(errors, Listed(err), Errors(j, c, GroupEnvSites(i, e + 1, |envs|)));
        errors := errors + Listed(err);
      }
    }

    method ValidateCaVolumes(j: Injection, c: RayCluster) returns (errors: seq<FieldError>)
      requires j.mtls.Some?
      ensures AllApply(j, c, VolumeSites(0, |j.mtls.value.volumes|, |c.workers|))
      ensures errors == Errors(j, c, VolumeSites(0, |j.mtls.value.volumes|, |c.workers|))
    {
      hide CheckItem, ContainerDerives, VolumeDerives, EnvVarDerives, ErrorAt, Applies, AllApply;
      hide VolumeSites, WorkerVolumeSites, Errors;
      errors := [];
      var vols := j.mtls.value.volumes;
      ghost var n := |c.workers|;
      VolumeAll(j, c);
      VolumeEnd(j, c);
      for v := 0 to |vols|
        invariant AllApply(j, c, VolumeSites(0, |vols|, n)) && AllApply(j, c, VolumeSites(v, |vols|, n))
        invariant errors + Errors(j, c, VolumeSites(v, |vols|, n)) == Errors(j, c, VolumeSites(0, |vols|, n))
      {
        VolumeStep(j, c, v);
        var e := ContainsVolume(c.head.template.volumes, vols[v], HeadCaVolumes);
        var es := ValidateWorkerVolume(j, c, v);
        errors := errors + Listed(e) + es;
      }
    }

    method ValidateWorkerVolume(j: Injection, c: RayCluster, v: nat) returns (errors: seq<FieldError>)
      requires j.mtls.Some? && v < |j.mtls.value.volumes|
      ensures AllApply(j, c, WorkerVolumeSites(0, |c.workers|, v))
      ensures errors == Errors(j, c, WorkerVolumeSites(0, |c.workers|, v))
    {
      hide CheckItem, ContainerDerives, VolumeDerives, EnvVarDerives, ErrorAt, Applies, AllApply;
      hide WorkerInitSites, HeadEnvSites, GroupEnvSites, WorkerVolumeSites, Errors, Listed;
      errors := [];
      ghost var n := |c.workers|;
      WorkerVolumeAll(j, c, v);
      for i := 0 to |c.workers|
        invariant AllApply(j, c, WorkerVolumeSites(0, n, v)) && AllApply(j, c, WorkerVolumeSites(i, n, v))
        invariant errors + Errors(j, c, WorkerVolumeSites(i, n, v)) == Errors(j, c, WorkerVolumeSites(0, n, v))
      {
        WorkerVolumeStep(j, c, i, v);
        var e := ContainsVolume(c.workers[i].template.volumes, j.mtls.value.volumes[v], WorkerCaVolumes(i));
        Associate(errors, Listed(e), Errors(j, c, WorkerVolumeSites(i + 1, n, v)));
        errors := errors + Listed(e);
      }
    }

    /** The errors of a creation request, one for each violated check, in order. */
    method ValidateCreate(c: RayCluster) returns (errors: seq<FieldError>)
      ensures errors == CreateErrors(ExpectedItems(settings, c), c)
    {
      var j := ExpectedItems(settings, c);
      errors := ValidateCreateWith(j, c);
    }

    method ValidateCreateWith(j: Injection, c: RayCluster) returns (errors: seq<FieldError>)
      ensures errors == CreateErrors(j, c)
    {
      UpdateSitesExact(j, c);
      errors := ValidateIngress(c);
      assert AllApply(j, c, [IngressSite]) && AllApply(j, c, OAuthSites(j));
      ErrorsConcat(j, c, [IngressSite], OAuthSites(j));
      if j.oauth.Some? {
        var es := ValidateOAuth(j, c);
        errors := errors + es;
      }
    }

    /** The errors of an update request; a panic on a missing first container rejects it. */
    method ValidateUpdate(c: RayCluster) returns (result: Option<seq<FieldError>>)
      ensures result == UpdateErrors(ExpectedItems(settings, c), c)
    {
      hide ErrorAt, InjectionFor;
      if c.meta.deleting {
        return Some([]);
      }
      var j := ExpectedItems(settings, c);
      var errors := ValidateCreateWith(j, c);
      if j.mtls.None? {
        ConcatUpdate(j, c);
        assert TlsSites(j, c) == [];
        assert errors + [] == errors;
        return Some(errors);
      }
      if c.head.template.containers == [] || exists w | w in c.workers :: w.template.containers == [] {
        return None;
      }
      assert Indexable(j, c);
      var es := ValidateTls(j, c);
      ConcatUpdate(j, c);
      return Some(errors + es);
    }

    method ValidateTls(j: Injection, c: RayCluster) returns (errors: seq<FieldError>)
      requires j.mtls.Some? && Indexable(j, c)
      ensures AllApply(j, c, TlsSites(j, c)) && errors == Errors(j, c, TlsSites(j, c))
    {
      hide ErrorAt;
      var a := ValidateHeadInitContainer(j, c);
      var b := ValidateWorkerInitContainer(j, c);
      var d := ValidateHeadEnvVars(j, c);
      var e := ValidateWorkerEnvVars(j, c);
      var f := ValidateCaVolumes(j, c);
      ghost var n, m, k := |c.workers|, |j.mtls.value.env|, |j.mtls.value.volumes|;
      ghost var s1 := [HeadInitSite];
      ErrorsConcat(j, c, s1, WorkerInitSites(0, n));
      ghost var s2 := s1 + WorkerInitSites(0, n);
      ErrorsConcat(j, c, s2, HeadEnvSites(0, m));
      ghost var s3 := s2 + HeadEnvSites(0, m);
      ErrorsConcat(j, c, s3, WorkerEnvSites(0, n, m));
      ErrorsConcat(j, c, s3 + WorkerEnvSites(0, n, m), VolumeSites(0, k, n));
      errors := a + b + d + e + f;
    }
  }

  function Listed(e: Option<FieldError>): seq<FieldError> {
    if e.Some? then [e.value] else []
  }

  lemma ProxyNonempty(j: Injection, t: PodSpec)
    ensures j.oauth.Some? ==> HeadStage(j, t).containers != []
  {
  }

  // Cutting the first site off a list of sites, for each of the loops.

  lemma Peel(j: Injection, c: RayCluster, site: Site, rest: seq<Site>)
    requires Applies(j, c, site) && Readable(c, site)
    requires AllApply(j, c, rest)
    ensures AllApply(j, c, [site] + rest)
    ensures Errors(j, c, [site] + rest) == Listed(ErrorAt(j, c, site)) + Errors(j, c, rest)
  {
    hide ErrorAt, Applies, Readable;
    assert ([site] + rest)[1..] == rest;
    forall i | 0 <= i < |[site] + rest|
      ensures Applies(j, c, ([site] + rest)[i]) && Readable(c, ([site] + rest)[i])
    {
      if i > 0 { assert ([site] + rest)[i] == rest[i - 1]; }
    }
  }

  lemma Associate(a: seq<FieldError>, b: seq<FieldError>, c: seq<FieldError>)
    ensures (a + b) + c == a + (b + c)
  {
  }

  lemma WorkerInitAll(j: Injection, c: RayCluster)
    requires j.mtls.Some?
    ensures AllApply(j, c, WorkerInitSites(0, |c.workers|))
    ensures AllApply(j, c, WorkerInitSites(|c.workers|, |c.workers|))
        && Errors(j, c, WorkerInitSites(|c.workers|, |c.workers|)) == []
  {
    WorkerInitSitesExact(0, |c.workers|);
  }

  lemma HeadEnvAll(j: Injection, c: RayCluster)
    requires j.mtls.Some? && c.head.template.containers != []
    ensures AllApply(j, c, HeadEnvSites(0, |j.mtls.value.env|))
    ensures AllApply(j, c, HeadEnvSites(|j.mtls.value.env|, |j.mtls.value.env|))
        && Errors(j, c, HeadEnvSites(|j.mtls.value.env|, |j.mtls.value.env|)) == []
  {
    HeadEnvSitesExact(0, |j.mtls.value.env|);
  }

  lemma GroupEnvAll(j: Injection, c: RayCluster, i: nat)
    requires j.mtls.Some? && i < |c.workers| && c.workers[i].template.containers != []
    ensures AllApply(j, c, GroupEnvSites(i, 0, |j.mtls.value.env|))
    ensures AllApply(j, c, GroupEnvSites(i, |j.mtls.value.env|, |j.mtls.value.env|))
        && Errors(j, c, GroupEnvSites(i, |j.mtls.value.env|, |j.mtls.value.env|)) == []
  {
    GroupEnvSitesExact(i, 0, |j.mtls.value.env|);
  }

  lemma WorkerVolumeAll(j: Injection, c: RayCluster, v: nat)
    requires j.mtls.Some? && v < |j.mtls.value.volumes|
    ensures AllApply(j, c, WorkerVolumeSites(0, |c.workers|, v))
    ensures AllApply(j, c, WorkerVolumeSites(|c.workers|, |c.workers|, v))
        && Errors(j, c, WorkerVolumeSites(|c.workers|, |c.workers|, v)) == []
  {
    WorkerVolumeSitesExact(0, |c.workers|, v);
  }

  lemma VolumeAll(j: Injection, c: RayCluster)
    requires j.mtls.Some?
    ensures AllApply(j, c, VolumeSites(0, |j.mtls.value.volumes|, |c.workers|))
  {
    VolumeSitesExact(0, |j.mtls.value.volumes|, |c.workers|);
  }

  lemma VolumeEnd(j: Injection, c: RayCluster)
    requires j.mtls.Some?
    ensures var m := |j.mtls.value.volumes|;
            AllApply(j, c, VolumeSites(m, m, |c.workers|)) && Errors(j, c, VolumeSites(m, m, |c.workers|)) == []
  {
  }

  lemma WorkerInitStep(j: Injection, c: RayCluster, i: nat)
    requires j.mtls.Some? && i < |c.workers|
    ensures var n := |c.workers|;
            && AllApply(j, c, WorkerInitSites(i, n)) && AllApply(j, c, WorkerInitSites(i + 1, n))
            && Errors(j, c, WorkerInitSites(i, n)) ==
               Listed(CheckItem(c.workers[i].template.initContainers, j.mtls.value.workerInit,
                                ContainerName, ContainerDerives, WorkerInits(i)))
               + Errors(j, c, WorkerInitSites(i + 1, n))
  {
    hide CheckItem, ContainerDerives;
    WorkerInitSitesExact(i + 1, |c.workers|);
    Peel(j, c, WorkerInitSite(i), WorkerInitSites(i + 1, |c.workers|));
  }

  lemma HeadEnvStep(j: Injection, c: RayCluster, e: nat)
    requires j.mtls.Some? && c.head.template.containers != [] && e < |j.mtls.value.env|
    ensures var m := |j.mtls.value.env|;
            && AllApply(j, c, HeadEnvSites(e, m)) && AllApply(j, c, HeadEnvSites(e + 1, m))
            && Errors(j, c, HeadEnvSites(e, m)) ==
               Listed(CheckItem(c.head.template.containers[0].env, j.mtls.value.env[e],
                                EnvName, EnvVarDerives, HeadEnv))
               + Errors(j, c, HeadEnvSites(e + 1, m))
  {
    hide CheckItem, EnvVarDerives;
    HeadEnvSitesExact(e + 1, |j.mtls.value.env|);
    Peel(j, c, HeadEnvSite(e), HeadEnvSites(e + 1, |j.mtls.value.env|));
  }

  lemma GroupEnvStep(j: Injection, c: RayCluster, i: nat, e: nat)
    requires j.mtls.Some? && i < |c.workers| && c.workers[i].template.containers != [] && e < |j.mtls.value.env|
    ensures var m := |j.mtls.value.env|;
            && AllApply(j, c, GroupEnvSites(i, e, m)) && AllApply(j, c, GroupEnvSites(i, e + 1, m))
            && Errors(j, c, GroupEnvSites(i, e, m)) ==
               Listed(CheckItem(c.workers[i].template.containers[0].env, j.mtls.value.env[e],
                                EnvName, EnvVarDerives, WorkerEnv(i)))
               + Errors(j, c, GroupEnvSites(i, e + 1, m))
  {
    hide CheckItem, EnvVarDerives;
    GroupEnvSitesExact(i, e + 1, |j.mtls.value.env|);
    Peel(j, c, WorkerEnvSite(i, e), GroupEnvSites(i, e + 1, |j.mtls.value.env|));
  }

  lemma WorkerEnvAll(j: Injection, c: RayCluster)
    requires j.mtls.Some? && WorkersIndexable(c)
    ensures var n, m := |c.workers|, |j.mtls.value.env|;
            && AllApply(j, c, WorkerEnvSites(0, n, m))
            && AllApply(j, c, WorkerEnvSites(n, n, m)) && Errors(j, c, WorkerEnvSites(n, n, m)) == []
  {
    WorkerEnvSitesExact(0, |c.workers|, |j.mtls.value.env|);
  }

  lemma WorkerEnvStep(j: Injection, c: RayCluster, i: nat)
    requires j.mtls.Some? && WorkersIndexable(c) && i < |c.workers|
    ensures var n, m := |c.workers|, |j.mtls.value.env|;
            && AllApply(j, c, WorkerEnvSites(i, n, m)) && AllApply(j, c, WorkerEnvSites(i + 1, n, m))
            && AllApply(j, c, GroupEnvSites(i, 0, m))
            && Errors(j, c, WorkerEnvSites(i, n, m)) ==
               Errors(j, c, GroupEnvSites(i, 0, m)) + Errors(j, c, WorkerEnvSites(i + 1, n, m))
  {
    hide ErrorAt;
    var n, m := |c.workers|, |j.mtls.value.env|;
    GroupEnvSitesExact(i, 0, m);
    WorkerEnvSitesExact(i + 1, n, m);
    ErrorsConcat(j, c, GroupEnvSites(i, 0, m), WorkerEnvSites(i + 1, n, m));
  }

  lemma WorkerVolumeStep(j: Injection, c: RayCluster, i: nat, v: nat)
    requires j.mtls.Some? && i < |c.workers| && v < |j.mtls.value.volumes|
    ensures var n := |c.workers|;
            && AllApply(j, c, WorkerVolumeSites(i, n, v)) && AllApply(j, c, WorkerVolumeSites(i + 1, n, v))
            && Errors(j, c, WorkerVolumeSites(i, n, v)) ==
               Listed(CheckItem(c.workers[i].template.volumes, j.mtls.value.volumes[v],
                                VolumeName, VolumeDerives, WorkerCaVolumes(i)))
               + Errors(j, c, WorkerVolumeSites(i + 1, n, v))
  {
    hide CheckItem, VolumeDerives;
    WorkerVolumeSitesExact(i + 1, |c.workers|, v);
    Peel(j, c, WorkerVolumeSite(i, v), WorkerVolumeSites(i + 1, |c.workers|, v));
  }

  lemma VolumeStep(j: Injection, c: RayCluster, v: nat)
    requires j.mtls.Some? && v < |j.mtls.value.volumes|
    ensures var n, m := |c.workers|, |j.mtls.value.volumes|;
            && AllApply(j, c, VolumeSites(v, m, n)) && AllApply(j, c, VolumeSites(v + 1, m, n))
            && AllApply(j, c, WorkerVolumeSites(0, n, v))
            && Errors(j, c, VolumeSites(v, m, n)) ==
               Listed(CheckItem(c.head.template.volumes, j.mtls.value.volumes[v],
                                VolumeName, VolumeDerives, HeadCaVolumes))
               + Errors(j, c, WorkerVolumeSites(0, n, v))
               + Errors(j, c, VolumeSites(v + 1, m, n))
  {
    hide CheckItem, VolumeDerives, Errors, ErrorAt, Listed, WorkerVolumeSites;
    var n, m := |c.workers|, |j.mtls.value.volumes|;
    WorkerVolumeSitesExact(0, n, v);
    VolumeSitesExact(v + 1, m, n);
    HeadVolumeVerdict(j, c, v);
    Peel(j, c, HeadVolumeSite(v), WorkerVolumeSites(0, n, v));
    ErrorsConcat(j, c, [HeadVolumeSite(v)] + WorkerVolumeSites(0, n, v), VolumeSites(v + 1, m, n));
  }

  lemma HeadVolumeVerdict(j: Injection, c: RayCluster, v: nat)
    requires j.mtls.Some? && v < |j.mtls.value.volumes|
    ensures ErrorAt(j, c, HeadVolumeSite(v)) ==
            CheckItem(c.head.template.volumes, j.mtls.value.volumes[v], VolumeName, VolumeDerives, HeadCaVolumes)
  {
  }

  lemma ConcatUpdate(j: Injection, c: RayCluster)
    requires Indexable(j, c)
    ensures AllApply(j, c, UpdateSites(j, c)) && AllApply(j, c, CreateSites(j)) && AllApply(j, c, TlsSites(j, c))
    ensures Errors(j, c, UpdateSites(j, c)) == Errors(j, c, CreateSites(j)) + Errors(j, c, TlsSites(j, c))
  {
    UpdateSitesExact(j, c);
    ErrorsConcat(j, c, CreateSites(j), TlsSites(j, c));
  }

  function CreateErrors(j: Injection, c: RayCluster): seq<FieldError> {
    UpdateSitesExact(j, c);
    Errors(j, c, CreateSites(j))
  }

  function UpdateErrors(j: Injection, c: RayCluster): Option<seq<FieldError>> {
    if c.meta.deleting then Some([])
    else if !Indexable(j, c) then None
    else
      UpdateSitesExact(j, c);
      Some(Errors(j, c, UpdateSites(j, c)))
  }

  // The comparison predicates handed to the list helpers.

  function ByContainerName(a: Container, b: Container): bool { a.name == b.name }
  function ByVolumeName(a: Volume, b: Volume): bool { a.name == b.name }
  function ByVolumeMountName(a: VolumeMount, b: VolumeMount): bool { a.name == b.name }
  function ByEnvVarName(a: EnvVar, b: EnvVar): bool { a.name == b.name }

  function WithContainerName(name: string): (Container, Container) -> bool {
    (a: Container, b: Container) => a.name == name
  }
  function WithVolumeName(name: string): (Volume, Volume) -> bool { (a: Volume, b: Volume) => a.name == name }
  function WithEnvVarName(name: string): (EnvVar, EnvVar) -> bool { (a: EnvVar, b: EnvVar) => a.name == name }
}
