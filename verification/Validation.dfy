/** What the validating webhook checks, site by site, and that the mutating webhook satisfies it. */
module Validation {
  import opened Wrappers
  import opened Kube
  import opened Items
  import opened Support
  import opened Derivative
  import opened Defaulting

  /** The field path an error is reported at. */
  function Path(at: Location): seq<string> {
    var headSpec := ["spec", "headGroupSpec", "template", "spec"];
    match at
    case EnableIngress => ["spec", "headGroupSpec", "enableIngress"]
    case HeadAccount => headSpec + ["serviceAccountName"]
    case HeadContainers => headSpec + ["containers"]
    case HeadProxyVolumes => headSpec + ["volumes"]
    case HeadInits => headSpec + ["initContainers"]
    case HeadEnv => headSpec + ["containers", "0", "env"]
    case HeadCaVolumes => headSpec + ["volumes"]
    case WorkerInits(i) => WorkerPath(i) + ["initContainers"]
    case WorkerEnv(i) => WorkerPath(i) + ["containers", "0", "env"]
    case WorkerCaVolumes(i) => WorkerPath(i) + ["volumes"]
  }

  function WorkerPath(i: nat): seq<string> {
    ["spec", "workerGroupSpecs", Decimal(i), "template", "spec"]
  }

  function Decimal(n: nat): string {
    (if n < 10 then "" else Decimal(n / 10)) + [('0' as int + n % 10) as char]
  }

  lemma {:induction false} DecimalInjective(m: nat, n: nat)
    ensures Decimal(m) == Decimal(n) <==> m == n
    decreases m
  {
    if Decimal(m) == Decimal(n) {
      var k := |Decimal(m)| - 1;
      assert Decimal(m)[k] == ('0' as int + m % 10) as char && Decimal(n)[k] == ('0' as int + n % 10) as char;
      assert Decimal(m)[..k] == (if m < 10 then "" else Decimal(m / 10));
      assert Decimal(n)[..k] == (if n < 10 then "" else Decimal(n / 10));
      DecimalNonempty(m / 10);
      DecimalNonempty(n / 10);
      if m >= 10 { DecimalInjective(m / 10, n / 10); }
    }
  }

  lemma DecimalNonempty(n: nat)
    ensures |Decimal(n)| > 0
  {
  }

  /** The length of a path, the length of its last element, and the worker group it goes through. */
  function Shape(at: Location): (nat, nat, nat) {
    match at
    case EnableIngress => (3, 13, 0)
    case HeadAccount => (5, 18, 0)
    case HeadContainers => (5, 10, 0)
    case HeadProxyVolumes => (5, 7, 0)
    case HeadInits => (5, 14, 0)
    case HeadEnv => (7, 3, 0)
    case HeadCaVolumes => (5, 7, 0)
    case WorkerInits(i) => (6, 14, i)
    case WorkerEnv(i) => (8, 3, i)
    case WorkerCaVolumes(i) => (6, 7, i)
  }

  predicate InWorker(at: Location) {
    at.WorkerInits? || at.WorkerEnv? || at.WorkerCaVolumes?
  }

  lemma PathShape(at: Location)
    ensures var p := Path(at);
            && |p| == Shape(at).0 && |p[|p| - 1]| == Shape(at).1
            && (InWorker(at) ==> p[2] == Decimal(Shape(at).2))
  {
    hide Decimal;
  }

  /** A path identifies its location, but that the proxy's and the CA volumes share the head's list. */
  lemma PathIdentifies(a: Location, b: Location)
    ensures Path(a) == Path(b) <==>
            a == b || (a in {HeadProxyVolumes, HeadCaVolumes} && b in {HeadProxyVolumes, HeadCaVolumes})
  {
    hide Decimal;
    PathShape(a);
    PathShape(b);
    DecimalInjective(Shape(a).2, Shape(b).2);
    if Path(a) == Path(b) { hide Path; }
  }

  /** One check: a place in the cluster and, for lists, the injected item expected there. */
  datatype Site =
    | IngressSite | ProxySite | ProxyVolumeSite | AccountSite
    | HeadInitSite | WorkerInitSite(group: nat)
    | HeadEnvSite(item: nat) | WorkerEnvSite(group: nat, item: nat)
    | HeadVolumeSite(item: nat) | WorkerVolumeSite(group: nat, item: nat)

  /** The checks made on creation too; they index no list. */
  predicate Basic(site: Site) {
    site.IngressSite? || site.ProxySite? || site.ProxyVolumeSite? || site.AccountSite?
  }

  /** Which checks a cluster is subject to on update. */
  predicate Applies(j: Injection, c: RayCluster, site: Site) {
    match site
    case IngressSite => true
    case ProxySite => j.oauth.Some?
    case ProxyVolumeSite => j.oauth.Some?
    case AccountSite => j.oauth.Some?
    case HeadInitSite => j.mtls.Some?
    case WorkerInitSite(i) => j.mtls.Some? && i < |c.workers|
    case HeadEnvSite(e) => j.mtls.Some? && e < |j.mtls.value.env|
    case WorkerEnvSite(i, e) => j.mtls.Some? && i < |c.workers| && e < |j.mtls.value.env|
    case HeadVolumeSite(v) => j.mtls.Some? && v < |j.mtls.value.volumes|
    case WorkerVolumeSite(i, v) => j.mtls.Some? && i < |c.workers| && v < |j.mtls.value.volumes|
  }

  /** Indexing the first container must not panic. */
  predicate Indexable(j: Injection, c: RayCluster) {
    j.mtls.Some? ==>
      c.head.template.containers != [] && WorkersIndexable(c)
  }

  predicate WorkersIndexable(c: RayCluster) {
    forall i | 0 <= i < |c.workers| :: c.workers[i].template.containers != []
  }

  /** The one container that the check at this site indexes is there. */
  predicate Readable(c: RayCluster, site: Site) {
    match site
    case HeadEnvSite(_) => c.head.template.containers != []
    case WorkerEnvSite(i, _) => i < |c.workers| && c.workers[i].template.containers != []
    case _ => true
  }

  // ---------------------------------------------------------------- the verdict at one site

  function ErrorAt(j: Injection, c: RayCluster, site: Site): Option<FieldError>
    requires Applies(j, c, site) && Readable(c, site)
  {
    var t := c.head.template;
    match site
    case IngressSite =>
      if c.head.enableIngress.GetOr(false) then Some(FieldError(Invalid, EnableIngress)) else None
    case ProxySite => CheckItem(t.containers, j.oauth.value.container, ContainerName, ContainerDerives, HeadContainers)
    case ProxyVolumeSite => CheckItem(t.volumes, j.oauth.value.volume, VolumeName, VolumeDerives, HeadProxyVolumes)
    case AccountSite =>
      if t.serviceAccountName != j.oauth.value.account then Some(FieldError(Invalid, HeadAccount)) else None
    case HeadInitSite => CheckItem(t.initContainers, j.mtls.value.headInit, ContainerName, ContainerDerives, HeadInits)
    case WorkerInitSite(i) =>
      CheckItem(c.workers[i].template.initContainers, j.mtls.value.workerInit,
                ContainerName, ContainerDerives, WorkerInits(i))
    case HeadEnvSite(e) => CheckItem(t.containers[0].env, j.mtls.value.env[e], EnvName, EnvVarDerives, HeadEnv)
    case WorkerEnvSite(i, e) =>
      CheckItem(c.workers[i].template.containers[0].env, j.mtls.value.env[e], EnvName, EnvVarDerives, WorkerEnv(i))
    case HeadVolumeSite(v) => CheckItem(t.volumes, j.mtls.value.volumes[v], VolumeName, VolumeDerives, HeadCaVolumes)
    case WorkerVolumeSite(i, v) =>
      CheckItem(c.workers[i].template.volumes, j.mtls.value.volumes[v], VolumeName, VolumeDerives, WorkerCaVolumes(i))
  }

  /** The declarative requirement at one site: the first entry with the expected name is compatible
      with the expected item. */
  ghost predicate Satisfied(j: Injection, c: RayCluster, site: Site)
    requires Applies(j, c, site) && Readable(c, site)
  {
    var t := c.head.template;
    match site
    case IngressSite => c.head.enableIngress != Some(true)
    case ProxySite => FirstDerives(t.containers, j.oauth.value.container, ContainerName, ContainerDerives)
    case ProxyVolumeSite => FirstDerives(t.volumes, j.oauth.value.volume, VolumeName, VolumeDerives)
    case AccountSite => t.serviceAccountName == j.oauth.value.account
    case HeadInitSite => FirstDerives(t.initContainers, j.mtls.value.headInit, ContainerName, ContainerDerives)
    case WorkerInitSite(i) =>
      FirstDerives(c.workers[i].template.initContainers, j.mtls.value.workerInit, ContainerName, ContainerDerives)
    case HeadEnvSite(e) => FirstDerives(t.containers[0].env, j.mtls.value.env[e], EnvName, EnvVarDerives)
    case WorkerEnvSite(i, e) =>
      FirstDerives(c.workers[i].template.containers[0].env, j.mtls.value.env[e], EnvName, EnvVarDerives)
    case HeadVolumeSite(v) => FirstDerives(t.volumes, j.mtls.value.volumes[v], VolumeName, VolumeDerives)
    case WorkerVolumeSite(i, v) =>
      FirstDerives(c.workers[i].template.volumes, j.mtls.value.volumes[v], VolumeName, VolumeDerives)
  }

  /** No entry has the expected name. Two sites are not lists and report Invalid only. */
  ghost predicate Absent(j: Injection, c: RayCluster, site: Site)
    requires Applies(j, c, site) && Readable(c, site)
  {
    var t := c.head.template;
    match site
    case IngressSite => false
    case ProxySite => Missing(t.containers, j.oauth.value.container, ContainerName)
    case ProxyVolumeSite => Missing(t.volumes, j.oauth.value.volume, VolumeName)
    case AccountSite => false
    case HeadInitSite => Missing(t.initContainers, j.mtls.value.headInit, ContainerName)
    case WorkerInitSite(i) => Missing(c.workers[i].template.initContainers, j.mtls.value.workerInit, ContainerName)
    case HeadEnvSite(e) => Missing(t.containers[0].env, j.mtls.value.env[e], EnvName)
    case WorkerEnvSite(i, e) => Missing(c.workers[i].template.containers[0].env, j.mtls.value.env[e], EnvName)
    case HeadVolumeSite(v) => Missing(t.volumes, j.mtls.value.volumes[v], VolumeName)
    case WorkerVolumeSite(i, v) => Missing(c.workers[i].template.volumes, j.mtls.value.volumes[v], VolumeName)
  }

  function LocationOf(site: Site): Location {
    match site
    case IngressSite => EnableIngress
    case ProxySite => HeadContainers
    case ProxyVolumeSite => HeadProxyVolumes
    case AccountSite => HeadAccount
    case HeadInitSite => HeadInits
    case WorkerInitSite(i) => WorkerInits(i)
    case HeadEnvSite(e) => HeadEnv
    case WorkerEnvSite(i, e) => WorkerEnv(i)
    case HeadVolumeSite(v) => HeadCaVolumes
    case WorkerVolumeSite(i, v) => WorkerCaVolumes(i)
  }

  /** The verdict at a site is None exactly when the requirement holds; otherwise it is Required
      when the name is absent and Invalid when the first entry of that name is incompatible. */
  lemma VerdictExact(j: Injection, c: RayCluster, site: Site)
    requires Applies(j, c, site) && Readable(c, site)
    ensures ErrorAt(j, c, site) ==
            if Satisfied(j, c, site) then None
            else Some(FieldError(if Absent(j, c, site) then Required else Invalid, LocationOf(site)))
  {
    var t := c.head.template;
    var at := LocationOf(site);
    match site
    case IngressSite =>
    case ProxySite => CheckItemExact(t.containers, j.oauth.value.container, ContainerName, ContainerDerives, at);
    case ProxyVolumeSite => CheckItemExact(t.volumes, j.oauth.value.volume, VolumeName, VolumeDerives, at);
    case AccountSite =>
    case HeadInitSite => CheckItemExact(t.initContainers, j.mtls.value.headInit, ContainerName, ContainerDerives, at);
    case WorkerInitSite(i) =>
      CheckItemExact(c.workers[i].template.initContainers, j.mtls.value.workerInit,
                     ContainerName, ContainerDerives, at);
    case HeadEnvSite(e) => CheckItemExact(t.containers[0].env, j.mtls.value.env[e], EnvName, EnvVarDerives, at);
    case WorkerEnvSite(i, e) =>
      CheckItemExact(c.workers[i].template.containers[0].env, j.mtls.value.env[e], EnvName, EnvVarDerives, at);
    case HeadVolumeSite(v) => CheckItemExact(t.volumes, j.mtls.value.volumes[v], VolumeName, VolumeDerives, at);
    case WorkerVolumeSite(i, v) =>
      CheckItemExact(c.workers[i].template.volumes, j.mtls.value.volumes[v], VolumeName, VolumeDerives, at);
  }

  // ---------------------------------------------------------------- the lists of sites

  function OAuthSites(j: Injection): seq<Site> {
    if j.oauth.Some? then [ProxySite, ProxyVolumeSite, AccountSite] else []
  }

  function WorkerInitSites(i: nat, n: nat): seq<Site>
    decreases n - i
  {
    if i >= n then [] else [WorkerInitSite(i)] + WorkerInitSites(i + 1, n)
  }

  function HeadEnvSites(e: nat, m: nat): seq<Site>
    decreases m - e
  {
    if e >= m then [] else [HeadEnvSite(e)] + HeadEnvSites(e + 1, m)
  }

  function GroupEnvSites(i: nat, e: nat, m: nat): seq<Site>
    decreases m - e
  {
    if e >= m then [] else [WorkerEnvSite(i, e)] + GroupEnvSites(i, e + 1, m)
  }

  function WorkerEnvSites(i: nat, n: nat, m: nat): seq<Site>
    decreases n - i
  {
    if i >= n then [] else GroupEnvSites(i, 0, m) + WorkerEnvSites(i + 1, n, m)
  }

  function WorkerVolumeSites(i: nat, n: nat, v: nat): seq<Site>
    decreases n - i
  {
    if i >= n then [] else [WorkerVolumeSite(i, v)] + WorkerVolumeSites(i + 1, n, v)
  }

  function VolumeSites(v: nat, m: nat, n: nat): seq<Site>
    decreases m - v
  {
    if v >= m then [] else [HeadVolumeSite(v)] + WorkerVolumeSites(0, n, v) + VolumeSites(v + 1, m, n)
  }

  function TlsSites(j: Injection, c: RayCluster): seq<Site> {
    if j.mtls.None? then []
    else
      var n, m, k := |c.workers|, |j.mtls.value.env|, |j.mtls.value.volumes|;
      [HeadInitSite] + WorkerInitSites(0, n) + HeadEnvSites(0, m) + WorkerEnvSites(0, n, m) + VolumeSites(0, k, n)
  }

  /** The checks on creation, in the order in which the webhook makes them. */
  function CreateSites(j: Injection): seq<Site> {
    [IngressSite] + OAuthSites(j)
  }

  function UpdateSites(j: Injection, c: RayCluster): seq<Site> {
    CreateSites(j) + TlsSites(j, c)
  }

  ghost predicate AllApply(j: Injection, c: RayCluster, sites: seq<Site>) {
    forall i | 0 <= i < |sites| ::
      Applies(j, c, sites[i])
      && Readable(c, sites[i])
  }

  /** The errors at the given sites, in order, one for each violated site. */
  function Errors(j: Injection, c: RayCluster, sites: seq<Site>): seq<FieldError>
    requires AllApply(j, c, sites)
  {
    if sites == [] then []
    else
      (var e := ErrorAt(j, c, sites[0]); if e.Some? then [e.value] else []) + Errors(j, c, sites[1..])
  }

  lemma {:induction false} ErrorsConcat(j: Injection, c: RayCluster, a: seq<Site>, b: seq<Site>)
    requires AllApply(j, c, a) && AllApply(j, c, b)
    ensures AllApply(j, c, a + b)
    ensures Errors(j, c, a + b) == Errors(j, c, a) + Errors(j, c, b)
  {
    hide ErrorAt, Applies, Readable;
    if a == [] {
      assert a + b == b;
    } else {
      ErrorsConcat(j, c, a[1..], b);
      assert (a + b)[1..] == a[1..] + b;
    }
  }

  // ---------------------------------------------------------------- every site once

  ghost predicate NoDup(sites: seq<Site>) {
    forall i, k | 0 <= i < k < |sites| :: sites[i] != sites[k]
  }

  lemma NoDupConcat(a: seq<Site>, b: seq<Site>)
    requires NoDup(a) && NoDup(b) && forall x | x in a :: x !in b
    ensures NoDup(a + b)
    ensures forall x :: x in a + b <==> x in a || x in b
  {
    forall i, k | 0 <= i < k < |a + b| ensures (a + b)[i] != (a + b)[k] {
      if i < |a| <= k {
        assert (a + b)[i] in a && (a + b)[k] in b;
      }
    }
  }

  lemma {:induction false} WorkerInitSitesExact(i: nat, n: nat)
    ensures forall x :: x in WorkerInitSites(i, n) <==> x.WorkerInitSite? && i <= x.group < n
    ensures NoDup(WorkerInitSites(i, n))
    decreases n - i
  {
    if i < n {
      WorkerInitSitesExact(i + 1, n);
      NoDupConcat([WorkerInitSite(i)], WorkerInitSites(i + 1, n));
    }
  }

  lemma {:induction false} HeadEnvSitesExact(e: nat, m: nat)
    ensures forall x :: x in HeadEnvSites(e, m) <==> x.HeadEnvSite? && e <= x.item < m
    ensures NoDup(HeadEnvSites(e, m))
    decreases m - e
  {
    if e < m {
      HeadEnvSitesExact(e + 1, m);
      NoDupConcat([HeadEnvSite(e)], HeadEnvSites(e + 1, m));
    }
  }

  lemma {:induction false} GroupEnvSitesExact(i: nat, e: nat, m: nat)
    ensures forall x :: x in GroupEnvSites(i, e, m) <==> x.WorkerEnvSite? && x.group == i && e <= x.item < m
    ensures NoDup(GroupEnvSites(i, e, m))
    decreases m - e
  {
    if e < m {
      GroupEnvSitesExact(i, e + 1, m);
      NoDupConcat([WorkerEnvSite(i, e)], GroupEnvSites(i, e + 1, m));
    }
  }

  lemma {:induction false} WorkerEnvSitesExact(i: nat, n: nat, m: nat)
    ensures forall x :: x in WorkerEnvSites(i, n, m) <==> x.WorkerEnvSite? && i <= x.group < n && x.item < m
    ensures NoDup(WorkerEnvSites(i, n, m))
    decreases n - i
  {
    if i < n {
      GroupEnvSitesExact(i, 0, m);
      WorkerEnvSitesExact(i + 1, n, m);
      NoDupConcat(GroupEnvSites(i, 0, m), WorkerEnvSites(i + 1, n, m));
    }
  }

  lemma {:induction false} WorkerVolumeSitesExact(i: nat, n: nat, v: nat)
    ensures forall x :: x in WorkerVolumeSites(i, n, v) <==> x.WorkerVolumeSite? && i <= x.group < n && x.item == v
    ensures NoDup(WorkerVolumeSites(i, n, v))
    decreases n - i
  {
    if i < n {
      WorkerVolumeSitesExact(i + 1, n, v);
      NoDupConcat([WorkerVolumeSite(i, v)], WorkerVolumeSites(i + 1, n, v));
    }
  }

  lemma {:induction false} VolumeSitesExact(v: nat, m: nat, n: nat)
    ensures forall x :: x in VolumeSites(v, m, n) <==>
                          || (x.HeadVolumeSite? && v <= x.item < m)
                          || (x.WorkerVolumeSite? && x.group < n && v <= x.item < m)
    ensures NoDup(VolumeSites(v, m, n))
    decreases m - v
  {
    if v < m {
      var ws := WorkerVolumeSites(0, n, v);
      WorkerVolumeSitesExact(0, n, v);
      VolumeSitesExact(v + 1, m, n);
      NoDupConcat([HeadVolumeSite(v)], ws);
      NoDupConcat([HeadVolumeSite(v)] + ws, VolumeSites(v + 1, m, n));
    }
  }

  lemma TlsSitesExact(j: Injection, c: RayCluster)
    ensures forall x :: x in TlsSites(j, c) <==>
                          Applies(j, c, x) && !Basic(x)
    ensures NoDup(TlsSites(j, c))
  {
    if j.mtls.Some? {
      SitesExact(|c.workers|, |j.mtls.value.env|, |j.mtls.value.volumes|);
    }
  }

  lemma SitesExact(n: nat, m: nat, k: nat)
    ensures var sites := [HeadInitSite] + WorkerInitSites(0, n) + HeadEnvSites(0, m)
                         + WorkerEnvSites(0, n, m) + VolumeSites(0, k, n);
            && NoDup(sites)
            && forall x :: x in sites <==>
                 || x.HeadInitSite?
                 || (x.WorkerInitSite? && x.group < n)
                 || (x.HeadEnvSite? && x.item < m)
                 || (x.WorkerEnvSite? && x.group < n && x.item < m)
                 || (x.HeadVolumeSite? && x.item < k)
                 || (x.WorkerVolumeSite? && x.group < n && x.item < k)
  {
    var a := [HeadInitSite];
    WorkerInitSitesExact(0, n);
    NoDupConcat(a, WorkerInitSites(0, n));
    var b := a + WorkerInitSites(0, n);
    HeadEnvSitesExact(0, m);
    NoDupConcat(b, HeadEnvSites(0, m));
    var d := b + HeadEnvSites(0, m);
    WorkerEnvSitesExact(0, n, m);
    NoDupConcat(d, WorkerEnvSites(0, n, m));
    VolumeSitesExact(0, k, n);
    NoDupConcat(d + WorkerEnvSites(0, n, m), VolumeSites(0, k, n));
  }

  /** The update webhook visits each applicable site exactly once. */
  lemma UpdateSitesExact(j: Injection, c: RayCluster)
    ensures forall x :: x in UpdateSites(j, c) <==> Applies(j, c, x)
    ensures NoDup(UpdateSites(j, c))
    ensures AllApply(j, c, CreateSites(j))
    ensures Indexable(j, c) ==> AllApply(j, c, UpdateSites(j, c)) && AllApply(j, c, TlsSites(j, c))
  {
    TlsSitesExact(j, c);
    NoDupConcat(CreateSites(j), TlsSites(j, c));
  }

  /** The order of the checks: ingress, proxy, init containers, variables, volumes; head before workers,
      but for the volumes, which are checked one by one through head and workers. */
  function Turn(site: Site): nat {
    match site
    case IngressSite => 0
    case ProxySite => 1
    case ProxyVolumeSite => 2
    case AccountSite => 3
    case HeadInitSite => 4
    case WorkerInitSite(_) => 5
    case HeadEnvSite(_) => 6
    case WorkerEnvSite(_, _) => 7
    case HeadVolumeSite(_) => 8
    case WorkerVolumeSite(_, _) => 8
  }

  ghost predicate InTurn(sites: seq<Site>) {
    forall i, k | 0 <= i < k < |sites| :: Turn(sites[i]) <= Turn(sites[k])
  }

  /** In turn, and between two turns. */
  ghost predicate Between(sites: seq<Site>, lo: nat, hi: nat) {
    InTurn(sites) && forall i | 0 <= i < |sites| :: lo <= Turn(sites[i]) <= hi
  }

  lemma BetweenConcat(a: seq<Site>, b: seq<Site>, lo: nat, mid: nat, hi: nat)
    requires lo <= mid <= hi && Between(a, lo, mid) && Between(b, mid, hi)
    ensures Between(a + b, lo, hi)
  {
  }

  lemma SameTurn(sites: seq<Site>, n: nat)
    requires forall x | x in sites :: Turn(x) == n
    ensures Between(sites, n, n)
  {
    assert forall i | 0 <= i < |sites| :: sites[i] in sites;
  }

  lemma TlsInTurn(n: nat, m: nat, v: nat)
    ensures Between([HeadInitSite] + WorkerInitSites(0, n) + HeadEnvSites(0, m) + WorkerEnvSites(0, n, m)
                    + VolumeSites(0, v, n), 4, 8)
  {
    hide WorkerInitSites, HeadEnvSites, WorkerEnvSites, VolumeSites, Between;
    WorkerInitSitesExact(0, n);
    SameTurn(WorkerInitSites(0, n), 5);
    HeadEnvSitesExact(0, m);
    SameTurn(HeadEnvSites(0, m), 6);
    WorkerEnvSitesExact(0, n, m);
    SameTurn(WorkerEnvSites(0, n, m), 7);
    VolumeSitesExact(0, v, n);
    SameTurn(VolumeSites(0, v, n), 8);
    SameTurn([HeadInitSite], 4);
    Widened(WorkerInitSites(0, n), 4, 5);
    BetweenConcat([HeadInitSite], WorkerInitSites(0, n), 4, 4, 5);
    var s1 := [HeadInitSite] + WorkerInitSites(0, n);
    Widened(HeadEnvSites(0, m), 5, 6);
    BetweenConcat(s1, HeadEnvSites(0, m), 4, 5, 6);
    var s2 := s1 + HeadEnvSites(0, m);
    Widened(WorkerEnvSites(0, n, m), 6, 7);
    BetweenConcat(s2, WorkerEnvSites(0, n, m), 4, 6, 7);
    Widened(VolumeSites(0, v, n), 7, 8);
    BetweenConcat(s2 + WorkerEnvSites(0, n, m), VolumeSites(0, v, n), 4, 7, 8);
  }

  lemma Widened(sites: seq<Site>, lo: nat, hi: nat)
    requires Between(sites, hi, hi) && lo <= hi
    ensures Between(sites, lo, hi)
  {
  }

  /** The checks are made, and their errors reported, in that order. */
  lemma ChecksInTurn(j: Injection, c: RayCluster)
    ensures InTurn(UpdateSites(j, c))
  {
    if j.mtls.Some? { TlsInTurn(|c.workers|, |j.mtls.value.env|, |j.mtls.value.volumes|); }
    assert Between(CreateSites(j), 0, 4);
    assert Between(TlsSites(j, c), 4, 8);
    BetweenConcat(CreateSites(j), TlsSites(j, c), 0, 4, 8);
  }

  lemma {:induction false} ErrorsEmpty(j: Injection, c: RayCluster, sites: seq<Site>)
    requires AllApply(j, c, sites)
    ensures Errors(j, c, sites) == [] <==> forall i | 0 <= i < |sites| :: Satisfied(j, c, sites[i])
  {
    if sites != [] {
      VerdictExact(j, c, sites[0]);
      ErrorsEmpty(j, c, sites[1..]);
      assert forall i | 0 <= i < |sites[1..]| :: sites[1..][i] == sites[i + 1];
      if Errors(j, c, sites) == [] {
        forall i | 0 <= i < |sites| ensures Satisfied(j, c, sites[i]) {
          if i > 0 { assert sites[i] == sites[1..][i - 1]; }
        }
      }
    }
  }

  /** The declarative predicate the update webhook decides. */
  ghost predicate Acceptable(j: Injection, c: RayCluster)
    requires Indexable(j, c)
  {
    forall site :: Applies(j, c, site) ==> Satisfied(j, c, site)
  }

  lemma AcceptsExactly(j: Injection, c: RayCluster)
    requires Indexable(j, c)
    ensures AllApply(j, c, UpdateSites(j, c))
    ensures Errors(j, c, UpdateSites(j, c)) == [] <==> Acceptable(j, c)
  {
    var sites := UpdateSites(j, c);
    UpdateSitesExact(j, c);
    ErrorsEmpty(j, c, sites);
    if Errors(j, c, sites) == [] {
      forall site | Applies(j, c, site) ensures Satisfied(j, c, site) {
        assert site in sites;
      }
    }
    assert forall i | 0 <= i < |sites| :: sites[i] in sites;
  }

  /** The sites whose requirement does not hold, in the order they are visited. */
  ghost function Violated(j: Injection, c: RayCluster, sites: seq<Site>): seq<Site>
    requires AllApply(j, c, sites)
  {
    if sites == [] then []
    else
      assert AllApply(j, c, sites[1..]);
      (if Satisfied(j, c, sites[0]) then [] else [sites[0]]) + Violated(j, c, sites[1..])
  }

  /** The error reported for a violated site. */
  ghost predicate Reports(j: Injection, c: RayCluster, site: Site, e: FieldError) {
    && Applies(j, c, site) && Readable(c, site) && !Satisfied(j, c, site)
    && e == FieldError(if Absent(j, c, site) then Required else Invalid, LocationOf(site))
  }

  lemma {:induction false} ViolatedReported(j: Injection, c: RayCluster, sites: seq<Site>)
    requires AllApply(j, c, sites)
    ensures var v, es := Violated(j, c, sites), Errors(j, c, sites);
            |es| == |v| && forall i | 0 <= i < |v| :: Reports(j, c, v[i], es[i])
  {
    hide ErrorAt, Satisfied, Absent, Applies, Readable, LocationOf;
    if sites != [] {
      assert AllApply(j, c, sites[1..]);
      VerdictExact(j, c, sites[0]);
      ViolatedReported(j, c, sites[1..]);
    }
  }

  lemma {:induction false} ViolatedExact(j: Injection, c: RayCluster, sites: seq<Site>)
    requires AllApply(j, c, sites) && NoDup(sites)
    ensures NoDup(Violated(j, c, sites))
    ensures forall x :: x in Violated(j, c, sites) <==> x in sites && !Satisfied(j, c, x)
  {
    hide Satisfied, Applies, Readable;
    if sites != [] {
      assert AllApply(j, c, sites[1..]);
      assert NoDup(sites[1..]) && sites[0] !in sites[1..];
      ViolatedExact(j, c, sites[1..]);
      if !Satisfied(j, c, sites[0]) { NoDupConcat([sites[0]], Violated(j, c, sites[1..])); }
    }
  }

  /** The error list of an update has exactly one entry for each violated pair of location and item:
      Required when the name is absent, Invalid when its first holder is incompatible. */
  lemma OneErrorPerViolation(j: Injection, c: RayCluster)
    requires Indexable(j, c)
    ensures AllApply(j, c, UpdateSites(j, c))
    ensures var v, es := Violated(j, c, UpdateSites(j, c)), Errors(j, c, UpdateSites(j, c));
            && NoDup(v) && (forall site :: site in v <==> Applies(j, c, site) && !Satisfied(j, c, site))
            && |es| == |v| && forall i | 0 <= i < |v| :: Reports(j, c, v[i], es[i])
  {
    hide Satisfied, Indexable, ErrorAt, Readable, UpdateSites;
    UpdateSitesExact(j, c);
    ViolatedReported(j, c, UpdateSites(j, c));
    ViolatedExact(j, c, UpdateSites(j, c));
  }

  // ---------------------------------------------------------------- defaulting satisfies validation

  lemma HeldDerives<T>(items: seq<T>, item: T, key: T -> string, derives: (T, T) -> bool)
    requires Holds(items, item, key) && derives(item, item)
    ensures FirstDerives(items, item, key, derives)
  {
    assert key(items[IndexOf(items, key, key(item))]) == key(item);
  }

  /** The proxy derives from itself even when mutual TLS has extended it as the first container. */
  lemma ProxySatisfied(j: Injection, c: RayCluster)
    requires Coherent(j) && Fits(j, c) && j.oauth.Some?
    ensures var t := Inject(j, c).head.template;
            FirstDerives(t.containers, j.oauth.value.container, ContainerName, ContainerDerives)
            && HoldsProxy(j.oauth.value, t)
  {
    var p := j.oauth.value;
    var t1 := WithProxy(p, c.head.template);
    var t2 := Inject(j, c).head.template;
    UpsertIndex(c.head.template.containers, p.container, ContainerName, p.container.name);
    UpsertIndex(c.head.template.volumes, p.volume, VolumeName, p.volume.name);
    var i := IndexOf(t2.containers, ContainerName, p.container.name);
    if j.mtls.Some? {
      var certs := j.mtls.value;
      ProxyAfterTls(p, certs, certs.headInit, c.head.template);
      UpsertAllAppends(p.container.env, certs.env, EnvName);
      UpsertAllAppends(p.container.volumeMounts, certs.mounts, MountName);
      ContainerExtended(p.container, certs.env, certs.mounts);
    }
    assert ContainerName(t2.containers[i]) == ContainerName(p.container);
  }

  lemma TemplateSatisfied(certs: CertItems, init: Container, t: PodSpec)
    requires HoldsTls(certs, init, t)
    ensures FirstDerives(t.initContainers, init, ContainerName, ContainerDerives)
    ensures forall e | 0 <= e < |certs.env| :: FirstDerives(t.containers[0].env, certs.env[e], EnvName, EnvVarDerives)
    ensures forall v | 0 <= v < |certs.volumes| :: FirstDerives(t.volumes, certs.volumes[v], VolumeName, VolumeDerives)
  {
    HeldDerives(t.initContainers, init, ContainerName, ContainerDerives);
    forall e | 0 <= e < |certs.env|
      ensures FirstDerives(t.containers[0].env, certs.env[e], EnvName, EnvVarDerives)
    {
      HeldDerives(t.containers[0].env, certs.env[e], EnvName, EnvVarDerives);
    }
    forall v | 0 <= v < |certs.volumes|
      ensures FirstDerives(t.volumes, certs.volumes[v], VolumeName, VolumeDerives)
    {
      HeldDerives(t.volumes, certs.volumes[v], VolumeName, VolumeDerives);
    }
  }

  lemma TlsSatisfied(j: Injection, c: RayCluster, d: RayCluster, site: Site)
    requires Coherent(j) && Fits(j, c) && d == Inject(j, c) && Indexable(j, d)
    requires Applies(j, d, site) && !Basic(site)
    ensures Satisfied(j, d, site)
  {
    hide FirstDerives, HoldsTls, WithTls;
    var certs := j.mtls.value;
    if site.HeadInitSite? || site.HeadEnvSite? || site.HeadVolumeSite? {
      TlsHolds(certs, certs.headInit, HeadStage(j, c.head.template));
      TemplateSatisfied(certs, certs.headInit, d.head.template);
    } else {
      TlsHolds(certs, certs.workerInit, c.workers[site.group].template);
      TemplateSatisfied(certs, certs.workerInit, d.workers[site.group].template);
    }
  }

  lemma InjectedIndexable(j: Injection, c: RayCluster)
    requires Fits(j, c)
    ensures Indexable(j, Inject(j, c))
  {
  }

  /** After defaulting, the only site that can still be violated is enableIngress. */
  lemma InjectedAcceptable(j: Injection, c: RayCluster)
    requires Coherent(j) && Fits(j, c)
    ensures var d := Inject(j, c);
            && Indexable(j, d)
            && (Acceptable(j, d) <==> c.head.enableIngress != Some(true))
            && forall site :: Applies(j, d, site) && site != IngressSite ==> Satisfied(j, d, site)
  {
    hide FirstDerives, WithTls;
    InjectedIndexable(j, c);
    var d := Inject(j, c);
    forall site | Applies(j, d, site) && site != IngressSite ensures Satisfied(j, d, site) {
      if j.oauth.Some? { ProxySatisfied(j, c); }
      match site
      case ProxySite =>
      case ProxyVolumeSite => HeldDerives(d.head.template.volumes, j.oauth.value.volume, VolumeName, VolumeDerives);
      case AccountSite =>
      case _ => TlsSatisfied(j, c, d, site);
    }
    assert d.head.enableIngress == c.head.enableIngress;
    assert Applies(j, d, IngressSite);
  }
}
