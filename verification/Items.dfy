/** The items the webhook injects and later insists on. */
module Items {
  import opened Wrappers
  import opened Naming
  import opened Kube
  import opened Support

  const OAUTH_PROXY_CONTAINER := "oauth-proxy"
  const OAUTH_PROXY_VOLUME := "proxy-tls-secret"
  const INIT_CONTAINER := "create-cert"
  const COOKIE_KEY := "cookie_secret"

  function PlainContainer(name: string, image: string): Container {
    Container(name, image, [], [], [], [], [], false, false, false, None)
  }

  function OAuthProxyContainer(s: Settings, id: Identity): Container {
    PlainContainer(OAUTH_PROXY_CONTAINER, s.oauthImage).(
      ports := [Port("oauth-proxy", 0, 8443, "", "")],
      env := [EnvVar("COOKIE_SECRET", "",
                     Some(EnvSource(None, Some(SecretKeyRef(s.Name(id, OAuthConfigRole), COOKIE_KEY, None)), None)))],
      args := [
        "--https-address=:8443",
        "--provider=openshift",
        "--openshift-service-account=" + s.Name(id, OAuthAccountRole),
        "--upstream=http://localhost:8265",
        "--tls-cert=/etc/tls/private/tls.crt",
        "--tls-key=/etc/tls/private/tls.key",
        "--cookie-secret=$(COOKIE_SECRET)",
        "--openshift-delegate-urls={\"/\":{\"resource\":\"pods\",\"namespace\":\"" + id.namespace
        + "\",\"verb\":\"get\"}}"
      ],
      volumeMounts := [VolumeMount(OAUTH_PROXY_VOLUME, true, "/etc/tls/private", "", None)])
  }

  function SecretVolume(name: string, secretName: string): Volume {
    Volume(name, Some(SecretSource(secretName, None)), None, None)
  }

  function OAuthProxyTlsVolume(s: Settings, id: Identity): Volume {
    SecretVolume(OAUTH_PROXY_VOLUME, s.Name(id, OAuthTlsRole))
  }

  function CertVolumeMounts(): seq<VolumeMount> {
    [VolumeMount("ca-vol", true, "/home/ray/workspace/ca", "", None),
     VolumeMount("server-cert", false, "/home/ray/workspace/tls", "", None)]
  }

  function PlainEnv(name: string, value: string): EnvVar {
    EnvVar(name, value, None)
  }

  function EnvVars(): seq<EnvVar> {
    [EnvVar("MY_POD_IP", "", Some(EnvSource(Some(FieldRef("", "status.podIP")), None, None))),
     PlainEnv("RAY_USE_TLS", "1"),
     PlainEnv("RAY_TLS_SERVER_CERT", "/home/ray/workspace/tls/server.crt"),
     PlainEnv("RAY_TLS_SERVER_KEY", "/home/ray/workspace/tls/server.key"),
     PlainEnv("RAY_TLS_CA_CERT", "/home/ray/workspace/tls/ca.crt")]
  }

  function CaVolumes(secretName: string): seq<Volume> {
    [SecretVolume("ca-vol", secretName),
     Volume("server-cert", None, Some(EmptyDirSource("", None)), None)]
  }

  function InitContainer(s: Settings, script: string): Container {
    PlainContainer(INIT_CONTAINER, s.certImage).(command := ["sh", "-c", script], volumeMounts := CertVolumeMounts())
  }

  function HeadInitContainer(s: Settings, id: Identity): Container {
    var route := RayClientName(id.name) + "-" + id.namespace + "." + s.ingressDomain;
    var service := ServiceName(id.name) + "." + id.namespace + ".svc";
    InitContainer(s, s.certScriptHead + "\\nDNS.5 = " + route + "\\nDNS.6 = " + service + s.certScriptTail)
  }

  function WorkerInitContainer(s: Settings): Container {
    InitContainer(s, s.certScriptHead + s.certScriptTail)
  }

  // ---------------------------------------------------------------- all items of one cluster

  datatype ProxyItems = ProxyItems(container: Container, volume: Volume, account: string)
  datatype CertItems = CertItems(env: seq<EnvVar>, mounts: seq<VolumeMount>, volumes: seq<Volume>,
                                 headInit: Container, workerInit: Container)

  /** What the webhook injects into a cluster, by feature. */
  datatype Injection = Injection(oauth: Option<ProxyItems>, mtls: Option<CertItems>)

  function ProxyItemsFor(s: Settings, id: Identity): ProxyItems {
    ProxyItems(OAuthProxyContainer(s, id), OAuthProxyTlsVolume(s, id), s.Name(id, OAuthAccountRole))
  }

  function CertItemsFor(s: Settings, id: Identity): CertItems {
    CertItems(EnvVars(), CertVolumeMounts(), CaVolumes(s.Name(id, CaSecretRole)),
              HeadInitContainer(s, id), WorkerInitContainer(s))
  }

  function InjectionFor(s: Settings, id: Identity): Injection {
    Injection(if s.OAuthEnabled() then Some(ProxyItemsFor(s, id)) else None,
              if s.MtlsEnabled() then Some(CertItemsFor(s, id)) else None)
  }

  // ---------------------------------------------------------------- their names do not clash

  ghost predicate DistinctCerts(certs: CertItems) {
    Distinct(certs.env, EnvName) && Distinct(certs.mounts, MountName) && Distinct(certs.volumes, VolumeName)
  }

  ghost predicate Disjoint(proxy: ProxyItems, certs: CertItems) {
    && (forall i | 0 <= i < |certs.env| :: !Has(proxy.container.env, EnvName, certs.env[i].name))
    && (forall i | 0 <= i < |certs.mounts| :: !Has(proxy.container.volumeMounts, MountName, certs.mounts[i].name))
    && (forall i | 0 <= i < |certs.volumes| :: certs.volumes[i].name != proxy.volume.name)
  }

  /** The injected names of each list differ from each other. */
  ghost predicate Coherent(j: Injection) {
    && (j.mtls.Some? ==> DistinctCerts(j.mtls.value))
    && (j.oauth.Some? && j.mtls.Some? ==> Disjoint(j.oauth.value, j.mtls.value))
  }

  /** The five names have five lengths, and none has the length of COOKIE_SECRET. */
  lemma EnvNames()
    ensures |EnvVars()| == 5
    ensures Distinct(EnvVars(), EnvName)
    ensures forall i | 0 <= i < 5 :: |EnvVars()[i].name| != 13
  {
    var lengths := [9, 11, 19, 18, 15];
    assert forall i | 0 <= i < 5 :: |EnvName(EnvVars()[i])| == lengths[i];
  }

  lemma MountNames()
    ensures |CertVolumeMounts()| == 2
    ensures Distinct(CertVolumeMounts(), MountName)
    ensures forall i | 0 <= i < 2 :: |CertVolumeMounts()[i].name| != 16
  {
    var lengths := [6, 11];
    assert forall i | 0 <= i < 2 :: |MountName(CertVolumeMounts()[i])| == lengths[i];
  }

  lemma VolumeNames(secretName: string)
    ensures |CaVolumes(secretName)| == 2
    ensures Distinct(CaVolumes(secretName), VolumeName)
    ensures forall i | 0 <= i < 2 :: |CaVolumes(secretName)[i].name| != 16
  {
    var lengths := [6, 11];
    assert forall i | 0 <= i < 2 :: |VolumeName(CaVolumes(secretName)[i])| == lengths[i];
  }

  ghost predicate ProxySizes(k: Container, v: Volume) {
    && |k.env| == 1 && |k.env[0].name| == 13
    && |k.volumeMounts| == 1 && |k.volumeMounts[0].name| == 16
    && |v.name| == 16
  }

  lemma ProxySized(s: Settings, id: Identity)
    ensures ProxySizes(OAuthProxyContainer(s, id), OAuthProxyTlsVolume(s, id))
  {
  }

  lemma CertsCoherent(certs: CertItems, secretName: string)
    requires certs.env == EnvVars() && certs.mounts == CertVolumeMounts() && certs.volumes == CaVolumes(secretName)
    ensures DistinctCerts(certs)
    ensures forall proxy: ProxyItems :: ProxySizes(proxy.container, proxy.volume) ==> Disjoint(proxy, certs)
  {
    EnvNames();
    MountNames();
    VolumeNames(secretName);
  }

  lemma InjectionCoherent(s: Settings, id: Identity)
    ensures Coherent(InjectionFor(s, id))
  {
    hide OAuthProxyContainer, OAuthProxyTlsVolume, EnvVars, CertVolumeMounts, CaVolumes;
    hide HeadInitContainer, WorkerInitContainer, RoleName;
    ProxySized(s, id);
    CertsCoherent(CertItemsFor(s, id), s.Name(id, CaSecretRole));
    assert ProxySizes(ProxyItemsFor(s, id).container, ProxyItemsFor(s, id).volume);
  }
}
