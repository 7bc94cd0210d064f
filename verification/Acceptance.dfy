/** What the update webhook accepts, spelled out on the fields of the cluster, and that defaulting
    puts exactly those fields there. */
module Acceptance {
  import opened Wrappers
  import opened Naming
  import opened Kube
  import opened Items
  import opened Support
  import opened Derivative
  import opened Defaulting
  import opened Validation
  import opened Webhook
  import Admission

  // ---------------------------------------------------------------- fields of a template

  /** The first variable of that name has this value. */
  predicate Valued(env: seq<EnvVar>, name: string, value: string) {
    var a := First(env, EnvName, name);
    a.Some? && a.value.value == value
  }

  predicate TakesPodIp(env: seq<EnvVar>) {
    var a := First(env, EnvName, "MY_POD_IP");
    && a.Some? && a.value.valueFrom.Some? && a.value.valueFrom.value.fieldRef.Some?
    && a.value.valueFrom.value.fieldRef.value.fieldPath == "status.podIP"
  }

  predicate TlsVariables(env: seq<EnvVar>) {
    && TakesPodIp(env)
    && Valued(env, "RAY_USE_TLS", "1")
    && Valued(env, "RAY_TLS_SERVER_CERT", "/home/ray/workspace/tls/server.crt")
    && Valued(env, "RAY_TLS_SERVER_KEY", "/home/ray/workspace/tls/server.key")
    && Valued(env, "RAY_TLS_CA_CERT", "/home/ray/workspace/tls/ca.crt")
  }

  /** The first volume of that name is backed by this secret. */
  predicate BackedBy(volumes: seq<Volume>, name: string, secretName: string) {
    var v := First(volumes, VolumeName, name);
    v.Some? && v.value.secret.Some? && v.value.secret.value.secretName == secretName
  }

  predicate TlsVolumes(volumes: seq<Volume>, caSecret: string) {
    && BackedBy(volumes, "ca-vol", caSecret)
    && var v := First(volumes, VolumeName, "server-cert"); v.Some? && v.value.emptyDir.Some?
  }

  predicate MountedAt(m: VolumeMount, name: string, path: string, readOnly: bool) {
    m.name == name && m.mountPath == path && m.readOnly == readOnly
  }

  predicate ImageIs(k: Container, image: string) {
    image == "" || k.image == image
  }

  predicate NoTerminal(k: Container) {
    !k.stdin && !k.stdinOnce && !k.tty
  }

  /** The first init container called create-cert runs the script on the two mounts. */
  predicate CertCreated(inits: seq<Container>, image: string, script: string) {
    var a := First(inits, ContainerName, "create-cert");
    && a.Some? && ImageIs(a.value, image) && NoTerminal(a.value)
    && |a.value.command| >= 3 && a.value.command[0] == "sh" && a.value.command[1] == "-c"
    && (script == "" || a.value.command[2] == script)
    && |a.value.volumeMounts| >= 2
    && MountedAt(a.value.volumeMounts[0], "ca-vol", "/home/ray/workspace/ca", true)
    && MountedAt(a.value.volumeMounts[1], "server-cert", "/home/ray/workspace/tls", false)
  }

  predicate TemplateTls(t: PodSpec, image: string, script: string, caSecret: string) {
    && t.containers != []
    && CertCreated(t.initContainers, image, script)
    && TlsVariables(t.containers[0].env)
    && TlsVolumes(t.volumes, caSecret)
  }

  predicate CookieTaken(env: seq<EnvVar>, cookieSecret: string) {
    && |env| >= 1 && env[0].name == "COOKIE_SECRET"
    && env[0].valueFrom.Some? && env[0].valueFrom.value.secretKeyRef.Some?
    && env[0].valueFrom.value.secretKeyRef.value.name == cookieSecret
    && env[0].valueFrom.value.secretKeyRef.value.key == "cookie_secret"
  }

  predicate ProxyPort(ports: seq<Port>) {
    |ports| >= 1 && ports[0].name == "oauth-proxy" && ports[0].containerPort == 8443 && ports[0].hostPort == 0
  }

  function ProxyArgs(account: string, namespace: string): seq<string> {
    ["--https-address=:8443", "--provider=openshift", "--openshift-service-account=" + account,
     "--upstream=http://localhost:8265", "--tls-cert=/etc/tls/private/tls.crt",
     "--tls-key=/etc/tls/private/tls.key", "--cookie-secret=$(COOKIE_SECRET)",
     "--openshift-delegate-urls={\"/\":{\"resource\":\"pods\",\"namespace\":\"" + namespace + "\",\"verb\":\"get\"}}"]
  }

  /** The first container called oauth-proxy is the proxy of this account, possibly extended. */
  predicate ProxyRuns(containers: seq<Container>, image: string, account: string, cookieSecret: string,
                      namespace: string)
  {
    var k := First(containers, ContainerName, "oauth-proxy");
    && k.Some? && ImageIs(k.value, image) && NoTerminal(k.value)
    && |k.value.args| >= 8 && k.value.args[..8] == ProxyArgs(account, namespace)
    && ProxyPort(k.value.ports)
    && CookieTaken(k.value.env, cookieSecret)
    && |k.value.volumeMounts| >= 1 && MountedAt(k.value.volumeMounts[0], "proxy-tls-secret", "/etc/tls/private", true)
  }

  // ---------------------------------------------------------------- the cluster

  /** The script that creates the head's certificate names the RayClient host and the service. */
  function HeadScript(s: Settings, c: RayCluster): string {
    s.certScriptHead
    + "\\nDNS.5 = " + ("rayclient-" + c.meta.name + "-" + c.meta.namespace + "." + s.ingressDomain)
    + "\\nDNS.6 = " + (c.meta.name + "-head-svc" + "." + c.meta.namespace + ".svc")
    + s.certScriptTail
  }

  predicate HeadProxied(s: Settings, c: RayCluster) {
    var t := c.head.template;
    var account := s.Name(c.Ident(), OAuthAccountRole);
    && ProxyRuns(t.containers, s.oauthImage, account, s.Name(c.Ident(), OAuthConfigRole), c.meta.namespace)
    && BackedBy(t.volumes, "proxy-tls-secret", s.Name(c.Ident(), OAuthTlsRole))
    && t.serviceAccountName == account
  }

  predicate AllTls(s: Settings, c: RayCluster) {
    var caSecret := s.Name(c.Ident(), CaSecretRole);
    && TemplateTls(c.head.template, s.certImage, HeadScript(s, c), caSecret)
    && forall i | 0 <= i < |c.workers| ::
         TemplateTls(c.workers[i].template, s.certImage, s.certScriptHead + s.certScriptTail, caSecret)
  }

  /** Nothing of what the webhook insists on has been tampered with. */
  predicate Untampered(s: Settings, c: RayCluster) {
    && c.head.enableIngress != Some(true)
    && (s.oauth != Some(false) ==> HeadProxied(s, c))
    && (s.mtls != Some(false) ==> AllTls(s, c))
  }

  // ---------------------------------------------------------------- item by item

  lemma VariableAccepted(env: seq<EnvVar>, name: string, value: string)
    requires name != "" && value != ""
    ensures FirstDerives(env, PlainEnv(name, value), EnvName, EnvVarDerives) <==> Valued(env, name, value)
  {
    FirstDecides(env, PlainEnv(name, value), EnvName, EnvVarDerives);
  }

  lemma PodIpAccepted(env: seq<EnvVar>)
    ensures FirstDerives(env, EnvVars()[0], EnvName, EnvVarDerives) <==> TakesPodIp(env)
  {
    FirstDecides(env, EnvVars()[0], EnvName, EnvVarDerives);
  }

  lemma VariablesAccepted(env: seq<EnvVar>)
    ensures |EnvVars()| == 5
    ensures (forall e | 0 <= e < 5 :: FirstDerives(env, EnvVars()[e], EnvName, EnvVarDerives)) <==> TlsVariables(env)
  {
    hide FirstDerives, TakesPodIp, Valued, EnvVarDerives;
    PodIpAccepted(env);
    VariableAccepted(env, "RAY_USE_TLS", "1");
    VariableAccepted(env, "RAY_TLS_SERVER_CERT", "/home/ray/workspace/tls/server.crt");
    VariableAccepted(env, "RAY_TLS_SERVER_KEY", "/home/ray/workspace/tls/server.key");
    VariableAccepted(env, "RAY_TLS_CA_CERT", "/home/ray/workspace/tls/ca.crt");
    FiveVariables();
    assert (forall e | 0 <= e < 5 :: FirstDerives(env, EnvVars()[e], EnvName, EnvVarDerives)) <==>
           && FirstDerives(env, EnvVars()[0], EnvName, EnvVarDerives)
           && FirstDerives(env, EnvVars()[1], EnvName, EnvVarDerives)
           && FirstDerives(env, EnvVars()[2], EnvName, EnvVarDerives)
           && FirstDerives(env, EnvVars()[3], EnvName, EnvVarDerives)
           && FirstDerives(env, EnvVars()[4], EnvName, EnvVarDerives);
  }

  lemma FiveVariables()
    ensures |EnvVars()| == 5
    ensures EnvVars()[1] == PlainEnv("RAY_USE_TLS", "1")
    ensures EnvVars()[2] == PlainEnv("RAY_TLS_SERVER_CERT", "/home/ray/workspace/tls/server.crt")
    ensures EnvVars()[3] == PlainEnv("RAY_TLS_SERVER_KEY", "/home/ray/workspace/tls/server.key")
    ensures EnvVars()[4] == PlainEnv("RAY_TLS_CA_CERT", "/home/ray/workspace/tls/ca.crt")
  {
  }

  lemma SecretAccepted(volumes: seq<Volume>, name: string, secretName: string)
    requires name != "" && secretName != ""
    ensures FirstDerives(volumes, SecretVolume(name, secretName), VolumeName, VolumeDerives) <==>
            BackedBy(volumes, name, secretName)
  {
    FirstDecides(volumes, SecretVolume(name, secretName), VolumeName, VolumeDerives);
  }

  lemma ServerCertAccepted(volumes: seq<Volume>, name: string)
    requires name != ""
    ensures var v := First(volumes, VolumeName, name);
            FirstDerives(volumes, Volume(name, None, Some(EmptyDirSource("", None)), None), VolumeName, VolumeDerives)
            <==> v.Some? && v.value.emptyDir.Some?
  {
    FirstDecides(volumes, Volume(name, None, Some(EmptyDirSource("", None)), None), VolumeName, VolumeDerives);
  }

  lemma VolumesAccepted(volumes: seq<Volume>, caSecret: string)
    requires caSecret != ""
    ensures |CaVolumes(caSecret)| == 2
    ensures (forall v | 0 <= v < 2 :: FirstDerives(volumes, CaVolumes(caSecret)[v], VolumeName, VolumeDerives)) <==>
            TlsVolumes(volumes, caSecret)
  {
    hide FirstDerives, VolumeDerives, BackedBy, First;
    SecretAccepted(volumes, "ca-vol", caSecret);
    ServerCertAccepted(volumes, "server-cert");
    assert (forall v | 0 <= v < 2 :: FirstDerives(volumes, CaVolumes(caSecret)[v], VolumeName, VolumeDerives)) <==>
           && FirstDerives(volumes, CaVolumes(caSecret)[0], VolumeName, VolumeDerives)
           && FirstDerives(volumes, CaVolumes(caSecret)[1], VolumeName, VolumeDerives);
  }

  /** The fields of an init container that count: those the expected one fills in. */
  predicate RunsScript(a: Container, image: string, command: seq<string>, mounts: seq<VolumeMount>) {
    && ImageIs(a, image) && NoTerminal(a)
    && |a.command| >= |command| && (forall i | 0 <= i < |command| :: command[i] == "" || a.command[i] == command[i])
    && |a.volumeMounts| >= |mounts|
    && forall i | 0 <= i < |mounts| ::
         MountedAt(a.volumeMounts[i], mounts[i].name, mounts[i].mountPath, mounts[i].readOnly)
  }

  lemma ScriptAccepted(name: string, image: string, command: seq<string>, mounts: seq<VolumeMount>, a: Container)
    requires forall i | 0 <= i < |mounts| ::
               mounts[i].name != "" && mounts[i].mountPath != "" && mounts[i].subPath == "" && mounts[i].rest.None?
    requires a.name == name
    ensures ContainerDerives(PlainContainer(name, image).(command := command, volumeMounts := mounts), a) <==>
            RunsScript(a, image, command, mounts)
  {
  }

  lemma CertMounts()
    ensures CertVolumeMounts() == [VolumeMount("ca-vol", true, "/home/ray/workspace/ca", "", None),
                                   VolumeMount("server-cert", false, "/home/ray/workspace/tls", "", None)]
  {
  }

  lemma ScriptSpelled(a: Container, image: string, script: string)
    ensures RunsScript(a, image, ["sh", "-c", script], CertVolumeMounts()) <==>
            && ImageIs(a, image) && NoTerminal(a)
            && |a.command| >= 3 && a.command[0] == "sh" && a.command[1] == "-c"
            && (script == "" || a.command[2] == script)
            && |a.volumeMounts| >= 2
            && MountedAt(a.volumeMounts[0], "ca-vol", "/home/ray/workspace/ca", true)
            && MountedAt(a.volumeMounts[1], "server-cert", "/home/ray/workspace/tls", false)
  {
    hide MountedAt, CertVolumeMounts;
    CertMounts();
    var mounts := CertVolumeMounts();
    if |a.volumeMounts| >= 2 {
      assert (forall i | 0 <= i < 2 ::
                MountedAt(a.volumeMounts[i], mounts[i].name, mounts[i].mountPath, mounts[i].readOnly)) <==>
             && MountedAt(a.volumeMounts[0], mounts[0].name, mounts[0].mountPath, mounts[0].readOnly)
             && MountedAt(a.volumeMounts[1], mounts[1].name, mounts[1].mountPath, mounts[1].readOnly);
    }
  }

  lemma InitAccepted(s: Settings, inits: seq<Container>, script: string)
    ensures FirstDerives(inits, InitContainer(s, script), ContainerName, ContainerDerives) <==>
            CertCreated(inits, s.certImage, script)
  {
    hide ContainerDerives, RunsScript, CertVolumeMounts;
    var item := InitContainer(s, script);
    assert item.name == "create-cert" && ContainerName(item) == item.name;
    FirstDecides(inits, item, ContainerName, ContainerDerives);
    var a := First(inits, ContainerName, "create-cert");
    if a.Some? {
      MountsPlain();
      ScriptAccepted("create-cert", s.certImage, ["sh", "-c", script], CertVolumeMounts(), a.value);
      ScriptSpelled(a.value, s.certImage, script);
    }
  }

  lemma MountsPlain()
    ensures var mounts := CertVolumeMounts();
            forall i | 0 <= i < |mounts| ::
              mounts[i].name != "" && mounts[i].mountPath != "" && mounts[i].subPath == "" && mounts[i].rest.None?
  {
  }

  /** The proxy, in terms of its texts. */
  function ProxyOf(image: string, args: seq<string>, cookieSecret: string, cookieKey: string, port: Port, env: string,
                   mount: VolumeMount, name: string): Container {
    PlainContainer(name, image).(
      ports := [port],
      env := [EnvVar(env, "", Some(EnvSource(None, Some(SecretKeyRef(cookieSecret, cookieKey, None)), None)))],
      args := args, volumeMounts := [mount])
  }

  lemma ProxyFieldsAccepted(image: string, args: seq<string>, cookieSecret: string, cookieKey: string, port: Port,
                            env: string, mount: VolumeMount, a: Container)
    requires (forall i | 0 <= i < |args| :: args[i] != "") && cookieSecret != "" && cookieKey != "" && env != ""
    requires port.name != "" && port.protocol == "" && port.hostIP == ""
    requires mount.name != "" && mount.mountPath != "" && mount.subPath == "" && mount.rest.None?
    ensures ContainerDerives(ProxyOf(image, args, cookieSecret, cookieKey, port, env, mount, a.name), a) <==>
            && ImageIs(a, image) && NoTerminal(a)
            && |a.args| >= |args| && (forall i | 0 <= i < |args| :: a.args[i] == args[i])
            && |a.ports| >= 1 && a.ports[0].name == port.name
            && a.ports[0].containerPort == port.containerPort && a.ports[0].hostPort == port.hostPort
            && |a.env| >= 1 && a.env[0].name == env
            && a.env[0].valueFrom.Some? && a.env[0].valueFrom.value.secretKeyRef.Some?
            && a.env[0].valueFrom.value.secretKeyRef.value.name == cookieSecret
            && a.env[0].valueFrom.value.secretKeyRef.value.key == cookieKey
            && |a.volumeMounts| >= 1 && MountedAt(a.volumeMounts[0], mount.name, mount.mountPath, mount.readOnly)
  {
  }

  lemma ArgsSpelled(account: string, namespace: string)
    ensures var args := ProxyArgs(account, namespace);
            |args| == 8 && forall i | 0 <= i < 8 :: args[i] != ""
  {
  }

  lemma ProxySpelled(s: Settings, id: Identity)
    ensures OAuthProxyContainer(s, id) ==
            ProxyOf(s.oauthImage, ProxyArgs(s.Name(id, OAuthAccountRole), id.namespace), s.Name(id, OAuthConfigRole),
                    "cookie_secret", Port("oauth-proxy", 0, 8443, "", ""), "COOKIE_SECRET",
                    VolumeMount("proxy-tls-secret", true, "/etc/tls/private", "", None), "oauth-proxy")
  {
    hide RoleName;
  }

  lemma ProxyAccepted(s: Settings, id: Identity, containers: seq<Container>)
    requires s.Name(id, OAuthConfigRole) != ""
    ensures FirstDerives(containers, OAuthProxyContainer(s, id), ContainerName, ContainerDerives) <==>
            ProxyRuns(containers, s.oauthImage, s.Name(id, OAuthAccountRole), s.Name(id, OAuthConfigRole), id.namespace)
  {
    hide ContainerDerives, OAuthProxyContainer, ProxyArgs, RoleName, MountedAt, ImageIs, NoTerminal;
    ProxySpelled(s, id);
    var item := OAuthProxyContainer(s, id);
    var args := ProxyArgs(s.Name(id, OAuthAccountRole), id.namespace);
    FirstDecides(containers, item, ContainerName, ContainerDerives);
    assert ContainerName(item) == "oauth-proxy";
    var a := First(containers, ContainerName, "oauth-proxy");
    if a.Some? {
      ArgsSpelled(s.Name(id, OAuthAccountRole), id.namespace);
      ProxyFieldsAccepted(s.oauthImage, args, s.Name(id, OAuthConfigRole), "cookie_secret",
                          Port("oauth-proxy", 0, 8443, "", ""), "COOKIE_SECRET",
                          VolumeMount("proxy-tls-secret", true, "/etc/tls/private", "", None), a.value);
      FirstEight(a.value.args, args);
    }
  }

  lemma FirstEight(xs: seq<string>, args: seq<string>)
    requires |args| == 8
    ensures |xs| >= 8 ==> (xs[..8] == args <==> forall i | 0 <= i < 8 :: xs[i] == args[i])
  {
  }

  lemma NamesFilled(s: Settings, id: Identity, role: Role)
    ensures s.Name(id, role) != ""
  {
  }

  lemma HeadScriptSpelled(s: Settings, c: RayCluster)
    ensures HeadInitContainer(s, c.Ident()) == InitContainer(s, HeadScript(s, c))
  {
    hide InitContainer;
    var host := "rayclient-" + c.meta.name + "-" + c.meta.namespace + "." + s.ingressDomain;
    var service := c.meta.name + "-head-svc" + "." + c.meta.namespace + ".svc";
    assert RayClientName(c.meta.name) + "-" + c.meta.namespace + "." + s.ingressDomain == host;
    assert ServiceName(c.meta.name) + "." + c.meta.namespace + ".svc" == service;
  }

  // ---------------------------------------------------------------- the requirements by template

  ghost predicate TemplateDerives(certs: CertItems, init: Container, t: PodSpec) {
    && t.containers != []
    && FirstDerives(t.initContainers, init, ContainerName, ContainerDerives)
    && (forall e | 0 <= e < |certs.env| :: FirstDerives(t.containers[0].env, certs.env[e], EnvName, EnvVarDerives))
    && (forall v | 0 <= v < |certs.volumes| :: FirstDerives(t.volumes, certs.volumes[v], VolumeName, VolumeDerives))
  }

  ghost predicate ProxyDerives(p: ProxyItems, t: PodSpec) {
    && FirstDerives(t.containers, p.container, ContainerName, ContainerDerives)
    && FirstDerives(t.volumes, p.volume, VolumeName, VolumeDerives)
    && t.serviceAccountName == p.account
  }

  lemma TemplateAccepted(s: Settings, certs: CertItems, script: string, t: PodSpec, caSecret: string)
    requires certs.env == EnvVars() && certs.volumes == CaVolumes(caSecret) && caSecret != ""
    ensures TemplateDerives(certs, InitContainer(s, script), t) <==> TemplateTls(t, s.certImage, script, caSecret)
  {
    hide FirstDerives, CertCreated, TlsVariables, TlsVolumes, EnvVars, CaVolumes, InitContainer;
    InitAccepted(s, t.initContainers, script);
    VolumesAccepted(t.volumes, caSecret);
    if t.containers != [] { VariablesAccepted(t.containers[0].env); }
  }

  lemma HeadAccepted(s: Settings, c: RayCluster)
    ensures ProxyDerives(ProxyItemsFor(s, c.Ident()), c.head.template) <==> HeadProxied(s, c)
  {
    hide FirstDerives, ProxyRuns, OAuthProxyContainer, RoleName, BackedBy;
    NamesFilled(s, c.Ident(), OAuthConfigRole);
    NamesFilled(s, c.Ident(), OAuthTlsRole);
    ProxyAccepted(s, c.Ident(), c.head.template.containers);
    SecretAccepted(c.head.template.volumes, "proxy-tls-secret", s.Name(c.Ident(), OAuthTlsRole));
  }

  lemma TlsAccepted(s: Settings, c: RayCluster)
    ensures var certs := CertItemsFor(s, c.Ident());
            AllTls(s, c) <==>
            && TemplateDerives(certs, certs.headInit, c.head.template)
            && forall i | 0 <= i < |c.workers| :: TemplateDerives(certs, certs.workerInit, c.workers[i].template)
  {
    hide TemplateDerives, TemplateTls, EnvVars, CaVolumes, CertVolumeMounts, HeadInitContainer, InitContainer;
    hide HeadScript, RoleName;
    var certs := CertItemsFor(s, c.Ident());
    var caSecret := s.Name(c.Ident(), CaSecretRole);
    NamesFilled(s, c.Ident(), CaSecretRole);
    HeadScriptSpelled(s, c);
    TemplateAccepted(s, certs, HeadScript(s, c), c.head.template, caSecret);
    forall i | 0 <= i < |c.workers|
      ensures TemplateDerives(certs, certs.workerInit, c.workers[i].template) <==>
              TemplateTls(c.workers[i].template, s.certImage, s.certScriptHead + s.certScriptTail, caSecret)
    {
      TemplateAccepted(s, certs, s.certScriptHead + s.certScriptTail, c.workers[i].template, caSecret);
    }
  }

  // ---------------------------------------------------------------- all sites

  lemma AcceptableByTemplate(j: Injection, c: RayCluster)
    requires Indexable(j, c)
    ensures Acceptable(j, c) <==> c.head.enableIngress != Some(true) && OthersSatisfied(j, c)
    ensures OthersSatisfied(j, c) <==>
            && (j.oauth.Some? ==> ProxyDerives(j.oauth.value, c.head.template))
            && (j.mtls.Some? ==> TlsDerives(j.mtls.value, c))
  {
    hide FirstDerives;
    if Acceptable(j, c) {
      assert Satisfied(j, c, IngressSite);
    }
    if OthersSatisfied(j, c) {
      if j.oauth.Some? {
        assert Satisfied(j, c, ProxySite) && Satisfied(j, c, ProxyVolumeSite) && Satisfied(j, c, AccountSite);
      }
      if j.mtls.Some? { SitesToTemplates(j, c); }
    }
  }

  /** All sites but the ingress flag are in order. */
  ghost predicate OthersSatisfied(j: Injection, c: RayCluster)
    requires Indexable(j, c)
  {
    forall site :: Applies(j, c, site) && site != IngressSite ==> Satisfied(j, c, site)
  }

  ghost predicate TlsDerives(certs: CertItems, c: RayCluster) {
    && TemplateDerives(certs, certs.headInit, c.head.template)
    && forall i | 0 <= i < |c.workers| :: TemplateDerives(certs, certs.workerInit, c.workers[i].template)
  }

  lemma SitesToTemplates(j: Injection, c: RayCluster)
    requires Indexable(j, c) && OthersSatisfied(j, c) && j.mtls.Some?
    ensures TlsDerives(j.mtls.value, c)
  {
    hide FirstDerives;
    var certs := j.mtls.value;
    assert Satisfied(j, c, HeadInitSite);
    forall e | 0 <= e < |certs.env|
      ensures FirstDerives(c.head.template.containers[0].env, certs.env[e], EnvName, EnvVarDerives)
    {
      assert Satisfied(j, c, HeadEnvSite(e));
    }
    forall v | 0 <= v < |certs.volumes|
      ensures FirstDerives(c.head.template.volumes, certs.volumes[v], VolumeName, VolumeDerives)
    {
      assert Satisfied(j, c, HeadVolumeSite(v));
    }
    forall i | 0 <= i < |c.workers| ensures TemplateDerives(certs, certs.workerInit, c.workers[i].template) {
      SitesToWorker(j, c, i);
    }
  }

  lemma SitesToWorker(j: Injection, c: RayCluster, i: nat)
    requires Indexable(j, c) && OthersSatisfied(j, c) && j.mtls.Some? && i < |c.workers|
    ensures TemplateDerives(j.mtls.value, j.mtls.value.workerInit, c.workers[i].template)
  {
    hide FirstDerives;
    var certs, t := j.mtls.value, c.workers[i].template;
    assert Satisfied(j, c, WorkerInitSite(i));
    forall e | 0 <= e < |certs.env| ensures FirstDerives(t.containers[0].env, certs.env[e], EnvName, EnvVarDerives) {
      assert Satisfied(j, c, WorkerEnvSite(i, e));
    }
    forall v | 0 <= v < |certs.volumes| ensures FirstDerives(t.volumes, certs.volumes[v], VolumeName, VolumeDerives) {
      assert Satisfied(j, c, WorkerVolumeSite(i, v));
    }
  }

  /** The update webhook accepts a cluster that is not being deleted exactly when none of the fields
      it insists on has been tampered with: it accepts nothing else and rejects nothing else. */
  lemma AcceptsUntampered(s: Settings, c: RayCluster)
    requires !c.meta.deleting
    ensures UpdateErrors(ExpectedItems(s, c), c) == Some([]) <==> Untampered(s, c)
  {
    hide InjectionFor, Indexable, Acceptable, UpdateErrors, TemplateDerives, ProxyDerives, AllTls, HeadProxied;
    var j := ExpectedItems(s, c);
    Admission.UpdateAcceptsExactly(s, c);
    Features(s, c.Ident());
    TlsAccepted(s, c);
    HeadAccepted(s, c);
    if Indexable(j, c) {
      AcceptableByTemplate(j, c);
    } else {
      NotIndexable(s, c);
    }
  }

  /** A missing first container is tampering, too. */
  lemma NotIndexable(s: Settings, c: RayCluster)
    requires !Indexable(ExpectedItems(s, c), c)
    ensures !Untampered(s, c)
  {
    hide AllTls, HeadProxied, ProxyItemsFor, CertItemsFor;
    if AllTls(s, c) { TlsIndexable(s, c); }
  }

  lemma TlsIndexable(s: Settings, c: RayCluster)
    requires AllTls(s, c)
    ensures c.head.template.containers != [] && WorkersIndexable(c)
  {
    hide CertCreated, TlsVariables, TlsVolumes, RoleName, HeadScript;
    var caSecret, script := s.Name(c.Ident(), CaSecretRole), s.certScriptHead + s.certScriptTail;
    assert forall i | 0 <= i < |c.workers| :: TemplateTls(c.workers[i].template, s.certImage, script, caSecret);
  }

  /** Validating an update panics exactly when, with mutual TLS not switched off, a first container is
      missing in a cluster that is not being deleted. */
  lemma UpdatePanics(s: Settings, c: RayCluster)
    ensures UpdateErrors(ExpectedItems(s, c), c).None? <==>
            && !c.meta.deleting && s.mtls != Some(false)
            && (c.head.template.containers == []
                || exists i | 0 <= i < |c.workers| :: c.workers[i].template.containers == [])
  {
    hide InjectionFor, UpdateErrors, ProxyItemsFor, CertItemsFor;
    Features(s, c.Ident());
    PanicsByIndex(ExpectedItems(s, c), c);
  }

  lemma PanicsByIndex(j: Injection, c: RayCluster)
    ensures UpdateErrors(j, c).None? <==> !c.meta.deleting && !Indexable(j, c)
  {
    hide Errors, UpdateSites, AllApply, Indexable;
  }

  /** Which items there are, by the settings; an unset feature is on. */
  lemma Features(s: Settings, id: Identity)
    ensures var j := InjectionFor(s, id);
            && j.oauth == (if s.oauth != Some(false) then Some(ProxyItemsFor(s, id)) else None)
            && j.mtls == (if s.mtls != Some(false) then Some(CertItemsFor(s, id)) else None)
  {
    hide ProxyItemsFor, CertItemsFor;
  }

  /** On creation, the ingress flag and the proxy decide. */
  lemma CreateAcceptsUntampered(s: Settings, c: RayCluster)
    ensures CreateErrors(ExpectedItems(s, c), c) == [] <==>
            c.head.enableIngress != Some(true) && (s.oauth != Some(false) ==> HeadProxied(s, c))
  {
    hide InjectionFor, ProxyDerives, HeadProxied, FirstDerives;
    var j := ExpectedItems(s, c);
    Features(s, c.Ident());
    HeadAccepted(s, c);
    UpdateSitesExact(j, c);
    ErrorsEmpty(j, c, CreateSites(j));
    CreateByTemplate(j, c);
  }

  lemma CreateByTemplate(j: Injection, c: RayCluster)
    requires AllApply(j, c, CreateSites(j))
    ensures (forall i | 0 <= i < |CreateSites(j)| :: Satisfied(j, c, CreateSites(j)[i])) <==>
            && c.head.enableIngress != Some(true)
            && (j.oauth.Some? ==> ProxyDerives(j.oauth.value, c.head.template))
  {
    hide FirstDerives;
    var sites := CreateSites(j);
    assert sites[0] == IngressSite;
    if j.oauth.Some? {
      assert sites == [IngressSite, ProxySite, ProxyVolumeSite, AccountSite];
      assert (forall i | 0 <= i < |sites| :: Satisfied(j, c, sites[i])) <==>
             && Satisfied(j, c, sites[0]) && Satisfied(j, c, sites[1])
             && Satisfied(j, c, sites[2]) && Satisfied(j, c, sites[3]);
    }
  }

  // ---------------------------------------------------------------- what defaulting puts there

  /** The first container mounts the CA and the certificate directory. */
  predicate CertsMounted(t: PodSpec) {
    && t.containers != []
    && First(t.containers[0].volumeMounts, MountName, "ca-vol") ==
       Some(VolumeMount("ca-vol", true, "/home/ray/workspace/ca", "", None))
    && First(t.containers[0].volumeMounts, MountName, "server-cert") ==
       Some(VolumeMount("server-cert", false, "/home/ray/workspace/tls", "", None))
  }

  lemma HeldMounts(certs: CertItems, init: Container, t: PodSpec)
    requires HoldsTls(certs, init, t) && certs.mounts == CertVolumeMounts()
    ensures CertsMounted(t)
  {
    hide CertVolumeMounts;
    CertMounts();
    assert Holds(t.containers[0].volumeMounts, certs.mounts[0], MountName);
    assert Holds(t.containers[0].volumeMounts, certs.mounts[1], MountName);
    assert MountName(certs.mounts[0]) == "ca-vol" && MountName(certs.mounts[1]) == "server-cert";
  }

  lemma InjectedMounts(j: Injection, c: RayCluster)
    requires Coherent(j) && Fits(j, c) && j.mtls.Some? && j.mtls.value.mounts == CertVolumeMounts()
    ensures var d := Inject(j, c);
            CertsMounted(d.head.template) && forall i | 0 <= i < |d.workers| :: CertsMounted(d.workers[i].template)
  {
    hide CertsMounted, WithTls;
    var d, certs := Inject(j, c), j.mtls.value;
    TlsHolds(certs, certs.headInit, HeadStage(j, c.head.template));
    HeldMounts(certs, certs.headInit, d.head.template);
    forall i | 0 <= i < |d.workers| ensures CertsMounted(d.workers[i].template) {
      TlsHolds(certs, certs.workerInit, c.workers[i].template);
      HeldMounts(certs, certs.workerInit, d.workers[i].template);
    }
  }

  /** A defaulted cluster carries the fields that the validators insist on, and its first containers
      mount what these refer to. */
  lemma DefaultedSpelled(s: Settings, c: RayCluster)
    requires Defaulted(s, c).Some?
    ensures var d := Defaulted(s, c).value;
            && (s.oauth != Some(false) ==> HeadProxied(s, d))
            && (s.mtls != Some(false) ==>
                  && AllTls(s, d) && CertsMounted(d.head.template)
                  && forall i | 0 <= i < |d.workers| :: CertsMounted(d.workers[i].template))
  {
    hide InjectionFor, Inject, Coherent, Fits, Indexable, OthersSatisfied, CertsMounted;
    hide AllTls, HeadProxied, TlsDerives, ProxyDerives, Annotated;
    var d := Defaulted(s, c).value;
    var c1 := Annotated(s.operatorVersion, c);
    var j := DefaultItems(s, c);
    Admission.ExpectedAfterDefault(s, c);
    InjectionCoherent(s, c1.Ident());
    FitsIgnoresMeta(j, s.operatorVersion, c);
    InjectedOthers(j, c1);
    AcceptableByTemplate(j, d);
    Features(s, d.Ident());
    HeadAccepted(s, d);
    TlsFields(s, d);
    if j.mtls.Some? {
      MountsOf(s, d.Ident());
      InjectedMounts(j, c1);
    }
  }

  lemma InjectedOthers(j: Injection, c: RayCluster)
    requires Coherent(j) && Fits(j, c)
    ensures Indexable(j, Inject(j, c)) && OthersSatisfied(j, Inject(j, c))
  {
    hide Inject, Coherent, Fits, Indexable, Satisfied, Applies;
    InjectedAcceptable(j, c);
  }

  lemma TlsFields(s: Settings, c: RayCluster)
    ensures TlsDerives(CertItemsFor(s, c.Ident()), c) <==> AllTls(s, c)
  {
    hide AllTls, TemplateDerives, CertItemsFor;
    TlsAccepted(s, c);
  }

  lemma MountsOf(s: Settings, id: Identity)
    ensures CertItemsFor(s, id).mounts == CertVolumeMounts()
  {
  }

  // ---------------------------------------------------------------- where errors are reported

  /** The field path reported for each check. */
  lemma SitePaths(site: Site)
    ensures var p := Path(LocationOf(site)); var spec := ["spec", "headGroupSpec", "template", "spec"];
            match site
            case IngressSite => p == ["spec", "headGroupSpec", "enableIngress"]
            case ProxySite => p == spec + ["containers"]
            case ProxyVolumeSite => p == spec + ["volumes"]
            case AccountSite => p == spec + ["serviceAccountName"]
            case HeadInitSite => p == spec + ["initContainers"]
            case HeadEnvSite(_) => p == spec + ["containers", "0", "env"]
            case HeadVolumeSite(_) => p == spec + ["volumes"]
            case WorkerInitSite(i) =>
              p == ["spec", "workerGroupSpecs", Decimal(i), "template", "spec", "initContainers"]
            case WorkerEnvSite(i, _) =>
              p == ["spec", "workerGroupSpecs", Decimal(i), "template", "spec", "containers", "0", "env"]
            case WorkerVolumeSite(i, _) => p == ["spec", "workerGroupSpecs", Decimal(i), "template", "spec", "volumes"]
  {
    hide Decimal;
  }
}
