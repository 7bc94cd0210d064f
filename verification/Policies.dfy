/** The two network policies of a cluster and what they jointly allow. */
module Policies {
  import opened Wrappers

  type Labels = map<string, string>

  /** A label selector: equalities and one kind of expression, membership in a list of values. */
  datatype Selector = Selector(matchLabels: Labels, matchIn: seq<(string, seq<string>)>)

  datatype Protocol = TCP | UDP
  datatype PolicyPort = PolicyPort(protocol: Protocol, port: int)

  /** Without a namespace selector a peer means pods of the policy's own namespace. */
  datatype Peer = Peer(pods: Option<Selector>, namespaces: Option<Selector>)

  /** An empty list of peers means any source, an empty list of ports any port. */
  datatype Rule = Rule(from: seq<Peer>, ports: seq<PolicyPort>)
  datatype PolicySpec = PolicySpec(podSelector: Selector, ingress: seq<Rule>)

  const CLUSTER_LABEL := "ray.io/cluster"
  const NODE_TYPE_LABEL := "ray.io/node-type"
  const COMPONENT_LABEL := "app.kubernetes.io/component"
  const NAMESPACE_NAME_LABEL := "kubernetes.io/metadata.name"
  const KUBERAY_OPERATOR := "kuberay-operator"
  const MONITORING_NAMESPACE := "openshift-monitoring"

  function Matching(labels: Labels): Selector {
    Selector(labels, [])
  }

  function OfCluster(name: string): Selector {
    Matching(map[CLUSTER_LABEL := name])
  }

  function NodeSelector(name: string, nodeType: string): Selector {
    Matching(map[CLUSTER_LABEL := name, NODE_TYPE_LABEL := nodeType])
  }

  function NamespaceIn(values: seq<string>): Selector {
    Selector(map[], [(NAMESPACE_NAME_LABEL, values)])
  }

  function Tcp(port: int): PolicyPort {
    PolicyPort(TCP, port)
  }

  function SecuredPorts(mtls: bool): seq<PolicyPort> {
    [Tcp(8443)] + (if mtls then [Tcp(10001)] else [])
  }

  function WorkersPolicy(name: string): PolicySpec {
    PolicySpec(NodeSelector(name, "worker"), [Rule([Peer(Some(OfCluster(name)), None)], [])])
  }

  function HeadRules(name: string, securedPorts: seq<PolicyPort>, kubeRayNamespaces: seq<string>): seq<Rule> {
    [
      Rule([Peer(Some(OfCluster(name)), None)], []),
      Rule([Peer(Some(Matching(map[])), None)], [Tcp(10001), Tcp(8265)]),
      Rule([Peer(Some(Matching(map[COMPONENT_LABEL := KUBERAY_OPERATOR])), Some(NamespaceIn(kubeRayNamespaces)))],
           [Tcp(8265), Tcp(10001)]),
      Rule([Peer(None, Some(NamespaceIn([MONITORING_NAMESPACE])))], [Tcp(8080)]),
      Rule([], securedPorts)
    ]
  }

  function HeadPolicy(name: string, mtls: bool, kubeRayNamespaces: seq<string>): PolicySpec {
    PolicySpec(NodeSelector(name, "head"), HeadRules(name, SecuredPorts(mtls), kubeRayNamespaces))
  }

  /** The builder of the source, which appends to a local list of ports. */
  method DesiredHeadPolicy(name: string, mtls: bool, kubeRayNamespaces: seq<string>) returns (spec: PolicySpec)
    ensures spec == HeadPolicy(name, mtls, kubeRayNamespaces)
    ensures forall dst: Endpoint :: Selects(spec.podSelector, dst.labels) <==>
              Labelled(dst, CLUSTER_LABEL, name) && Labelled(dst, NODE_TYPE_LABEL, "head")
    ensures forall ns: string, src: Option<Endpoint>, port: PolicyPort ::
              Admits(Installed(ns, spec), src, port) <==> HeadOpen(ns, name, mtls, kubeRayNamespaces, src, port)
  {
    var securedPorts := [Tcp(8443)];
    if mtls {
      securedPorts := securedPorts + [Tcp(10001)];
    }
    assert securedPorts == SecuredPorts(mtls);
    spec := PolicySpec(NodeSelector(name, "head"), HeadRules(name, securedPorts, kubeRayNamespaces));
    hide HeadOpen, Admits;
    forall ns: string, src: Option<Endpoint>, port: PolicyPort
      ensures Admits(Installed(ns, spec), src, port) <==> HeadOpen(ns, name, mtls, kubeRayNamespaces, src, port)
    {
      HeadAdmits(ns, name, mtls, kubeRayNamespaces, src, port);
    }
    forall dst: Endpoint
      ensures Selects(spec.podSelector, dst.labels) <==>
              Labelled(dst, CLUSTER_LABEL, name) && Labelled(dst, NODE_TYPE_LABEL, "head")
    {
      NodeSelected(name, "head", dst.labels);
    }
  }

  // ---------------------------------------------------------------- meaning

  predicate Selects(s: Selector, labels: Labels) {
    && (forall k | k in s.matchLabels :: k in labels && labels[k] == s.matchLabels[k])
    && (forall i | 0 <= i < |s.matchIn| :: s.matchIn[i].0 in labels && labels[s.matchIn[i].0] in s.matchIn[i].1)
  }

  /** A pod with its labels, its namespace and the labels of that namespace. */
  datatype Endpoint = Endpoint(namespace: string, namespaceLabels: Labels, labels: Labels)

  /** A policy as installed in a namespace. */
  datatype Installed = Installed(namespace: string, spec: PolicySpec)

  predicate PeerMatches(policyNamespace: string, peer: Peer, src: Endpoint) {
    && (match peer.namespaces
        case None => src.namespace == policyNamespace
        case Some(s) => Selects(s, src.namespaceLabels))
    && (peer.pods.Some? ==> Selects(peer.pods.value, src.labels))
  }

  /** Traffic from outside the cluster has no source pod and matches only rules open to any source. */
  predicate RuleMatches(policyNamespace: string, rule: Rule, src: Option<Endpoint>, port: PolicyPort) {
    && (rule.from == []
        || (src.Some? && exists i | 0 <= i < |rule.from| :: PeerMatches(policyNamespace, rule.from[i], src.value)))
    && (rule.ports == [] || port in rule.ports)
  }

  predicate Governs(p: Installed, dst: Endpoint) {
    p.namespace == dst.namespace && Selects(p.spec.podSelector, dst.labels)
  }

  predicate Admits(p: Installed, src: Option<Endpoint>, port: PolicyPort) {
    exists i | 0 <= i < |p.spec.ingress| :: RuleMatches(p.namespace, p.spec.ingress[i], src, port)
  }

  /** A pod no policy selects is open; otherwise some policy that selects it must admit the traffic. */
  ghost predicate Allowed(policies: set<Installed>, src: Option<Endpoint>, dst: Endpoint, port: PolicyPort) {
    || (forall p | p in policies :: !Governs(p, dst))
    || (exists p | p in policies :: Governs(p, dst) && Admits(p, src, port))
  }

  // ---------------------------------------------------------------- the closed form

  /** Clusters by (namespace, name), each with the KubeRay namespaces that its own last pass found. */
  type Tenants = map<(string, string), seq<string>>

  /** The installed policies of a set of clusters. */
  ghost function InstalledFor(clusters: Tenants, mtls: bool): set<Installed> {
    (set c | c in clusters :: Installed(c.0, HeadPolicy(c.1, mtls, clusters[c])))
    + (set c | c in clusters :: Installed(c.0, WorkersPolicy(c.1)))
  }

  function OwnPolicy(clusters: Tenants, mtls: bool, c: (string, string), head: bool): Installed
    requires c in clusters
  {
    Installed(c.0, if head then HeadPolicy(c.1, mtls, clusters[c]) else WorkersPolicy(c.1))
  }

  predicate Labelled(e: Endpoint, key: string, value: string) {
    key in e.labels && e.labels[key] == value
  }

  predicate InNamespaces(e: Endpoint, values: seq<string>) {
    NAMESPACE_NAME_LABEL in e.namespaceLabels && e.namespaceLabels[NAMESPACE_NAME_LABEL] in values
  }

  /** Who may reach the head pod of a cluster. */
  predicate HeadOpen(ns: string, name: string, mtls: bool, nss: seq<string>, src: Option<Endpoint>, port: PolicyPort) {
    || port == Tcp(8443)
    || (mtls && port == Tcp(10001))
    || (src.Some? && src.value.namespace == ns && Labelled(src.value, CLUSTER_LABEL, name))
    || (src.Some? && src.value.namespace == ns && (port == Tcp(10001) || port == Tcp(8265)))
    || (src.Some? && Labelled(src.value, COMPONENT_LABEL, KUBERAY_OPERATOR) && InNamespaces(src.value, nss)
        && (port == Tcp(8265) || port == Tcp(10001)))
    || (src.Some? && InNamespaces(src.value, [MONITORING_NAMESPACE]) && port == Tcp(8080))
  }

  /** Who may reach a worker pod of a cluster. */
  predicate WorkerOpen(ns: string, name: string, src: Option<Endpoint>) {
    src.Some? && src.value.namespace == ns && Labelled(src.value, CLUSTER_LABEL, name)
  }

  lemma NodeSelected(name: string, nodeType: string, labels: Labels)
    ensures Selects(NodeSelector(name, nodeType), labels) <==>
            && CLUSTER_LABEL in labels && labels[CLUSTER_LABEL] == name
            && NODE_TYPE_LABEL in labels && labels[NODE_TYPE_LABEL] == nodeType
  {
    assert |CLUSTER_LABEL| != |NODE_TYPE_LABEL|;
    var s := NodeSelector(name, nodeType);
    assert CLUSTER_LABEL in s.matchLabels && NODE_TYPE_LABEL in s.matchLabels;
  }

  lemma SingleSelected(key: string, value: string, labels: Labels)
    ensures Selects(Matching(map[key := value]), labels) <==> key in labels && labels[key] == value
  {
    assert key in Matching(map[key := value]).matchLabels;
  }

  lemma EmptySelected(labels: Labels)
    ensures Selects(Matching(map[]), labels)
  {
  }

  lemma NamespaceSelected(values: seq<string>, labels: Labels)
    ensures Selects(NamespaceIn(values), labels) <==>
            NAMESPACE_NAME_LABEL in labels && labels[NAMESPACE_NAME_LABEL] in values
  {
    assert NamespaceIn(values).matchIn[0] == (NAMESPACE_NAME_LABEL, values);
  }

  lemma OnePeer(ns: string, peer: Peer, ports: seq<PolicyPort>, src: Option<Endpoint>, port: PolicyPort)
    ensures RuleMatches(ns, Rule([peer], ports), src, port) <==>
            src.Some? && PeerMatches(ns, peer, src.value) && (ports == [] || port in ports)
  {
    assert [peer][0] == peer;
  }

  lemma HeadAdmits(ns: string, name: string, mtls: bool, nss: seq<string>, src: Option<Endpoint>, port: PolicyPort)
    ensures Admits(Installed(ns, HeadPolicy(name, mtls, nss)), src, port) <==> HeadOpen(ns, name, mtls, nss, src, port)
  {
    hide Selects;
    var rules := HeadPolicy(name, mtls, nss).ingress;
    assert rules[4].ports == SecuredPorts(mtls);
    if src.Some? {
      SingleSelected(CLUSTER_LABEL, name, src.value.labels);
      SingleSelected(COMPONENT_LABEL, KUBERAY_OPERATOR, src.value.labels);
      NamespaceSelected(nss, src.value.namespaceLabels);
      NamespaceSelected([MONITORING_NAMESPACE], src.value.namespaceLabels);
      EmptySelected(src.value.labels);
    }
    forall i | 0 <= i < 4
      ensures RuleMatches(ns, rules[i], src, port) <==>
              src.Some? && PeerMatches(ns, rules[i].from[0], src.value)
                  && (rules[i].ports == [] || port in rules[i].ports)
    {
      OnePeer(ns, rules[i].from[0], rules[i].ports, src, port);
      assert rules[i] == Rule([rules[i].from[0]], rules[i].ports);
    }
    assert Admits(Installed(ns, HeadPolicy(name, mtls, nss)), src, port) <==>
           || RuleMatches(ns, rules[0], src, port) || RuleMatches(ns, rules[1], src, port)
           || RuleMatches(ns, rules[2], src, port) || RuleMatches(ns, rules[3], src, port)
           || RuleMatches(ns, rules[4], src, port);
  }

  lemma WorkerAdmits(ns: string, name: string, src: Option<Endpoint>, port: PolicyPort)
    ensures Admits(Installed(ns, WorkersPolicy(name)), src, port) <==> WorkerOpen(ns, name, src)
  {
    var rules := WorkersPolicy(name).ingress;
    OnePeer(ns, rules[0].from[0], [], src, port);
    assert rules[0] == Rule([rules[0].from[0]], []);
    if src.Some? {
      SingleSelected(CLUSTER_LABEL, name, src.value.labels);
    }
  }

  lemma OwnGoverns(clusters: Tenants, mtls: bool, c: (string, string), kind: bool, name: string, dst: Endpoint,
      head: bool)
    requires c in clusters
    requires Labelled(dst, CLUSTER_LABEL, name)
    requires Labelled(dst, NODE_TYPE_LABEL, if head then "head" else "worker")
    ensures Governs(OwnPolicy(clusters, mtls, c, kind), dst) <==> c == (dst.namespace, name) && kind == head
  {
    hide HeadPolicy, WorkersPolicy, Selects, NodeSelector;
    PolicySelectors(c.1, mtls, clusters[c]);
    NodeSelected(c.1, if kind then "head" else "worker", dst.labels);
    assert |"head"| != |"worker"|;
  }

  /** Each head or worker pod of an installed cluster is selected by exactly one of all policies. */
  lemma GovernedByOne(clusters: Tenants, mtls: bool, name: string, dst: Endpoint, head: bool)
    requires (dst.namespace, name) in clusters
    requires Labelled(dst, CLUSTER_LABEL, name)
    requires Labelled(dst, NODE_TYPE_LABEL, if head then "head" else "worker")
    ensures var own := OwnPolicy(clusters, mtls, (dst.namespace, name), head);
            && own in InstalledFor(clusters, mtls)
            && forall p | p in InstalledFor(clusters, mtls) :: Governs(p, dst) <==> p == own
  {
    hide HeadPolicy, WorkersPolicy, Governs, Labelled;
    var all := InstalledFor(clusters, mtls);
    var me := (dst.namespace, name);
    var own := OwnPolicy(clusters, mtls, me, head);
    assert Installed(me.0, HeadPolicy(me.1, mtls, clusters[me])) in all && Installed(me.0, WorkersPolicy(me.1)) in all;
    OwnGoverns(clusters, mtls, me, head, name, dst, head);
    forall p | p in all ensures Governs(p, dst) <==> p == own {
      var c :| c in clusters && (p == OwnPolicy(clusters, mtls, c, true) || p == OwnPolicy(clusters, mtls, c, false));
      var kind := p == OwnPolicy(clusters, mtls, c, true);
      OwnGoverns(clusters, mtls, c, kind, name, dst, head);
    }
  }

  lemma PolicySelectors(name: string, mtls: bool, nss: seq<string>)
    ensures HeadPolicy(name, mtls, nss).podSelector == NodeSelector(name, "head")
    ensures WorkersPolicy(name).podSelector == NodeSelector(name, "worker")
  {
  }

  /** With the policies of any set of clusters installed, traffic to a head or worker pod of one
      of them is allowed exactly as the closed forms say. */
  lemma PolicySemantics(clusters: Tenants, mtls: bool, name: string, src: Option<Endpoint>, dst: Endpoint,
                        port: PolicyPort, head: bool)
    requires (dst.namespace, name) in clusters
    requires Labelled(dst, CLUSTER_LABEL, name)
    requires Labelled(dst, NODE_TYPE_LABEL, if head then "head" else "worker")
    ensures Allowed(InstalledFor(clusters, mtls), src, dst, port) <==>
            if head then HeadOpen(dst.namespace, name, mtls, clusters[(dst.namespace, name)], src, port)
            else WorkerOpen(dst.namespace, name, src)
  {
    hide HeadPolicy, WorkersPolicy, Governs, Admits, HeadOpen, WorkerOpen, InstalledFor;
    GovernedByOne(clusters, mtls, name, dst, head);
    HeadAdmits(dst.namespace, name, mtls, clusters[(dst.namespace, name)], src, port);
    WorkerAdmits(dst.namespace, name, src, port);
  }
}
