/** The derived object names: a hashed scheme for annotated clusters and a legacy scheme
    for the others. The eight hexadecimal digits are an arbitrary function of their input;
    only their number is used. */
module Naming {

  const CONTROLLER_NAME := "codeflare-raycluster-controller"
  const HASH_LENGTH := 8

  type Hash = h: string -> string | forall s: string :: |h(s)| == HASH_LENGTH
    witness (s: string) => "00000000"

  function SeededHash(h: Hash, seed: string, s: string): string {
    h(seed + s)
  }

  function UniqueName(h: Hash, s: string): string {
    s + "-" + SeededHash(h, CONTROLLER_NAME, s)
  }

  /** The hashed names of one cluster inside its namespace. */
  datatype Role =
    | OAuthAccountRole
    | OAuthServiceRole
    | OAuthTlsRole
    | OAuthConfigRole
    | CaSecretRole
    | WorkersPolicyRole
    | HeadPolicyRole

  function Suffix(role: Role): string {
    match role
    case OAuthAccountRole => "-oauth-proxy"
    case OAuthServiceRole => "-oauth"
    case OAuthTlsRole => "-proxy-tls-secret"
    case OAuthConfigRole => "-oauth-config"
    case CaSecretRole => "-ca-secret"
    case WorkersPolicyRole => "-workers"
    case HeadPolicyRole => "-head"
  }

  function HashedName(h: Hash, name: string, role: Role): string {
    UniqueName(h, name + Suffix(role))
  }

  /** Names of clusters without the version annotation. Only the CA secret is spelled differently. */
  function LegacyName(name: string, role: Role): string {
    if role == CaSecretRole then "ca-secret-" + name else name + Suffix(role)
  }

  function RoleName(h: Hash, legacy: bool, name: string, role: Role): string {
    if legacy then LegacyName(name, role) else HashedName(h, name, role)
  }

  function CrbStem(name: string, namespace: string): string {
    name + "-" + namespace + "-auth"
  }

  function CrbName(h: Hash, legacy: bool, name: string, namespace: string): string {
    if legacy then CrbStem(name, namespace) else UniqueName(h, CrbStem(name, namespace))
  }

  function DashboardName(name: string): string {
    "ray-dashboard-" + name
  }

  function RayClientName(name: string): string {
    "rayclient-" + name
  }

  function ServiceName(name: string): string {
    name + "-head-svc"
  }

  /** The hash suffix has a fixed length, so it can be cut off again. */
  lemma UniqueNameInjective(h: Hash, s: string, t: string)
    requires UniqueName(h, s) == UniqueName(h, t)
    ensures s == t
  {
    var u := UniqueName(h, s);
    assert |u| == |s| + 1 + HASH_LENGTH && |u| == |t| + 1 + HASH_LENGTH;
    assert s == u[..|s|];
    assert t == UniqueName(h, t)[..|t|];
  }

  /** What the end of a suffix says about its role: its last character, and for the two secrets
      the eighth character from the end. */
  function Ending(role: Role): (char, char) {
    match role
    case OAuthAccountRole => ('y', 't')
    case OAuthServiceRole => ('h', ' ')
    case OAuthTlsRole => ('t', 's')
    case OAuthConfigRole => ('g', 'h')
    case CaSecretRole => ('t', 'a')
    case WorkersPolicyRole => ('s', '-')
    case HeadPolicyRole => ('d', ' ')
  }

  lemma SuffixEnding(role: Role)
    ensures var x := Suffix(role);
            && |x| > 0 && x[|x| - 1] == Ending(role).0
            && (|x| >= 8 <==> Ending(role).1 != ' ')
            && (|x| >= 8 ==> x[|x| - 8] == Ending(role).1)
  {
    match role
    case OAuthAccountRole =>
    case OAuthServiceRole =>
    case OAuthTlsRole =>
    case OAuthConfigRole =>
    case CaSecretRole =>
    case WorkersPolicyRole =>
    case HeadPolicyRole =>
  }

  lemma SharedEnding(a: string, x: string, b: string, y: string, k: nat)
    requires a + x == b + y && 0 < k <= |x| && k <= |y|
    ensures x[|x| - k] == y[|y| - k]
  {
    assert (a + x)[|a + x| - k] == x[|x| - k];
    assert (b + y)[|b + y| - k] == y[|y| - k];
  }

  /** No role suffix is a suffix of another one. */
  lemma SuffixFree(a: string, r: Role, b: string, q: Role)
    requires a + Suffix(r) == b + Suffix(q)
    ensures r == q && a == b
  {
    var x, y := Suffix(r), Suffix(q);
    SuffixEnding(r);
    SuffixEnding(q);
    SharedEnding(a, x, b, y, 1);
    if |x| >= 8 && |y| >= 8 {
      SharedEnding(a, x, b, y, 8);
    }
    SameSuffix(a, b, x);
  }

  lemma SameSuffix(a: string, b: string, x: string)
    ensures a + x == b + x <==> a == b
  {
    if a + x == b + x {
      assert a == (a + x)[..|a|] && b == (b + x)[..|b|];
    }
  }

  /** Within a namespace the map from (cluster name, role) to the hashed name is injective. */
  lemma HashedNameInjective(h: Hash, a: string, r: Role, b: string, q: Role)
    ensures HashedName(h, a, r) == HashedName(h, b, q) <==> a == b && r == q
  {
    if HashedName(h, a, r) == HashedName(h, b, q) {
      UniqueNameInjective(h, a + Suffix(r), b + Suffix(q));
      SuffixFree(a, r, b, q);
    }
  }

  /** Two clusters share a ClusterRoleBinding name exactly when their name-namespace strings coincide. */
  lemma CrbNameCollides(h: Hash, name: string, ns: string, name': string, ns': string)
    ensures CrbName(h, false, name, ns) == CrbName(h, false, name', ns') <==> name + "-" + ns == name' + "-" + ns'
  {
    if CrbName(h, false, name, ns) == CrbName(h, false, name', ns') {
      UniqueNameInjective(h, CrbStem(name, ns), CrbStem(name', ns'));
      SameSuffix(name + "-" + ns, name' + "-" + ns', "-auth");
    }
  }

  /** The collision happens: a dash can move between the name and the namespace. */
  lemma CrbNameCollisionWitness(h: Hash)
    ensures CrbName(h, false, "a", "b-c") == CrbName(h, false, "a-b", "c")
  {
    assert "a" + "-" + "b-c" == "a-b" + "-" + "c";
  }

  /** The two unhashed prefixes never produce the same name. */
  lemma PrefixNamesDistinct(a: string, b: string)
    ensures DashboardName(a) != RayClientName(b)
    ensures DashboardName(a) == DashboardName(b) <==> a == b
    ensures RayClientName(a) == RayClientName(b) <==> a == b
  {
    assert DashboardName(a)[3] == '-' && RayClientName(b)[3] == 'c';
    assert a == DashboardName(a)[14..] && b == DashboardName(b)[14..];
    assert a == RayClientName(a)[10..] && b == RayClientName(b)[10..];
  }

  /** The suffixes as other components know them. */
  lemma SuffixesSpelled()
    ensures Suffix(OAuthAccountRole) == "-oauth-proxy" && Suffix(OAuthServiceRole) == "-oauth"
    ensures Suffix(OAuthTlsRole) == "-proxy-tls-secret" && Suffix(OAuthConfigRole) == "-oauth-config"
    ensures Suffix(CaSecretRole) == "-ca-secret" && Suffix(WorkersPolicyRole) == "-workers"
    ensures Suffix(HeadPolicyRole) == "-head"
  {
  }

  /** The names: the plain name, a dash, and eight digits over the controller's name and the plain name. */
  lemma NamesSpelled(h: Hash, name: string, namespace: string, role: Role)
    ensures var plain := name + Suffix(role);
            && HashedName(h, name, role) == plain + "-" + h("codeflare-raycluster-controller" + plain)
            && LegacyName(name, role) == (if role == CaSecretRole then "ca-secret-" + name else plain)
            && RoleName(h, true, name, role) == LegacyName(name, role)
            && RoleName(h, false, name, role) == HashedName(h, name, role)
    ensures var plain := name + "-" + namespace + "-auth";
            && CrbName(h, false, name, namespace) == plain + "-" + h("codeflare-raycluster-controller" + plain)
            && CrbName(h, true, name, namespace) == plain
  {
    hide Suffix;
  }

  /** Why the legacy names are outside the injectivity result: the CA secret of one legacy cluster
      and the cookie secret of another can share a name. */
  lemma LegacyNamesCollide(x: string)
    ensures LegacyName(x + "-oauth-config", CaSecretRole) == LegacyName("ca-secret-" + x, OAuthConfigRole)
  {
    assert "ca-secret-" + (x + "-oauth-config") == ("ca-secret-" + x) + "-oauth-config";
  }

  /** A legacy cluster changes the name of its binding once the webhook annotates it. */
  lemma LegacyCrbRenamed(h: Hash, name: string, namespace: string)
    ensures CrbName(h, true, name, namespace) != CrbName(h, false, name, namespace)
  {
    assert |CrbName(h, false, name, namespace)| == |CrbStem(name, namespace)| + 1 + HASH_LENGTH;
  }
}
