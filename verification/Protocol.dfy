/** The reconcile protocol as a step system: one pass at most per key, each pass a program counter
    over API calls, interleaved with users, pods, the watch cache and restarts. */
module Protocol {
  import opened Wrappers
  import opened Kube
  import opened Objects
  import opened Operators
  import opened ApiServer

  datatype Stage =
    | AddingFinalizer
    | DeletingBinding
    | RemovingFinalizer
    | ReadingCa
    | Applying(part: Part)
    | ReadingAccount
    | ListingHeadPods
    | DeletingHeadPod
    | ListingOperators
    | ReadingApplications

  /** A pass in progress: the cluster as the controller holds it, the next call, and the values
      obtained so far. */
  datatype Pass = Pass(cluster: RayCluster, stage: Stage, locals: Locals, accountSecrets: seq<string>,
                       podNamespace: string, podName: string)

  datatype Control = Continue(pass: Pass) | Return(ok: bool)

  const KUBERAY_DEFAULT_NAMESPACE := "ray-system"
  const ODH_NAMESPACE := "opendatahub"
  const RHDS_NAMESPACE := "redhat-ods-applications"

  const NO_LOCALS := Locals(KeyPair("", ""), [], "")

  /** A pass knows the salt of its process from the start. */
  function NewPass(c: RayCluster, stage: Stage, salt: string): Pass {
    Pass(c, stage, NO_LOCALS.(salt := salt), [], "", "")
  }

  function AddFinalizer(c: RayCluster): RayCluster {
    c.(meta := c.meta.(finalizers := c.meta.finalizers + [OAUTH_FINALIZER]))
  }

  function Without(fs: seq<string>, f: string): seq<string> {
    if fs == [] then [] else (if fs[0] == f then [] else [fs[0]]) + Without(fs[1..], f)
  }

  function RemoveFinalizer(c: RayCluster): RayCluster {
    c.(meta := c.meta.(finalizers := Without(c.meta.finalizers, OAUTH_FINALIZER)))
  }

  /** What a pass does first with the cluster it read from the cache. */
  function Begin(op: Operator, c: RayCluster, salt: string): Control {
    if !c.meta.deleting && !c.Guarded() then Continue(NewPass(AddFinalizer(c), AddingFinalizer, salt))
    else if c.meta.deleting && c.Guarded() then Continue(NewPass(c, DeletingBinding, salt))
    else Provision(op, NewPass(c, ListingOperators, salt))
  }

  function Provision(op: Operator, p: Pass): Control {
    if op.mtls then Continue(p.(stage := ReadingCa)) else AfterCa(op, p)
  }

  predicate OAuthBranch(op: Operator, c: RayCluster) {
    !c.Suspended() && op.oauth && op.openShift
  }

  predicate IngressBranch(op: Operator, c: RayCluster) {
    !c.Suspended() && !op.oauth && !op.openShift
  }

  function AfterCa(op: Operator, p: Pass): Control {
    if OAuthBranch(op, p.cluster) then Continue(p.(stage := Applying(DashboardRoutePart)))
    else if IngressBranch(op, p.cluster) then
      if op.hasIngressDomain then Continue(p.(stage := Applying(DashboardIngressPart))) else Return(false)
    else Continue(p.(stage := ListingOperators))
  }

  /** The part of the locals that goes into one object. */
  function Relevant(part: Part, l: Locals): Locals {
    match part
    case CaSecretPart => NO_LOCALS.(pair := l.pair)
    case OAuthSecretPart => NO_LOCALS.(salt := l.salt)
    case HeadPolicyPart => NO_LOCALS.(kubeRayNamespaces := l.kubeRayNamespaces)
    case _ => NO_LOCALS
  }

  function ContentOf(op: Operator, c: RayCluster, part: Part, l: Locals): Applied {
    op.content(SubjectOf(c), part, Relevant(part, l))
  }

  function CallOf(op: Operator, p: Pass): Call {
    var id := p.cluster.Ident();
    match p.stage
    case AddingFinalizer => UpdateCluster(p.cluster)
    case DeletingBinding => DeleteObject(op.place(id, OAuthBindingPart))
    case RemovingFinalizer => UpdateCluster(p.cluster)
    case ReadingCa => GetObject(op.place(id, CaSecretPart))
    case Applying(part) => ApplyObject(op.place(id, part), ContentOf(op, p.cluster, part, p.locals))
    case ReadingAccount => GetObject(op.place(id, OAuthAccountPart))
    case ListingHeadPods => ListHeadPods(p.cluster.Id())
    case DeletingHeadPod => DeletePod(p.podNamespace, p.podName)
    case ListingOperators => ListOperatorPods
    case ReadingApplications => GetApplications
  }

  /** The pull secrets of the ServiceAccount that the pod lacks. */
  function MissingSecrets(account: seq<string>, pod: seq<string>): set<string> {
    (set x | x in account) - (set x | x in pod)
  }

  /** The first of the pods lacks one of the account's pull secrets. */
  predicate Lacks(account: seq<string>, pods: seq<Pod>) {
    pods != [] && exists x | x in account :: x !in pods[0].pullSecrets
  }

  lemma LacksExactly(account: seq<string>, pods: seq<Pod>)
    ensures Lacks(account, pods) <==> pods != [] && MissingSecrets(account, pods[0].pullSecrets) != {}
  {
    if pods != [] {
      var missing := MissingSecrets(account, pods[0].pullSecrets);
      assert forall x :: x in missing <==> x in account && x !in pods[0].pullSecrets;
    }
  }

  /** What the pass does with the reply; a missing CA pair may be generated, or generation fails. */
  function Resume(op: Operator, p: Pass, reply: Reply, generated: Option<KeyPair>): Control {
    match p.stage
    case AddingFinalizer =>
      if reply.Updated? then Provision(op, p.(cluster := reply.cluster)) else Return(false)
    case DeletingBinding =>
      if reply.Done? || reply.NotFound?
      then Continue(p.(cluster := RemoveFinalizer(p.cluster), stage := RemovingFinalizer)) else Return(false)
    case RemovingFinalizer => Return(reply.Updated?)
    case ReadingCa =>
      if reply.NotFound? then
        if generated.Some? then
          Continue(p.(locals := p.locals.(pair := generated.value), stage := Applying(CaSecretPart)))
        else Return(false)
      else if reply.Found? then
        Continue(p.(locals := p.locals.(pair := PairOf(reply.found)), stage := Applying(CaSecretPart)))
      else Return(false)
    case Applying(part) =>
      if !reply.Done? && !part.HeadPolicyPart? && !part.WorkersPolicyPart? then Return(false)
      else AfterApply(op, p, part)
    case ReadingAccount =>
      if reply.Found? then Continue(p.(accountSecrets := reply.found.pullSecrets, stage := ListingHeadPods))
      else Return(false)
    case ListingHeadPods =>
      if !reply.Listed? then Return(false)
      else if reply.pods == [] || MissingSecrets(p.accountSecrets, reply.pods[0].pullSecrets) == {}
      then Continue(p.(stage := Applying(OAuthBindingPart)))
      else
        Continue(p.(podNamespace := reply.pods[0].namespace, podName := reply.pods[0].name, stage := DeletingHeadPod))
    case DeletingHeadPod =>
      if reply.Done? then Continue(p.(stage := Applying(OAuthBindingPart))) else Return(false)
    case ListingOperators =>
      if !reply.Listed? then Return(false)
      else
        var ns := if reply.pods == [] then KUBERAY_DEFAULT_NAMESPACE else reply.pods[0].namespace;
        Continue(p.(locals := p.locals.(kubeRayNamespaces := [ns]),
                    stage := if op.openShift then ReadingApplications else Applying(HeadPolicyPart)))
    case ReadingApplications =>
      if reply.Applications? then
        Continue(p.(locals := p.locals.(kubeRayNamespaces := [reply.namespace]), stage := Applying(HeadPolicyPart)))
      else if reply.NotFound? then
        Continue(p.(locals := p.locals.(kubeRayNamespaces := [ODH_NAMESPACE, RHDS_NAMESPACE]),
            stage := Applying(HeadPolicyPart)))
      else Return(false)
  }

  function AfterApply(op: Operator, p: Pass, part: Part): Control {
    match part
    case CaSecretPart => AfterCa(op, p)
    case DashboardRoutePart => Continue(p.(stage := Applying(OAuthSecretPart)))
    case OAuthSecretPart => Continue(p.(stage := Applying(OAuthServicePart)))
    case OAuthServicePart => Continue(p.(stage := Applying(OAuthAccountPart)))
    case OAuthAccountPart =>
      Continue(p.(stage := if p.cluster.head.template.imagePullSecrets == [] then ReadingAccount
                           else Applying(OAuthBindingPart)))
    case OAuthBindingPart => Continue(p.(stage := Applying(ClientRoutePart)))
    case ClientRoutePart => Continue(p.(stage := ListingOperators))
    case DashboardIngressPart => Continue(p.(stage := Applying(ClientIngressPart)))
    case ClientIngressPart => Continue(p.(stage := ListingOperators))
    case HeadPolicyPart => Continue(p.(stage := Applying(WorkersPolicyPart)))
    case WorkersPolicyPart => Return(true)
  }

  /** Every step moves a pass strictly closer to its end. */
  function Rank(stage: Stage): nat {
    match stage
    case AddingFinalizer => 20
    case DeletingBinding => 20
    case RemovingFinalizer => 1
    case ReadingCa => 19
    case ReadingAccount => 12
    case ListingHeadPods => 11
    case DeletingHeadPod => 10
    case ListingOperators => 5
    case ReadingApplications => 4
    case Applying(part) =>
      match part
      case CaSecretPart => 18
      case DashboardRoutePart => 17
      case OAuthSecretPart => 16
      case OAuthServicePart => 15
      case OAuthAccountPart => 14
      case OAuthBindingPart => 9
      case ClientRoutePart => 8
      case DashboardIngressPart => 7
      case ClientIngressPart => 6
      case HeadPolicyPart => 3
      case WorkersPolicyPart => 2
  }

  lemma ResumeDescends(op: Operator, p: Pass, reply: Reply, generated: Option<KeyPair>)
    ensures var r := Resume(op, p, reply, generated);
            r.Continue? ==> Rank(r.pass.stage) < Rank(p.stage)
  {
    hide PairOf, MissingSecrets;
  }

  // ---------------------------------------------------------------- the step system

  /** `returned` remembers how the last finished pass of a key ended: true for a nil error. The
      salt is drawn when the process starts. */
  datatype State = State(world: World, passes: map<Key, Pass>, returned: map<Key, bool>, salt: string)

  datatype Event =
    | Start(key: Key)
    | Proceed(key: Key, outcome: Outcome, generated: Option<KeyPair>)
    | Restart(salt: string)
    | DeliverChange
    | CreateCluster(cluster: RayCluster)
    | EditCluster(cluster: RayCluster)
    | DeleteCluster(key: Key)
    | PutObject(at: ObjectKey, put: Object)
    | RemoveObject(at: ObjectKey)
    | SetPods(pods: seq<Pod>)
    | SetApplications(namespace: Option<string>)

  function Settle(st: State, w: World, k: Key, next: Control): State {
    match next
    case Continue(p) => st.(world := w, passes := st.passes[k := p])
    case Return(ok) => st.(world := w, passes := st.passes - {k}, returned := st.returned[k := ok])
  }

  function Step(op: Operator, st: State, ev: Event): State {
    var w := st.world;
    match ev
    case Start(k) =>
      if k in st.passes || k !in w.cache then st else Settle(st, w, k, Begin(op, w.cache[k], st.salt))
    case Proceed(k, outcome, generated) =>
      if k !in st.passes then st
      else
        var p := st.passes[k];
        var (w', reply) := Serve(op, w, CallOf(op, p), outcome);
        Settle(st, w', k, Resume(op, p, reply, generated))
    case Restart(salt) => st.(world := Relist(w), passes := map[], salt := salt)
    case DeliverChange => st.(world := Deliver(w))
    case CreateCluster(c) => st.(world := Create(op, w, c))
    case EditCluster(c) => st.(world := Update(op, w, c).0)
    case DeleteCluster(k) => st.(world := RequestDelete(w, k))
    case PutObject(k, o) => st.(world := w.(objects := w.objects[k := o]))
    case RemoveObject(k) => st.(world := w.(objects := w.objects - {k}))
    case SetPods(pods) => st.(world := w.(pods := pods))
    case SetApplications(ns) => st.(world := w.(applicationsNamespace := ns))
  }

  function Run(op: Operator, st: State, evs: seq<Event>): State
    decreases |evs|
  {
    if evs == [] then st else Run(op, Step(op, st, evs[0]), evs[1..])
  }

  lemma {:induction false} RunConcat(op: Operator, st: State, a: seq<Event>, b: seq<Event>)
    ensures Run(op, st, a + b) == Run(op, Run(op, st, a), b)
    decreases |a|
  {
    hide Step;
    if a == [] {
      assert a + b == b;
    } else {
      assert (a + b)[0] == a[0] && (a + b)[1..] == a[1..] + b;
      RunConcat(op, Step(op, st, a[0]), a[1..], b);
    }
  }

  lemma RunOne(op: Operator, st: State, ev: Event)
    ensures Run(op, st, [ev]) == Step(op, st, ev)
  {
    hide Step;
    assert Run(op, Step(op, st, ev), [ev][1..]) == Step(op, st, ev);
  }

  /** An API server without clusters of ours, whatever objects it holds: where every run begins. */
  ghost predicate Initial(st: State) {
    && st.world.clusters == map[] && st.world.cache == map[] && st.world.pending == []
    && st.passes == map[]
  }

  /** One pass from its current call to its end, with every call served. */
  function Finish(op: Operator, st: State, k: Key, generated: Option<KeyPair>): State
    decreases if k in st.passes then Rank(st.passes[k].stage) + 1 else 0
  {
    if k !in st.passes then st
    else
      var p := st.passes[k];
      var (w', reply) := Serve(op, st.world, CallOf(op, p), Served);
      ResumeDescends(op, p, reply, generated);
      Finish(op, Step(op, st, Proceed(k, Served, generated)), k, generated)
  }

  function FullPass(op: Operator, st: State, k: Key, generated: Option<KeyPair>): State {
    Finish(op, Step(op, st, Start(k)), k, generated)
  }
}
