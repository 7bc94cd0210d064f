/** Retry convergence: passes cut off anywhere, then one pass with every call served, leave the same
    store as that pass alone; afterwards nothing changes any more but the cookie secret, and that
    exactly when a restart of the process has drawn another salt. */
module Convergence {
  import opened Wrappers
  import opened Kube
  import opened Objects
  import opened Operators
  import opened ApiServer
  import opened Protocol
  import opened AdmissionRuns
  import opened BindingSafety
  import opened Footprints
  import opened Closure
  import CaStability

  // ---------------------------------------------------------------- the goal of all passes

  /** Where KubeRay runs, as a pass finds it out. */
  function NamespacesOf(op: Operator, w: World): seq<string> {
    if op.openShift then
      if w.applicationsNamespace.Some? then [w.applicationsNamespace.value] else [ODH_NAMESPACE, RHDS_NAMESPACE]
    else [OperatorNamespace(w.pods)]
  }

  function OperatorNamespace(pods: seq<Pod>): string {
    if OperatorPods(pods) == [] then KUBERAY_DEFAULT_NAMESPACE else OperatorPods(pods)[0].namespace
  }

  /** What is fixed for a cluster: its version to begin with and with the finalizer added, the
      values that a pass of interest applies, the objects to begin with, the other clusters, and the
      salts that processes may draw. */
  datatype Base = Base(key: Key, start: RayCluster, goal: RayCluster, version: nat, locals: Locals,
                       objects: map<ObjectKey, Object>, others: map<Key, RayCluster>, salts: set<string>)

  /** The same with other values. */
  function At(b: Base, l: Locals): Base {
    b.(locals := l)
  }

  /** The pair a pass comes to hold: the stored one, or else the generated one. */
  function PairUsed(op: Operator, k: Key, objects: map<ObjectKey, Object>, generated: Option<KeyPair>): KeyPair {
    if CaStability.CaKey(op, k) in objects then PairOf(objects[CaStability.CaKey(op, k)])
    else generated.GetOr(KeyPair("", ""))
  }

  /** A pair is stored, or will be generated, if one is needed. */
  predicate CanPair(op: Operator, k: Key, objects: map<ObjectKey, Object>, generated: Option<KeyPair>) {
    op.mtls ==> CaStability.CaKey(op, k) in objects || generated.Some?
  }

  function GoalOf(start: RayCluster, version: nat): RayCluster {
    if start.meta.deleting || start.Guarded() then start
    else AddFinalizer(start).(meta := AddFinalizer(start).meta.(resourceVersion := version))
  }

  function BaseOf(op: Operator, k: Key, w: World, pair: KeyPair, salt: string, salts: set<string>): Base
    requires k in w.clusters
  {
    Base(k, w.clusters[k], GoalOf(w.clusters[k], w.nextVersion), w.nextVersion,
         Locals(pair, NamespacesOf(op, w), salt), w.objects, w.clusters - {k}, salts)
  }

  /** Idle, with the cache caught up, and not in the deletion branch. */
  ghost predicate Ready(op: Operator, k: Key, st: State) {
    var w := st.world;
    k !in st.passes && CaughtUp(w, k) && !(w.clusters[k].meta.deleting && w.clusters[k].Guarded())
  }

  ghost predicate CaughtUp(w: World, k: Key) {
    && k in w.clusters && k in w.cache && w.cache[k] == w.clusters[k]
    && forall i | 0 <= i < |w.pending| :: w.pending[i].key != k
  }

  /** The object of a part once the controller has applied it. */
  function Wanted(op: Operator, b: Base, part: Part): Object {
    ApplyTo(b.objects, KeyOf(op, b.key, part), ContentOf(op, b.goal, part, b.locals))[KeyOf(op, b.key, part)]
  }

  ghost predicate InPlace(op: Operator, b: Base, objects: map<ObjectKey, Object>, part: Part) {
    KeyOf(op, b.key, part) in objects && objects[KeyOf(op, b.key, part)] == Wanted(op, b, part)
  }

  ghost predicate Wants(op: Operator, b: Base, o: ObjectKey) {
    exists part :: Needed(op, b.goal, part) && o == KeyOf(op, b.key, part)
  }

  /** Values that a pass may apply, under whichever salt, and with whichever pair. */
  predicate Usable(b: Base, l: Locals) {
    l.kubeRayNamespaces == b.locals.kubeRayNamespaces && l.salt in b.salts
  }

  ghost predicate Touched(op: Operator, b: Base, objects: map<ObjectKey, Object>, part: Part) {
    exists l: Locals :: Usable(b, l) && InPlace(op, At(b, l), objects, part)
  }

  /** A pair stored to begin with is still stored. */
  ghost predicate PairPinned(op: Operator, b: Base, objects: map<ObjectKey, Object>) {
    var ca := CaStability.CaKey(op, b.key);
    ca in b.objects ==> ca in objects && PairOf(objects[ca]) == PairOf(b.objects[ca])
  }

  /** Some of the needed objects may have been applied; nothing else has changed. */
  ghost predicate Near(op: Operator, b: Base, objects: map<ObjectKey, Object>) {
    && (forall o :: Wants(op, b, o) || SameObject(b.objects, objects, o))
    && (forall part | Needed(op, b.goal, part) ::
          SameObject(b.objects, objects, KeyOf(op, b.key, part)) || Touched(op, b, objects, part))
  }

  /** All needed objects have been applied; nothing else has changed. */
  ghost predicate Complete(op: Operator, b: Base, objects: map<ObjectKey, Object>) {
    && (forall o :: Wants(op, b, o) || SameObject(b.objects, objects, o))
    && (forall part | Needed(op, b.goal, part) :: InPlace(op, b, objects, part))
  }

  lemma CompleteUnique(op: Operator, b: Base, x: map<ObjectKey, Object>, y: map<ObjectKey, Object>)
    requires Complete(op, b, x) && Complete(op, b, y)
    ensures x == y
  {
    hide Wanted, Needed;
    forall o ensures SameObject(x, y, o) {
      if Wants(op, b, o) {
        var part :| Needed(op, b.goal, part) && o == KeyOf(op, b.key, part);
        assert InPlace(op, b, x, part) && InPlace(op, b, y, part);
      } else {
        assert SameObject(b.objects, x, o) && SameObject(b.objects, y, o);
      }
    }
    assert x.Keys == y.Keys by {
      forall o ensures o in x.Keys <==> o in y.Keys { assert SameObject(x, y, o); }
    }
    forall o | o in x ensures x[o] == y[o] { assert SameObject(x, y, o); }
  }

  // ---------------------------------------------------------------- the invariant of partial passes

  ghost predicate ViewsNear(b: Base, w: World) {
    && b.key in w.clusters && w.clusters - {b.key} == b.others
    && (w.clusters[b.key] == b.goal || (w.clusters[b.key] == b.start && w.nextVersion == b.version))
    && b.key in w.cache && (w.cache[b.key] == b.start || w.cache[b.key] == b.goal)
    && forall i | 0 <= i < |w.pending| && w.pending[i].key == b.key ::
         w.pending[i].now == Some(b.start) || w.pending[i].now == Some(b.goal)
  }

  ghost predicate PassNear(op: Operator, b: Base, p: Pass) {
    && p.locals.salt in b.salts
    && if p.stage == AddingFinalizer then b.start != b.goal && p.cluster == AddFinalizer(b.start)
       else
         && Provisioning(p.stage) && StageFits(op, b.goal, p.stage) && p.cluster == b.goal
         && (p.stage == Applying(HeadPolicyPart) ==> p.locals.kubeRayNamespaces == b.locals.kubeRayNamespaces)
  }

  ghost predicate BaseFits(op: Operator, b: Base) {
    && b.start.Id() == b.key && !b.start.Legacy()
    && b.goal == GoalOf(b.start, b.version)
    && !(b.start.meta.deleting && b.start.Guarded())
    && b.start.meta.resourceVersion < b.version
    && Fixed(op, b.goal)
    && (b.start != b.goal ==> b.start.head.enableIngress != Some(true))
  }

  ghost predicate Core(op: Operator, b: Base, st: State) {
    && BaseFits(op, b)
    && ViewsNear(b, st.world)
    && NamespacesOf(op, st.world) == b.locals.kubeRayNamespaces
    && Near(op, b, st.world.objects)
    && st.salt in b.salts
    && (b.key in st.passes ==> PassNear(op, b, st.passes[b.key]))
  }

  ghost predicate Partial(op: Operator, b: Base, st: State) {
    && Tidy(op, st) && Core(op, b, st)
    && PairPinned(op, b, st.world.objects) && CaStability.PairFresh(op, b.key, st)
  }

  lemma GoalKeeps(b: Base)
    requires b.goal == GoalOf(b.start, b.version)
    ensures SubjectOf(b.goal) == SubjectOf(b.start) && b.goal.Suspended() == b.start.Suspended()
    ensures b.goal.Id() == b.start.Id() && b.goal.Ident() == b.start.Ident()
    ensures !b.goal.meta.deleting ==> b.goal.Guarded()
    ensures !(b.start.meta.deleting && b.start.Guarded()) ==> !(b.goal.meta.deleting && b.goal.Guarded())
    ensures b.start != b.goal ==> !b.start.Guarded() && !b.start.meta.deleting && b.goal.Guarded()
  {
    if !(b.start.meta.deleting || b.start.Guarded()) {
      assert b.goal.meta.finalizers[|b.start.meta.finalizers|] == OAUTH_FINALIZER;
    }
  }

  lemma BaseReady(op: Operator, k: Key, st: State, pair: KeyPair, salt: string, salts: set<string>)
    requires Tidy(op, st) && Ready(op, k, st) && st.salt in salts
    ensures Partial(op, BaseOf(op, k, st.world, pair, salt, salts), st)
  {
    hide Fixed, NamespacesOf, PairOf;
    var b := BaseOf(op, k, st.world, pair, salt, salts);
    assert ViewOf(st.world, k, b.start);
    GoalKeeps(b);
    FixedMeta(op, b.start, b.goal.meta);
    assert Near(op, b, st.world.objects);
  }

  // ---------------------------------------------------------------- one call of a provisioning pass

  /** Apart from the finalizer and the deletion branch, a pass writes objects and deletes pods. */
  lemma ServeProvision(op: Operator, w: World, p: Pass, outcome: Outcome)
    requires Provisioning(p.stage)
    ensures var (w', reply) := Serve(op, w, CallOf(op, p), outcome);
            && w'.clusters == w.clusters && w'.cache == w.cache && w'.pending == w.pending
            && w'.nextVersion == w.nextVersion && w'.applicationsNamespace == w.applicationsNamespace
            && (w'.pods == w.pods || w'.pods == Terminate(w.pods, p.podNamespace, p.podName))
            && (w'.objects == w.objects || p.stage.Applying?)
            && (p.stage.Applying? ==>
                  var applied := ApplyTo(w.objects, op.place(p.cluster.Ident(), p.stage.part),
                                         ContentOf(op, p.cluster, p.stage.part, p.locals));
                  w'.objects == applied || (w'.objects == w.objects && !reply.Done?))
  {
    hide HeadPods, OperatorPods, Update, ContentOf;
  }

  /** What the reading stages are told, if they are told anything. */
  lemma ServeReads(op: Operator, w: World, p: Pass, outcome: Outcome)
    requires Provisioning(p.stage)
    ensures var reply := Serve(op, w, CallOf(op, p), outcome).1;
            var ca := op.place(p.cluster.Ident(), CaSecretPart);
            && (p.stage == ReadingCa ==>
                reply.Failed? || (if ca in w.objects then reply == Found(w.objects[ca]) else reply.NotFound?))
            && (p.stage == ListingOperators && reply.Listed? ==> reply.pods == OperatorPods(w.pods))
            && (p.stage == ReadingApplications ==>
                  || reply.Failed?
                  || reply == (if w.applicationsNamespace.Some? then Applications(w.applicationsNamespace.value)
                               else NotFound))
  {
    hide HeadPods, OperatorPods, Update, ContentOf;
  }

  lemma {:induction false} SameOperators(a: seq<Pod>, b: seq<Pod>)
    requires |a| == |b|
    requires forall i | 0 <= i < |a| :: a[i].namespace == b[i].namespace && a[i].component == b[i].component
    ensures OperatorNamespace(a) == OperatorNamespace(b)
    ensures OperatorPods(a) == [] <==> OperatorPods(b) == []
  {
    if a != [] {
      SameOperators(a[1..], b[1..]);
    }
  }

  /** Applying over an applied object is applying once. */
  lemma AppliedAgain(op: Operator, b: Base, objects: map<ObjectKey, Object>, part: Part, l: Locals)
    requires SameObject(b.objects, objects, KeyOf(op, b.key, part)) || Touched(op, b, objects, part)
    ensures InPlace(op, At(b, l), ApplyTo(objects, KeyOf(op, b.key, part), ContentOf(op, b.goal, part, l)), part)
  {
    hide ContentOf, Usable;
    if !SameObject(b.objects, objects, KeyOf(op, b.key, part)) {
      var l' :| InPlace(op, At(b, l'), objects, part);
    }
  }

  /** One application: its object is in place, the others are as before. */
  lemma ApplyNear(op: Operator, b: Base, objects: map<ObjectKey, Object>, part: Part, l: Locals)
    requires Sound(op) && Near(op, b, objects) && Needed(op, b.goal, part) && Usable(b, l)
    ensures var objects' := ApplyTo(objects, KeyOf(op, b.key, part), ContentOf(op, b.goal, part, l));
            && Near(op, b, objects') && InPlace(op, At(b, l), objects', part)
            && forall q, l' | q != part && InPlace(op, At(b, l'), objects, q) :: InPlace(op, At(b, l'), objects', q)
  {
    hide Needed, SoundWebhook, SoundKinds, SoundCa, ContentOf, Wanted, Usable;
    var key := KeyOf(op, b.key, part);
    var objects' := ApplyTo(objects, key, ContentOf(op, b.goal, part, l));
    assert Wants(op, b, key);
    AppliedAgain(op, b, objects, part, l);
    forall o ensures o != key ==> SameObject(objects, objects', o) {}
    forall q | q != part ensures KeyOf(op, b.key, q) != key {
      assert op.place(IdOf(b.key), q) == KeyOf(op, b.key, q);
    }
    forall o ensures Wants(op, b, o) || SameObject(b.objects, objects', o) {
      assert Wants(op, b, o) || SameObject(b.objects, objects, o);
    }
    forall q, l' | q != part && InPlace(op, At(b, l'), objects, q) ensures InPlace(op, At(b, l'), objects', q) {
      assert SameObject(objects, objects', KeyOf(op, b.key, q));
    }
    forall q | Needed(op, b.goal, q)
      ensures SameObject(b.objects, objects', KeyOf(op, b.key, q)) || Touched(op, b, objects', q)
    {
      if q != part {
        assert SameObject(b.objects, objects, KeyOf(op, b.key, q)) || Touched(op, b, objects, q);
        assert SameObject(objects, objects', KeyOf(op, b.key, q));
      }
    }
  }

  /** The finalizer update: it succeeds once, and then never again. */
  lemma AddOnce(op: Operator, b: Base, w: World)
    requires Sound(op) && BaseFits(op, b) && b.start != b.goal && b.key in w.clusters
    requires w.clusters[b.key] == b.goal || (w.clusters[b.key] == b.start && w.nextVersion == b.version)
    ensures var (w', r) := Update(op, w, AddFinalizer(b.start));
            if w.clusters[b.key] == b.start
            then w' == PutCluster(w, b.goal) && r == Some(b.goal) && w'.clusters[b.key] == b.goal
            else w' == w && r == None
  {
    var c := AddFinalizer(b.start);
    GoalKeeps(b);
    assert c.Id() == b.key;
    if w.clusters[b.key] == b.start {
      assert c == b.goal.(meta := c.meta);
      assert op.defaulter(b.goal.(meta := c.meta)) == Some(b.goal.(meta := c.meta));
      assert c.(meta := c.meta.(deleting := false)) == c;
      assert DefaultedFrom(op, c, c);
    }
  }

  // ---------------------------------------------------------------- every step keeps the invariant

  lemma ProvisionNear(op: Operator, b: Base, p: Pass)
    requires p.cluster == b.goal && p.locals.salt in b.salts
    ensures var r := Provision(op, p); r.Continue? ==> PassNear(op, b, r.pass)
  {
  }

  lemma BeginNear(op: Operator, b: Base, c: RayCluster, salt: string)
    requires BaseFits(op, b) && (c == b.start || c == b.goal) && salt in b.salts
    ensures var r := Begin(op, c, salt); r.Continue? ==> PassNear(op, b, r.pass)
  {
    hide Provision, Fixed;
    GoalKeeps(b);
    if c.meta.deleting || c.Guarded() {
      ProvisionNear(op, b, NewPass(c, ListingOperators, salt));
    }
  }

  lemma NamespacesRead(op: Operator, p: Pass, reply: Reply, generated: Option<KeyPair>)
    ensures var r := Resume(op, p, reply, generated);
            r.Continue? && r.pass.stage == Applying(HeadPolicyPart) ==>
              var ns := r.pass.locals.kubeRayNamespaces;
              || (p.stage == ListingOperators && !op.openShift && reply.Listed?
                  && ns == [if reply.pods == [] then KUBERAY_DEFAULT_NAMESPACE else reply.pods[0].namespace])
              || (p.stage == ReadingApplications && (reply.Applications? || reply.NotFound?)
                  && ns == if reply.Applications? then [reply.namespace] else [ODH_NAMESPACE, RHDS_NAMESPACE])
  {
    hide PairOf, MissingSecrets;
  }

  lemma ResumeNear(op: Operator, b: Base, w: World, p: Pass, outcome: Outcome, generated: Option<KeyPair>)
    requires BaseFits(op, b) && NamespacesOf(op, w) == b.locals.kubeRayNamespaces
    requires Provisioning(p.stage) && PassNear(op, b, p)
    ensures var reply := Serve(op, w, CallOf(op, p), outcome).1;
            var r := Resume(op, p, reply, generated);
            r.Continue? ==> PassNear(op, b, r.pass)
  {
    hide Resume, Serve, CallOf, Fixed, GoalOf, PairOf, SubjectOf;
    var reply := Serve(op, w, CallOf(op, p), outcome).1;
    StagesFit(op, p, reply, generated);
    NamespacesRead(op, p, reply, generated);
    ServeReads(op, w, p, outcome);
    GoalKeeps(b);
  }

  /** The values a pass applies; it knows the namespaces once they matter. */
  function ValuesOf(b: Base, p: Pass): Locals {
    p.locals.(kubeRayNamespaces := b.locals.kubeRayNamespaces)
  }

  lemma SameContent(op: Operator, b: Base, p: Pass, part: Part)
    requires p.stage == Applying(part) && PassNear(op, b, p)
    ensures ContentOf(op, p.cluster, part, p.locals) == ContentOf(op, b.goal, part, ValuesOf(b, p))
    ensures Usable(b, ValuesOf(b, p))
  {
  }

  /** What a call of a provisioning pass does to the objects. */
  lemma ObjectsNear(op: Operator, b: Base, w: World, p: Pass, outcome: Outcome)
    requires Sound(op) && BaseFits(op, b) && Near(op, b, w.objects)
    requires Provisioning(p.stage) && PassNear(op, b, p)
    ensures var (w', reply) := Serve(op, w, CallOf(op, p), outcome);
            && Near(op, b, w'.objects)
            && (forall q, l | p.stage != Applying(q) && InPlace(op, At(b, l), w.objects, q) ::
                InPlace(op, At(b, l), w'.objects, q))
            && (p.stage.Applying? && reply.Done? ==> InPlace(op, At(b, ValuesOf(b, p)), w'.objects, p.stage.part))
  {
    hide Serve, CallOf, Sound, Near, Fixed, GoalOf, ContentOf, InPlace, Needed, SubjectOf, Usable;
    ServeProvision(op, w, p, outcome);
    GoalKeeps(b);
    if p.stage.Applying? {
      SameContent(op, b, p, p.stage.part);
      ApplyNear(op, b, w.objects, p.stage.part, ValuesOf(b, p));
    }
  }

  lemma NamespacesKept(op: Operator, w: World, p: Pass, outcome: Outcome)
    requires Provisioning(p.stage)
    ensures NamespacesOf(op, Serve(op, w, CallOf(op, p), outcome).0) == NamespacesOf(op, w)
  {
    hide Serve, CallOf;
    ServeProvision(op, w, p, outcome);
    SameOperators(w.pods, Serve(op, w, CallOf(op, p), outcome).0.pods);
  }

  lemma SameNamespaces(op: Operator, w: World, w': World)
    requires w'.pods == w.pods && w'.applicationsNamespace == w.applicationsNamespace
    ensures NamespacesOf(op, w') == NamespacesOf(op, w)
  {
  }

  /** The call that adds the finalizer. */
  lemma AddingNear(op: Operator, b: Base, w: World, p: Pass, outcome: Outcome)
    requires Sound(op) && BaseFits(op, b) && ViewsNear(b, w)
    requires p.stage == AddingFinalizer && PassNear(op, b, p)
    ensures var (w', reply) := Serve(op, w, CallOf(op, p), outcome);
            && w'.objects == w.objects && w'.pods == w.pods && w'.applicationsNamespace == w.applicationsNamespace
            && ViewsNear(b, w')
            && (reply.Updated? ==> reply.cluster == b.goal && w'.clusters[b.key] == b.goal)
            && (w.clusters[b.key] == b.goal ==> w'.clusters[b.key] == b.goal)
            && (outcome == Served && w.clusters[b.key] == b.start ==> reply.Updated?)
            && (!reply.Updated? ==> reply.Failed?)
  {
    hide Update, Sound, BaseFits, GoalOf;
    AddOnce(op, b, w);
    UpdateTouches(op, w, AddFinalizer(b.start));
    assert b.goal.Id() == b.key by { BaseKeys(op, b); }
  }

  lemma BaseKeys(op: Operator, b: Base)
    requires BaseFits(op, b)
    ensures b.goal.Id() == b.key && b.goal.Ident() == IdOf(b.key)
  {
    GoalKeeps(b);
  }

  /** The finalizer, once stored, stays. */
  ghost predicate GuardStays(b: Base, st: State, st': State) {
    b.key in st.world.clusters && st.world.clusters[b.key] == b.goal ==>
      b.key in st'.world.clusters && st'.world.clusters[b.key] == b.goal
  }

  lemma CoreProceed(op: Operator, b: Base, st: State, outcome: Outcome, generated: Option<KeyPair>)
    requires Sound(op) && Core(op, b, st) && b.key in st.passes
    ensures var st' := Step(op, st, Proceed(b.key, outcome, generated));
            Core(op, b, st') && GuardStays(b, st, st')
  {
    hide Serve, CallOf, Resume, Sound, BaseFits, Near, NamespacesOf;
    var p := st.passes[b.key];
    var w := st.world;
    var (w', reply) := Serve(op, w, CallOf(op, p), outcome);
    if p.stage == AddingFinalizer {
      AddingNear(op, b, w, p, outcome);
      ResumeOther(op, p, reply, generated);
      ProvisionNear(op, b, p.(cluster := b.goal));
      SameNamespaces(op, w, w');
    } else {
      ServeProvision(op, w, p, outcome);
      ObjectsNear(op, b, w, p, outcome);
      ResumeNear(op, b, w, p, outcome, generated);
      NamespacesKept(op, w, p, outcome);
    }
  }

  /** The steps of passes for one cluster, with restarts that draw one of the given salts. */
  predicate SoloSalted(b: Base, ev: Event) {
    Solo(b.key, ev) && (ev.Restart? ==> ev.salt in b.salts)
  }

  lemma CoreStep(op: Operator, b: Base, st: State, ev: Event)
    requires Sound(op) && Core(op, b, st) && SoloSalted(b, ev)
    ensures Core(op, b, Step(op, st, ev)) && GuardStays(b, st, Step(op, st, ev))
  {
    hide Begin, Serve, CallOf, Resume, Sound, BaseFits, Near, PassNear;
    match ev
    case Start(k) => if k !in st.passes { BeginNear(op, b, st.world.cache[k], st.salt); }
    case Proceed(k, outcome, generated) => if k in st.passes { CoreProceed(op, b, st, outcome, generated); }
    case Restart(_) =>
    case DeliverChange =>
  }

  lemma PartialStep(op: Operator, b: Base, st: State, ev: Event)
    requires Sound(op) && Partial(op, b, st) && SoloSalted(b, ev)
    ensures Partial(op, b, Step(op, st, ev)) && GuardStays(b, st, Step(op, st, ev))
  {
    hide Step, Tidy, Core, Sound, CaStability.PairFresh, GuardStays;
    CoreStep(op, b, st, ev);
    CaStability.CaStep(op, b.key, st, ev);
  }

  lemma {:induction false} PartialRun(op: Operator, b: Base, st: State, evs: seq<Event>)
    requires Sound(op) && Partial(op, b, st)
    requires forall i | 0 <= i < |evs| :: SoloSalted(b, evs[i])
    ensures Partial(op, b, Run(op, st, evs)) && GuardStays(b, st, Run(op, st, evs))
    decreases |evs|
  {
    hide Step, Sound, Partial;
    if evs != [] {
      PartialStep(op, b, st, evs[0]);
      PartialRun(op, b, Step(op, st, evs[0]), evs[1..]);
    }
  }

  // ---------------------------------------------------------------- a pass with every call served

  /** Whether the configuration lets a pass get to its end. */
  predicate Succeeds(op: Operator, c: RayCluster) {
    !IngressBranch(op, c) || op.hasIngressDomain
  }

  /** A served reply that takes the pass on. */
  predicate Answers(stage: Stage, reply: Reply, generated: Option<KeyPair>) {
    match stage
    case AddingFinalizer => reply.Updated?
    case DeletingBinding => reply.Done? || reply.NotFound?
    case RemovingFinalizer => reply.Updated?
    case ReadingCa => reply.Found? || (reply.NotFound? && generated.Some?)
    case Applying(_) => reply.Done?
    case ReadingAccount => reply.Found?
    case ListingHeadPods => reply.Listed?
    case DeletingHeadPod => reply.Done?
    case ListingOperators => reply.Listed?
    case ReadingApplications => reply.Applications? || reply.NotFound?
  }

  /** The pair that the pass will come to hold is the one of the base. */
  predicate PairReady(op: Operator, b: Base, objects: map<ObjectKey, Object>, generated: Option<KeyPair>) {
    op.mtls ==> CanPair(op, b.key, objects, generated) && PairUsed(op, b.key, objects, generated) == b.locals.pair
  }

  /** Every needed object whose turn has passed is applied, with the values of the base. */
  ghost predicate OnTrack(op: Operator, b: Base, w: World, p: Pass, generated: Option<KeyPair>) {
    && b.key in w.clusters && w.clusters[b.key] == (if p.stage == AddingFinalizer then b.start else b.goal)
    && (forall part | Needed(op, b.goal, part) && Rank(Applying(part)) > Rank(p.stage) ::
        InPlace(op, b, w.objects, part))
    && (p.stage == DeletingHeadPod ==> Victim(w.pods, p))
    && p.locals.salt == b.locals.salt
    && (p.stage == AddingFinalizer || p.stage == ReadingCa ==> PairReady(op, b, w.objects, generated))
    && (p.stage == Applying(CaSecretPart) ==> p.locals.pair == b.locals.pair)
  }

  ghost predicate Reached(op: Operator, b: Base, st: State, generated: Option<KeyPair>) {
    && Partial(op, b, st) && st.salt == b.locals.salt
    && if b.key in st.passes then OnTrack(op, b, st.world, st.passes[b.key], generated)
       else
         && st.world.clusters[b.key] == b.goal
         && Complete(op, b, st.world.objects)
         && b.key in st.returned && st.returned[b.key] == Succeeds(op, b.goal)
  }

  ghost predicate Victim(pods: seq<Pod>, p: Pass) {
    exists x | x in pods :: IsPod(x, p.podNamespace, p.podName)
  }

  lemma ResumeAnswered(op: Operator, p: Pass, reply: Reply, generated: Option<KeyPair>)
    requires Provisioning(p.stage) && StageFits(op, p.cluster, p.stage) && Answers(p.stage, reply, generated)
    ensures var r := Resume(op, p, reply, generated);
            && (r.Continue? ==> Leads(op, p.cluster, p.stage, r.pass.stage) && r.pass.stage != ReadingCa)
            && (r.Return? ==>
                  && r.ok == Succeeds(op, p.cluster)
                  && forall part :: Needed(op, p.cluster, part) && Rank(Applying(part)) <= Rank(p.stage) ==>
                      p.stage == Applying(part))
  {
    hide PairOf, MissingSecrets, Leads;
    NoneSkipped(op, p, reply, generated);
  }

  lemma ProvisionReached(op: Operator, p: Pass)
    ensures var r := Provision(op, p);
            && (r.Continue? ==>
                  && r.pass.stage != DeletingHeadPod && r.pass.stage != Applying(CaSecretPart)
                  && (r.pass.stage == ReadingCa ==> op.mtls) && r.pass.locals == p.locals
                  && forall part :: Needed(op, p.cluster, part) ==> Rank(Applying(part)) <= Rank(r.pass.stage))
            && (r.Return? ==> r.ok == Succeeds(op, p.cluster) && forall part :: !Needed(op, p.cluster, part))
  {
  }

  lemma NothingWanted(op: Operator, b: Base, objects: map<ObjectKey, Object>)
    requires Near(op, b, objects) && forall part | Needed(op, b.goal, part) :: InPlace(op, b, objects, part)
    ensures Complete(op, b, objects)
  {
  }

  lemma StartReached(op: Operator, b: Base, st: State, generated: Option<KeyPair>)
    requires Sound(op) && Partial(op, b, st) && b.key !in st.passes && CaughtUp(st.world, b.key)
    requires st.salt == b.locals.salt && PairReady(op, b, st.world.objects, generated)
    ensures Reached(op, b, Step(op, st, Start(b.key)), generated)
  {
    hide Begin, Sound, Near, Needed, InPlace, Complete, GoalOf, Tidy, PairReady, PairPinned, CaStability.PairFresh;
    hide BaseFits, PassNear, NamespacesOf;
    PartialStep(op, b, st, Start(b.key));
    StartOnTrack(op, b, st.world, st.salt, generated);
    var r := Begin(op, st.world.cache[b.key], st.salt);
    if r.Return? { NothingWanted(op, b, st.world.objects); }
  }

  /** Where a pass begins that reads the stored version. */
  lemma StartOnTrack(op: Operator, b: Base, w: World, salt: string, generated: Option<KeyPair>)
    requires BaseFits(op, b) && ViewsNear(b, w) && w.cache[b.key] == w.clusters[b.key]
    requires salt == b.locals.salt && PairReady(op, b, w.objects, generated)
    ensures var r := Begin(op, w.cache[b.key], salt);
            && (r.Continue? ==> OnTrack(op, b, w, r.pass, generated))
            && (r.Return? ==>
                  && w.clusters[b.key] == b.goal && r.ok == Succeeds(op, b.goal)
                  && forall part :: !Needed(op, b.goal, part))
  {
    hide Provision, Needed, InPlace, GoalOf, PairReady, Fixed, Succeeds;
    GoalKeeps(b);
    var c := w.cache[b.key];
    if c.meta.deleting || c.Guarded() {
      var p := NewPass(c, ListingOperators, salt);
      ProvisionReached(op, p);
      ProvisionFresh(op, p, b.key, w.objects);
    }
  }

  /** Every call of an uninterrupted pass is answered. */
  lemma ServedAnswers(op: Operator, b: Base, st: State, generated: Option<KeyPair>)
    requires Sound(op) && Reached(op, b, st, generated) && b.key in st.passes && Provisioning(st.passes[b.key].stage)
    ensures var p := st.passes[b.key]; Answers(p.stage, Serve(op, st.world, CallOf(op, p), Served).1, generated)
  {
    hide HeadPods, OperatorPods, Update, ContentOf, Near, Sound;
    hide GoalOf, PairOf, Wanted, Tidy, PairPinned, CaStability.PairFresh;
    var p := st.passes[b.key];
    BaseKeys(op, b);
    if p.stage == ReadingAccount { assert InPlace(op, b, st.world.objects, OAuthAccountPart); }
    if p.stage == DeletingHeadPod { assert exists x :: x in st.world.pods && IsPod(x, p.podNamespace, p.podName); }
  }

  /** A pass that is ready for the pair of the base comes to hold it. */
  lemma PairRead(op: Operator, b: Base, w: World, p: Pass, generated: Option<KeyPair>)
    requires BaseFits(op, b) && PassNear(op, b, p) && Provisioning(p.stage)
    requires p.stage == ReadingCa ==> PairReady(op, b, w.objects, generated)
    ensures var r := Resume(op, p, Serve(op, w, CallOf(op, p), Served).1, generated);
            r.Continue? && r.pass.stage == Applying(CaSecretPart) ==> r.pass.locals.pair == b.locals.pair
  {
    hide Resume, Serve, CallOf, PairOf, GoalOf, Fixed;
    CaStability.ReadPair(op, p, Serve(op, w, CallOf(op, p), Served).1, generated);
    ServeReads(op, w, p, Served);
    BaseKeys(op, b);
  }

  lemma VictimFound(op: Operator, w: World, p: Pass, generated: Option<KeyPair>)
    requires p.stage == ListingHeadPods
    ensures var (w', reply) := Serve(op, w, CallOf(op, p), Served);
            var r := Resume(op, p, reply, generated);
            r.Continue? && r.pass.stage == DeletingHeadPod ==> Victim(w'.pods, r.pass)
  {
    hide Serve, CallOf, Resume, HeadPods;
    var reply := Serve(op, w, CallOf(op, p), Served).1;
    VictimListed(op, p, reply, generated);
    PodReplies(op, w, p, Served);
    HeadPodsListed(w.pods, p.cluster.Id());
    if reply.Listed? && reply.pods != [] { assert reply.pods[0] in reply.pods; }
  }

  lemma AddedReached(op: Operator, b: Base, st: State, generated: Option<KeyPair>)
    requires Sound(op) && Reached(op, b, st, generated) && b.key in st.passes
        && st.passes[b.key].stage == AddingFinalizer
    ensures Reached(op, b, Step(op, st, Proceed(b.key, Served, generated)), generated)
  {
    hide Serve, CallOf, Resume, Provision, Sound, BaseFits, Near;
    hide NamespacesOf, InPlace, Needed, Complete, PairReady, Tidy;
    hide PairPinned, CaStability.PairFresh;
    PartialStep(op, b, st, Proceed(b.key, Served, generated));
    var p := st.passes[b.key];
    var (w', reply) := Serve(op, st.world, CallOf(op, p), Served);
    AddingNear(op, b, st.world, p, Served);
    ResumeOther(op, p, reply, generated);
    var next := p.(cluster := b.goal);
    ProvisionReached(op, next);
    ProvisionFresh(op, next, b.key, w'.objects);
    if Provision(op, next).Return? { NothingWanted(op, b, w'.objects); }
  }

  lemma BaseValues(op: Operator, b: Base, p: Pass, objects: map<ObjectKey, Object>, part: Part)
    requires p.stage == Applying(part) && p.locals.salt == b.locals.salt
    requires part.CaSecretPart? ==> p.locals.pair == b.locals.pair
    requires InPlace(op, At(b, ValuesOf(b, p)), objects, part)
    ensures InPlace(op, b, objects, part)
  {
  }

  lemma ServedOnTrack(op: Operator, b: Base, st: State, generated: Option<KeyPair>)
    requires Sound(op) && Reached(op, b, st, generated) && b.key in st.passes && Provisioning(st.passes[b.key].stage)
    ensures var p := st.passes[b.key];
            var w' := Serve(op, st.world, CallOf(op, p), Served).0;
            forall part | Needed(op, b.goal, part)
                          && (Rank(Applying(part)) > Rank(p.stage) || p.stage == Applying(part)) ::
              InPlace(op, b, w'.objects, part)
  {
    hide Serve, CallOf, Sound, BaseFits, Near, NamespacesOf, InPlace;
    hide Needed, Complete, PairReady, Tidy, PairPinned, CaStability.PairFresh;
    var p := st.passes[b.key];
    var w' := Serve(op, st.world, CallOf(op, p), Served).0;
    ServedAnswers(op, b, st, generated);
    ObjectsNear(op, b, st.world, p, Served);
    assert At(b, b.locals) == b;
    if p.stage.Applying? { BaseValues(op, b, p, w'.objects, p.stage.part); }
    forall part | Needed(op, b.goal, part) && Rank(Applying(part)) > Rank(p.stage)
      ensures InPlace(op, b, w'.objects, part)
    {
      assert InPlace(op, At(b, b.locals), st.world.objects, part);
    }
  }

  lemma ServedReached(op: Operator, b: Base, st: State, generated: Option<KeyPair>)
    requires Sound(op) && Reached(op, b, st, generated) && b.key in st.passes && Provisioning(st.passes[b.key].stage)
    ensures Reached(op, b, Step(op, st, Proceed(b.key, Served, generated)), generated)
  {
    hide Serve, CallOf, Resume, Sound, BaseFits, Near, NamespacesOf, InPlace, Needed, Complete, PairReady, Tidy;
    hide PairPinned, CaStability.PairFresh;
    PartialStep(op, b, st, Proceed(b.key, Served, generated));
    var p := st.passes[b.key];
    var (w', reply) := Serve(op, st.world, CallOf(op, p), Served);
    ServedAnswers(op, b, st, generated);
    ServeProvision(op, st.world, p, Served);
    ServedOnTrack(op, b, st, generated);
    ResumeAnswered(op, p, reply, generated);
    StagesFit(op, p, reply, generated);
    VictimListed(op, p, reply, generated);
    PairRead(op, b, st.world, p, generated);
    if p.stage == ListingHeadPods { VictimFound(op, st.world, p, generated); }
    if Resume(op, p, reply, generated).Return? { NothingWanted(op, b, w'.objects); }
  }

  lemma {:induction false} FinishReached(op: Operator, b: Base, st: State, generated: Option<KeyPair>)
    requires Sound(op) && Reached(op, b, st, generated)
    ensures var done := Finish(op, st, b.key, generated); Reached(op, b, done, generated) && b.key !in done.passes
    decreases if b.key in st.passes then Rank(st.passes[b.key].stage) + 1 else 0
  {
    hide Serve, CallOf, Resume, Sound, BaseFits, ViewsNear, Near, Complete, Rank, InPlace, Needed, Tidy, OnTrack;
    hide PairPinned, CaStability.PairFresh;
    if b.key in st.passes {
      var p := st.passes[b.key];
      ResumeDescends(op, p, Serve(op, st.world, CallOf(op, p), Served).1, generated);
      if p.stage == AddingFinalizer {
        AddedReached(op, b, st, generated);
      } else {
        ServedReached(op, b, st, generated);
      }
      FinishReached(op, b, Step(op, st, Proceed(b.key, Served, generated)), generated);
    }
  }

  lemma FullPassReached(op: Operator, b: Base, st: State, generated: Option<KeyPair>)
    requires Sound(op) && Partial(op, b, st) && b.key !in st.passes && CaughtUp(st.world, b.key)
    requires st.salt == b.locals.salt && PairReady(op, b, st.world.objects, generated)
    ensures var done := FullPass(op, st, b.key, generated); Reached(op, b, done, generated) && b.key !in done.passes
  {
    hide Sound, Partial, Reached, Step, PairReady;
    StartReached(op, b, st, generated);
    FinishReached(op, b, Step(op, st, Start(b.key)), generated);
  }

  // ---------------------------------------------------------------- the theorems

  ghost predicate SoloEvents(k: Key, evs: seq<Event>) {
    forall i | 0 <= i < |evs| :: Solo(k, evs[i])
  }

  /** Between passes, with the cache caught up. */
  ghost predicate Resting(k: Key, st: State) {
    k !in st.passes && CaughtUp(st.world, k)
  }

  /** Same clusters, same objects, and the last pass ended alike. */
  ghost predicate SameStore(k: Key, x: State, y: State) {
    && x.world.objects == y.world.objects && x.world.clusters == y.world.clusters
    && k in x.returned && k in y.returned && x.returned[k] == y.returned[k]
  }

  /** The salts of all processes of a run. */
  function SaltsOf(salt: string, evs: seq<Event>): set<string>
    decreases |evs|
  {
    {salt} + (if evs == [] then {} else SaltsOf(if evs[0].Restart? then evs[0].salt else salt, evs[1..]))
  }

  lemma {:induction false} SaltsCover(op: Operator, k: Key, st: State, evs: seq<Event>)
    requires SoloEvents(k, evs)
    ensures Run(op, st, evs).salt in SaltsOf(st.salt, evs) && st.salt in SaltsOf(st.salt, evs)
    ensures forall i | 0 <= i < |evs| && evs[i].Restart? :: evs[i].salt in SaltsOf(st.salt, evs)
    decreases |evs|
  {
    hide Serve, CallOf, Resume, Begin;
    if evs != [] {
      SaltsCover(op, k, Step(op, st, evs[0]), evs[1..]);
      forall i | 0 <= i < |evs| && evs[i].Restart? ensures evs[i].salt in SaltsOf(st.salt, evs) {
        if i > 0 { assert evs[1..][i - 1] == evs[i]; }
      }
    }
  }

  lemma SaltedRun(op: Operator, b: Base, st: State, evs: seq<Event>)
    requires Sound(op) && Partial(op, b, st) && SoloEvents(b.key, evs) && SaltsOf(st.salt, evs) <= b.salts
    ensures Partial(op, b, Run(op, st, evs)) && GuardStays(b, st, Run(op, st, evs))
  {
    hide Run, Partial, Solo, GuardStays, Sound;
    SaltsCover(op, b.key, st, evs);
    forall i | 0 <= i < |evs| ensures SoloSalted(b, evs[i]) {}
    PartialRun(op, b, st, evs);
  }

  lemma ReachedSame(op: Operator, b: Base, x: State, gx: Option<KeyPair>, y: State, gy: Option<KeyPair>)
    requires Reached(op, b, x, gx) && Reached(op, b, y, gy) && b.key !in x.passes && b.key !in y.passes
    ensures SameStore(b.key, x, y)
  {
    hide Partial, Complete;
    CompleteUnique(op, b, x.world.objects, y.world.objects);
    PartialViews(op, b, x);
    PartialViews(op, b, y);
    SameClusters(b.key, x.world.clusters, y.world.clusters);
  }

  lemma PartialViews(op: Operator, b: Base, st: State)
    requires Partial(op, b, st)
    ensures ViewsNear(b, st.world) && PairPinned(op, b, st.world.objects)
  {
  }

  lemma SameClusters(k: Key, x: map<Key, RayCluster>, y: map<Key, RayCluster>)
    requires k in x && k in y && x[k] == y[k] && x - {k} == y - {k}
    ensures x == y
  {
    assert x == (x - {k})[k := x[k]];
    assert y == (y - {k})[k := y[k]];
  }

  /** What one pass with every call served leaves, the first one of a new cluster included: each needed
      object, policies included, with its applied fields replaced and the fields of others kept;
      nothing else is touched; the cluster carries the finalizer unless it is being deleted; the
      error is nil unless the configuration lacks an ingress domain it needs. */
  lemma ServedPassOutcome(op: Operator, k: Key, st: State, generated: Option<KeyPair>)
    requires Sound(op) && Tidy(op, st) && Ready(op, k, st) && CanPair(op, k, st.world.objects, generated)
    ensures var b := BaseOf(op, k, st.world, PairUsed(op, k, st.world.objects, generated), st.salt, {st.salt});
            var after := FullPass(op, st, k, generated);
            && Complete(op, b, after.world.objects)
            && after.world.clusters == st.world.clusters[k := b.goal]
            && k !in after.passes && k in after.returned && after.returned[k] == Succeeds(op, b.goal)
            && (b.goal.meta.deleting || b.goal.Guarded())
  {
    hide Sound, Complete, FullPass;
    var b := BaseOf(op, k, st.world, PairUsed(op, k, st.world.objects, generated), st.salt, {st.salt});
    BaseReady(op, k, st, b.locals.pair, st.salt, b.salts);
    GoalKeeps(b);
    FullPassReached(op, b, st, generated);
    var after := FullPass(op, st, k, generated);
    PartialViews(op, b, after);
    assert st.world.clusters[k := b.goal] - {k} == st.world.clusters - {k};
    SameClusters(k, after.world.clusters, st.world.clusters[k := b.goal]);
  }

  /** Passes that fail or are killed at arbitrary calls, under processes with arbitrary salts, with
      calls refused or their responses lost and with a lagging cache in between, then one pass with
      every call served: the store is the one that such a pass alone leaves under the salt of the
      last process, and it ends alike. If no CA pair was stored to begin with, this holds up to the
      pair: of all generated ones, the lone pass is given the one that the passes have come to use. */
  lemma RetryConvergence(op: Operator, k: Key, st: State, evs: seq<Event>, alone: Option<KeyPair>,
                         generated: Option<KeyPair>)
    requires Sound(op) && Tidy(op, st) && Ready(op, k, st)
    requires SoloEvents(k, evs) && Resting(k, Run(op, st, evs))
    requires CanPair(op, k, Run(op, st, evs).world.objects, generated)
    requires op.mtls && CaStability.CaKey(op, k) !in st.world.objects ==>
               alone == Some(PairUsed(op, k, Run(op, st, evs).world.objects, generated))
    ensures var mid := Run(op, st, evs);
            SameStore(k, FullPass(op, st.(salt := mid.salt), k, alone), FullPass(op, mid, k, generated))
  {
    hide Run, FullPass, Sound, Reached, Partial, Solo, SameStore, PairOf;
    var mid := Run(op, st, evs);
    var salts := SaltsOf(st.salt, evs);
    var b := BaseOf(op, k, st.world, PairUsed(op, k, mid.world.objects, generated), mid.salt, salts);
    SaltsCover(op, k, st, evs);
    BaseReady(op, k, st, b.locals.pair, mid.salt, salts);
    SaltedRun(op, b, st, evs);
    PartialViews(op, b, mid);
    BaseReady(op, k, st.(salt := mid.salt), b.locals.pair, mid.salt, salts);
    FullPassReached(op, b, st.(salt := mid.salt), alone);
    FullPassReached(op, b, mid, generated);
    ReachedSame(op, b, FullPass(op, st.(salt := mid.salt), k, alone), alone, FullPass(op, mid, k, generated),
        generated);
  }

  // ---------------------------------------------------------------- after a served pass

  /** The cookie secret a pass applies under a salt. */
  function CookieOf(op: Operator, c: RayCluster, salt: string): Applied {
    ContentOf(op, c, OAuthSecretPart, NO_LOCALS.(salt := salt))
  }

  /** Passes under one salt and under the other apply the same cookie, if they apply one at all. */
  predicate CookieKept(op: Operator, c: RayCluster, salt: string, salt': string) {
    OAuthBranch(op, c) ==> CookieOf(op, c, salt) == CookieOf(op, c, salt')
  }

  /** The reached store as a base of its own. */
  function Rebased(b: Base, st: State, salt: string, salts: set<string>): Base {
    b.(objects := st.world.objects, locals := b.locals.(salt := salt), salts := salts)
  }

  /** What an object in place would be, were it applied again with other values. */
  lemma WantedAgain(op: Operator, b: Base, st: State, part: Part, l: Locals, salt: string, salts: set<string>)
    requires InPlace(op, b, st.world.objects, part)
    ensures var o := st.world.objects[KeyOf(op, b.key, part)];
            && o.applied == ContentOf(op, b.goal, part, b.locals)
            && Wanted(op, At(Rebased(b, st, salt, salts), l), part) == o.(applied := ContentOf(op, b.goal, part, l))
  {
    hide ContentOf;
  }

  lemma RebasedPartial(op: Operator, b: Base, st: State, generated: Option<KeyPair>, salt: string, salts: set<string>)
    requires Sound(op) && Reached(op, b, st, generated) && b.key !in st.passes && st.salt in salts
    ensures Partial(op, Rebased(b, st, salt, salts), st)
    ensures op.mtls ==> CaStability.CaKey(op, b.key) in st.world.objects
                        && PairOf(st.world.objects[CaStability.CaKey(op, b.key)]) == b.locals.pair
  {
    hide Fixed, NamespacesOf, GoalOf, PairOf, Tidy, SoundWebhook, SoundPlaces, SoundKinds;
    var b' := Rebased(b, st, salt, salts);
    assert Near(op, b', st.world.objects);
    if op.mtls {
      assert Needed(op, b.goal, CaSecretPart);
      assert InPlace(op, b, st.world.objects, CaSecretPart);
      WantedAgain(op, b, st, CaSecretPart, b.locals, salt, salts);
    }
  }

  /** Values that can differ between passes matter for the CA secret and the cookie secret only. */
  lemma SameValues(op: Operator, c: RayCluster, part: Part, l: Locals, l': Locals)
    requires l.kubeRayNamespaces == l'.kubeRayNamespaces
    requires part.CaSecretPart? ==> l.pair == l'.pair
    requires part.OAuthSecretPart? ==> CookieOf(op, c, l.salt) == CookieOf(op, c, l'.salt)
    ensures ContentOf(op, c, part, l) == ContentOf(op, c, part, l')
  {
  }

  /** An object touched again under a salt with the same cookie has not changed. */
  lemma TouchedSame(op: Operator, b: Base, st: State, generated: Option<KeyPair>, salts: set<string>,
                    objects: map<ObjectKey, Object>, part: Part)
    requires Sound(op) && Reached(op, b, st, generated) && b.key !in st.passes && Needed(op, b.goal, part)
    requires forall salt | salt in salts :: CookieKept(op, b.goal, st.salt, salt)
    requires var b' := Rebased(b, st, st.salt, salts); Touched(op, b', objects, part) && PairPinned(op, b', objects)
    ensures SameObject(st.world.objects, objects, KeyOf(op, b.key, part))
  {
    hide ContentOf, CookieOf, PairOf, Partial, SoundWebhook, SoundPlaces, SoundKinds;
    var b' := Rebased(b, st, st.salt, salts);
    var l :| Usable(b', l) && InPlace(op, At(b', l), objects, part);
    assert InPlace(op, b, st.world.objects, part);
    WantedAgain(op, b, st, part, l, st.salt, salts);
    if part.CaSecretPart? {
      PairApplied(op, b.goal, l, st.world.objects[KeyOf(op, b.key, part)]);
      PairApplied(op, b.goal, b.locals, st.world.objects[KeyOf(op, b.key, part)]);
    }
    SameValues(op, b.goal, part, l, b.locals);
  }

  lemma PairApplied(op: Operator, c: RayCluster, l: Locals, o: Object)
    requires Sound(op)
    ensures PairOf(o.(applied := ContentOf(op, c, CaSecretPart, l))) == l.pair
  {
    hide PairOf, SoundWebhook, SoundPlaces, SoundKinds;
  }

  lemma NothingMoves(op: Operator, b: Base, st: State, generated: Option<KeyPair>, salts: set<string>,
                     objects: map<ObjectKey, Object>)
    requires Sound(op) && Reached(op, b, st, generated) && b.key !in st.passes
    requires forall salt | salt in salts :: CookieKept(op, b.goal, st.salt, salt)
    requires var b' := Rebased(b, st, st.salt, salts); Near(op, b', objects) && PairPinned(op, b', objects)
    ensures objects == st.world.objects
  {
    hide Needed, Wanted, Sound, Reached, CookieKept, PairPinned, Touched;
    var b' := Rebased(b, st, st.salt, salts);
    var x := st.world.objects;
    forall o ensures SameObject(x, objects, o) {
      if Wants(op, b', o) {
        var part :| Needed(op, b'.goal, part) && o == KeyOf(op, b'.key, part);
        if !SameObject(x, objects, o) { TouchedSame(op, b, st, generated, salts, objects, part); }
      }
    }
    assert x.Keys == objects.Keys by {
      forall o ensures o in x.Keys <==> o in objects.Keys { assert SameObject(x, objects, o); }
    }
    forall o | o in x ensures x[o] == objects[o] { assert SameObject(x, objects, o); }
  }

  /** After one pass with every call served, later passes, complete or cut off anywhere, change
      neither the objects nor the clusters, as long as restarts draw salts with the same cookie. */
  lemma FurtherPassesIdle(op: Operator, k: Key, st: State, generated: Option<KeyPair>, evs: seq<Event>)
    requires Sound(op) && Tidy(op, st) && Ready(op, k, st) && CanPair(op, k, st.world.objects, generated)
    requires SoloEvents(k, evs)
    requires forall salt | salt in SaltsOf(st.salt, evs) :: CookieKept(op, st.world.clusters[k], st.salt, salt)
    ensures var after := FullPass(op, st, k, generated);
            && Run(op, after, evs).world.objects == after.world.objects
            && Run(op, after, evs).world.clusters == after.world.clusters
  {
    hide Run, FullPass, Sound, Solo, Near, NamespacesOf, BaseFits, PassNear, CookieKept, Tidy, PairPinned, Complete;
    var b := BaseOf(op, k, st.world, PairUsed(op, k, st.world.objects, generated), st.salt, {st.salt});
    BaseReady(op, k, st, b.locals.pair, st.salt, b.salts);
    FullPassReached(op, b, st, generated);
    var after := FullPass(op, st, k, generated);
    var salts := SaltsOf(st.salt, evs);
    SaltsCover(op, k, st, evs);
    RebasedPartial(op, b, after, generated, st.salt, salts);
    var b' := Rebased(b, after, st.salt, salts);
    SaltedRun(op, b', after, evs);
    PartialViews(op, b', Run(op, after, evs));
    GoalCookie(op, b);
    NothingMoves(op, b, after, generated, salts, Run(op, after, evs).world.objects);
    SameClusters(k, after.world.clusters, Run(op, after, evs).world.clusters);
  }

  lemma GoalCookie(op: Operator, b: Base)
    requires b.goal == GoalOf(b.start, b.version)
    ensures forall x, y :: CookieKept(op, b.goal, x, y) == CookieKept(op, b.start, x, y)
  {
    hide GoalOf;
    GoalKeeps(b);
  }

  /** Exactly when a later complete pass leaves the objects as they are: when the cluster has no
      OAuth objects, or when the cookie under the salt of its process is the one that is stored. */
  lemma FurtherPassExact(op: Operator, k: Key, st: State, generated: Option<KeyPair>, evs: seq<Event>,
                         generated': Option<KeyPair>)
    requires Sound(op) && Tidy(op, st) && Ready(op, k, st) && CanPair(op, k, st.world.objects, generated)
    requires SoloEvents(k, evs) && Resting(k, Run(op, FullPass(op, st, k, generated), evs))
    ensures var after := FullPass(op, st, k, generated); var mid := Run(op, after, evs);
            && (FullPass(op, mid, k, generated').world.objects == after.world.objects <==>
                  CookieKept(op, st.world.clusters[k], st.salt, mid.salt))
            && FullPass(op, mid, k, generated').world.clusters == after.world.clusters
  {
    hide Run, FullPass, Sound, Solo, Near, NamespacesOf, BaseFits, PassNear, CookieKept, Tidy, Complete, PairOf;
    var b := BaseOf(op, k, st.world, PairUsed(op, k, st.world.objects, generated), st.salt, {st.salt});
    BaseReady(op, k, st, b.locals.pair, st.salt, b.salts);
    FullPassReached(op, b, st, generated);
    var after := FullPass(op, st, k, generated);
    var mid := Run(op, after, evs);
    var salts := SaltsOf(st.salt, evs);
    SaltsCover(op, k, after, evs);
    RebasedPartial(op, b, after, generated, mid.salt, salts);
    var b' := Rebased(b, after, mid.salt, salts);
    SaltedRun(op, b', after, evs);
    PartialViews(op, b', mid);
    FullPassReached(op, b', mid, generated');
    var last := FullPass(op, mid, k, generated');
    PartialViews(op, b', last);
    SameClusters(k, after.world.clusters, last.world.clusters);
    GoalCookie(op, b);
    CompleteAgain(op, b, after, generated, mid.salt, salts, last.world.objects);
  }

  lemma CompleteAgain(op: Operator, b: Base, st: State, generated: Option<KeyPair>, salt: string, salts: set<string>,
                      objects: map<ObjectKey, Object>)
    requires Reached(op, b, st, generated) && b.key !in st.passes
    requires Complete(op, Rebased(b, st, salt, salts), objects)
    ensures objects == st.world.objects <==> CookieKept(op, b.goal, st.salt, salt)
  {
    hide Partial, ContentOf, Wanted;
    var b' := Rebased(b, st, salt, salts);
    assert At(b', b'.locals) == b';
    forall part | Needed(op, b.goal, part)
      ensures InPlace(op, b', st.world.objects, part) <==>
              ContentOf(op, b.goal, part, b.locals) == ContentOf(op, b.goal, part, b'.locals)
    {
      assert InPlace(op, b, st.world.objects, part);
      WantedAgain(op, b, st, part, b'.locals, salt, salts);
    }
    CookieValues(op, b.goal, b.locals);
    CookieValues(op, b.goal, b'.locals);
    if CookieKept(op, b.goal, st.salt, salt) {
      forall part | Needed(op, b.goal, part) ensures InPlace(op, b', st.world.objects, part) {
        SameValues(op, b.goal, part, b.locals, b'.locals);
      }
      CompleteUnique(op, b', objects, st.world.objects);
    } else {
      assert InPlace(op, b', objects, OAuthSecretPart);
    }
  }

  lemma CookieValues(op: Operator, c: RayCluster, l: Locals)
    ensures ContentOf(op, c, OAuthSecretPart, l) == CookieOf(op, c, l.salt)
  {
  }
}
