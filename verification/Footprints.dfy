/** What a pass for one cluster can touch, and that it leaves other clusters' objects and pods alone. */
module Footprints {
  import opened Wrappers
  import opened Kube
  import opened Objects
  import opened Operators
  import opened ApiServer
  import opened Protocol
  import opened AdmissionRuns
  import opened BindingSafety

  function KeyOf(op: Operator, k: Key, part: Part): ObjectKey {
    op.place(IdOf(k), part)
  }

  /** The objects of one cluster. */
  ghost predicate Owns(op: Operator, k: Key, o: ObjectKey) {
    exists part :: o == KeyOf(op, k, part)
  }

  ghost predicate SameObject(a: map<ObjectKey, Object>, b: map<ObjectKey, Object>, o: ObjectKey) {
    (o in a <==> o in b) && (o in a ==> a[o] == b[o])
  }

  /** Different clusters own different objects, unless their name-namespace strings coincide. */
  lemma FootprintsDisjoint(op: Operator, a: Key, b: Key, o: ObjectKey)
    requires Sound(op) && a != b && a.name + "-" + a.namespace != b.name + "-" + b.namespace
    requires Owns(op, a, o)
    ensures !Owns(op, b, o)
  {
    var p :| o == KeyOf(op, a, p);
    forall q ensures o != KeyOf(op, b, q) {
      assert op.place(IdOf(a), p) == o;
    }
  }

  /** The one object a stage can change. */
  function Target(stage: Stage): Option<Part> {
    match stage
    case Applying(part) => Some(part)
    case DeletingBinding => Some(OAuthBindingPart)
    case _ => None
  }

  ghost predicate SameCluster(w: World, w': World, k: Key) {
    (k in w.clusters <==> k in w'.clusters) && (k in w.clusters ==> w.clusters[k] == w'.clusters[k])
  }

  lemma UpdateTouches(op: Operator, w: World, c: RayCluster)
    requires Sound(op)
    ensures var w' := Update(op, w, c).0;
            && w'.objects == w.objects && w'.pods == w.pods && w'.cache == w.cache
            && w'.applicationsNamespace == w.applicationsNamespace
            && forall k | k != c.Id() :: SameCluster(w, w', k)
  {
    UpdateReplaces(op, w, c);
  }

  /** A step of a pass changes at most the object of its stage, and only its own cluster. */
  lemma ServeTouches(op: Operator, w: World, p: Pass, outcome: Outcome)
    requires Sound(op)
    ensures var w' := Serve(op, w, CallOf(op, p), outcome).0;
            && (forall o :: SameObject(w.objects, w'.objects, o) ||
                            (Target(p.stage).Some? && o == op.place(p.cluster.Ident(), Target(p.stage).value)))
            && (forall k | k != p.cluster.Id() :: SameCluster(w, w', k))
            && (p.stage != DeletingHeadPod ==> w'.pods == w.pods)
            && w'.applicationsNamespace == w.applicationsNamespace && w'.cache == w.cache
  {
    hide PairOf, HeadPods, OperatorPods, Update, Sound, ContentOf;
    if CallOf(op, p).UpdateCluster? {
      UpdateTouches(op, w, p.cluster);
    } else {
      ObjectsTouched(op, w, p, outcome);
    }
  }

  lemma ObjectsTouched(op: Operator, w: World, p: Pass, outcome: Outcome)
    requires !CallOf(op, p).UpdateCluster?
    ensures var w' := Serve(op, w, CallOf(op, p), outcome).0;
            && w' == w.(objects := w'.objects, pods := w'.pods)
            && (p.stage != DeletingHeadPod ==> w'.pods == w.pods)
            && forall o :: SameObject(w.objects, w'.objects, o) ||
                           (Target(p.stage).Some? && o == op.place(p.cluster.Ident(), Target(p.stage).value))
  {
    hide PairOf, HeadPods, OperatorPods, Update, ContentOf;
  }

  // ---------------------------------------------------------------- pods

  ghost predicate PodsUnique(pods: seq<Pod>) {
    forall i, j | 0 <= i < j < |pods| :: !(pods[i].namespace == pods[j].namespace && pods[i].name == pods[j].name)
  }

  /** A pod about to be deleted is the cluster's own. */
  ghost predicate VictimOwn(st: State, k: Key) {
    k in st.passes && st.passes[k].stage == DeletingHeadPod ==>
      forall i | 0 <= i < |st.world.pods| && IsPod(st.world.pods[i], st.passes[k].podNamespace, st.passes[k].podName) ::
        HeadPodOf(st.world.pods[i], k)
  }

  /** Pods that are not head pods of `k` are as before. */
  ghost predicate OtherPodsKept(k: Key, before: seq<Pod>, after: seq<Pod>) {
    |after| == |before| && forall i | 0 <= i < |before| ::
      && (!HeadPodOf(before[i], k) ==> after[i] == before[i])
      && after[i] == before[i].(terminating := after[i].terminating)
  }

  /** The listing by namespace and the two labels. */
  lemma {:induction false} HeadPodsListed(pods: seq<Pod>, k: Key)
    ensures forall x :: x in HeadPods(pods, k) <==> x in pods && HeadPodOf(x, k)
    ensures forall x: Pod :: HeadPodOf(x, k) <==>
              x.namespace == k.namespace && x.nodeType == Some("head") && x.cluster == Some(k.name)
  {
    if pods != [] {
      HeadPodsListed(pods[1..], k);
    }
  }

  /** Where a pass gets the pod it deletes from. */
  lemma VictimListed(op: Operator, p: Pass, reply: Reply, generated: Option<KeyPair>)
    ensures var r := Resume(op, p, reply, generated);
            r.Continue? && r.pass.stage == DeletingHeadPod ==>
              && p.stage == ListingHeadPods && reply.Listed? && reply.pods != []
              && IsPod(reply.pods[0], r.pass.podNamespace, r.pass.podName)
  {
    hide PairOf, MissingSecrets;
  }

  lemma ListedOwn(pods: seq<Pod>, k: Key, x: Pod)
    requires PodsUnique(pods) && x in HeadPods(pods, k)
    ensures forall i | 0 <= i < |pods| && IsPod(pods[i], x.namespace, x.name) :: HeadPodOf(pods[i], k)
  {
    HeadPodsListed(pods, k);
    var i :| 0 <= i < |pods| && pods[i] == x;
    assert forall j | 0 <= j < |pods| && IsPod(pods[j], x.namespace, x.name) :: j == i;
  }

  /** What a listing or deleting stage gets from the server. */
  lemma PodReplies(op: Operator, w: World, p: Pass, outcome: Outcome)
    ensures var (w', reply) := Serve(op, w, CallOf(op, p), outcome);
            && (p.stage == ListingHeadPods ==>
                w' == w && (reply.Listed? ==> reply.pods == HeadPods(w.pods, p.cluster.Id())))
            && (p.stage == DeletingHeadPod ==>
                w'.pods == w.pods || w'.pods == Terminate(w.pods, p.podNamespace, p.podName))
  {
    hide HeadPods, OperatorPods, Update;
  }

  lemma ServePods(op: Operator, st: State, k: Key, outcome: Outcome, generated: Option<KeyPair>)
    requires Sound(op) && Tidy(op, st) && k in st.passes && PodsUnique(st.world.pods) && VictimOwn(st, k)
    ensures var st' := Step(op, st, Proceed(k, outcome, generated));
            && OtherPodsKept(k, st.world.pods, st'.world.pods)
            && PodsUnique(st'.world.pods) && VictimOwn(st', k)
  {
    hide Resume, Serve, CallOf, Sound, Tidy, HeadPods;
    var p := st.passes[k];
    var w := st.world;
    var (w', reply) := Serve(op, w, CallOf(op, p), outcome);
    VictimListed(op, p, reply, generated);
    TidyPass(op, st, k);
    ServeTouches(op, w, p, outcome);
    PodReplies(op, w, p, outcome);
    if p.stage == ListingHeadPods && reply.Listed? && reply.pods != [] {
      ListedOwn(w.pods, k, reply.pods[0]);
    }
  }

  lemma TidyPass(op: Operator, st: State, k: Key)
    requires Tidy(op, st) && k in st.passes
    ensures st.passes[k].cluster.Id() == k && st.passes[k].cluster.Ident() == IdOf(k)
  {
  }

  // ---------------------------------------------------------------- a whole pass

  /** The steps of one controller on one key, with its cache and its restarts. */
  predicate Solo(k: Key, ev: Event) {
    match ev
    case Start(k') => k' == k
    case Proceed(k', _, _) => k' == k
    case Restart(_) => true
    case DeliverChange => true
    case _ => false
  }

  /** What belongs to other clusters is as before. */
  ghost predicate OthersKept(op: Operator, k: Key, w: World, w': World) {
    && (forall o :: Owns(op, k, o) || SameObject(w.objects, w'.objects, o))
    && (forall k' | k' != k :: SameCluster(w, w', k'))
    && OtherPodsKept(k, w.pods, w'.pods)
  }

  lemma SoloStep(op: Operator, k: Key, st: State, ev: Event)
    requires Sound(op) && Tidy(op, st) && Solo(k, ev) && PodsUnique(st.world.pods) && VictimOwn(st, k)
    ensures var st' := Step(op, st, ev);
            Tidy(op, st') && PodsUnique(st'.world.pods) && VictimOwn(st', k) && OthersKept(op, k, st.world, st'.world)
  {
    hide Fixed, Sound, Begin, Tidy, Serve, CallOf, Resume;
    TidyStep(op, st, ev);
    if ev.Start? && k !in st.passes && k in st.world.cache {
      BeginNotVictim(op, st.world.cache[k], st.salt);
    }
    if ev.Proceed? && k in st.passes {
      SoloProceed(op, k, st, ev.outcome, ev.generated);
    }
  }

  lemma SoloProceed(op: Operator, k: Key, st: State, outcome: Outcome, generated: Option<KeyPair>)
    requires Sound(op) && Tidy(op, st) && k in st.passes && PodsUnique(st.world.pods) && VictimOwn(st, k)
    ensures var st' := Step(op, st, Proceed(k, outcome, generated));
            PodsUnique(st'.world.pods) && VictimOwn(st', k) && OthersKept(op, k, st.world, st'.world)
  {
    hide Fixed, Sound, Tidy, Serve, CallOf, Resume, VictimOwn, PodsUnique;
    ServePods(op, st, k, outcome, generated);
    ServeTouches(op, st.world, st.passes[k], outcome);
    TidyPass(op, st, k);
    OwnTarget(op, k, st.passes[k].stage);
  }

  lemma BeginNotVictim(op: Operator, c: RayCluster, salt: string)
    ensures var r := Begin(op, c, salt); r.Continue? ==> r.pass.stage != DeletingHeadPod
  {
  }

  lemma OwnTarget(op: Operator, k: Key, stage: Stage)
    ensures Target(stage).Some? ==> Owns(op, k, op.place(IdOf(k), Target(stage).value))
  {
    if Target(stage).Some? { assert op.place(IdOf(k), Target(stage).value) == KeyOf(op, k, Target(stage).value); }
  }

  lemma {:induction false} SoloRun(op: Operator, k: Key, st: State, evs: seq<Event>)
    requires Sound(op) && Tidy(op, st) && PodsUnique(st.world.pods) && VictimOwn(st, k)
    requires forall i | 0 <= i < |evs| :: Solo(k, evs[i])
    ensures OthersKept(op, k, st.world, Run(op, st, evs).world)
    decreases |evs|
  {
    hide Step, Tidy, Sound;
    if evs != [] {
      SoloStep(op, k, st, evs[0]);
      SoloRun(op, k, Step(op, st, evs[0]), evs[1..]);
      OthersKeptTransitive(op, k, st.world, Step(op, st, evs[0]).world, Run(op, st, evs).world);
    }
  }

  lemma OthersKeptTransitive(op: Operator, k: Key, a: World, b: World, c: World)
    requires OthersKept(op, k, a, b) && OthersKept(op, k, b, c)
    ensures OthersKept(op, k, a, c)
  {
    forall o | !Owns(op, k, o) ensures SameObject(a.objects, c.objects, o) {
      assert SameObject(a.objects, b.objects, o) && SameObject(b.objects, c.objects, o);
    }
    forall k' | k' != k ensures SameCluster(a, c, k') {
      assert SameCluster(a, b, k') && SameCluster(b, c, k');
    }
    assert forall i | 0 <= i < |a.pods| :: HeadPodOf(a.pods[i], k) == HeadPodOf(b.pods[i], k);
  }

  /** Different clusters own different objects, whatever their names, but for the binding. */
  lemma OnlyBindingShared(op: Operator, a: Key, b: Key, part: Part)
    requires Sound(op) && a != b && Owns(op, a, KeyOf(op, b, part))
    ensures part == OAuthBindingPart && a.name + "-" + a.namespace == b.name + "-" + b.namespace
  {
    hide SoundWebhook, SoundKinds, SoundCa;
    var p :| KeyOf(op, b, part) == KeyOf(op, a, p);
    assert op.place(IdOf(a), p) == op.place(IdOf(b), part);
  }

  /** Whole passes for one cluster, normal or deleting, complete or cut short at any call, leave
      every other cluster, its head pods and its objects unchanged; the binding, which two clusters
      may share, provided their name-namespace strings differ. */
  lemma CrossClusterFraming(op: Operator, k: Key, other: Key, st: State, evs: seq<Event>)
    requires Sound(op) && Tidy(op, st) && k !in st.passes && PodsUnique(st.world.pods)
    requires (forall i | 0 <= i < |evs| :: Solo(k, evs[i])) && k != other
    ensures var w, w' := st.world, Run(op, st, evs).world;
            && (forall part | part != OAuthBindingPart :: SameObject(w.objects, w'.objects, KeyOf(op, other, part)))
            && (k.name + "-" + k.namespace != other.name + "-" + other.namespace ==>
                  SameObject(w.objects, w'.objects, KeyOf(op, other, OAuthBindingPart)))
            && SameCluster(w, w', other)
            && |w'.pods| == |w.pods|
            && forall i | 0 <= i < |w.pods| && HeadPodOf(w.pods[i], other) :: w'.pods[i] == w.pods[i]
  {
    hide Run, Sound, Tidy, KeyOf;
    SoloRun(op, k, st, evs);
    forall part | part != OAuthBindingPart || k.name + "-" + k.namespace != other.name + "-" + other.namespace
      ensures SameObject(st.world.objects, Run(op, st, evs).world.objects, KeyOf(op, other, part))
    {
      if Owns(op, k, KeyOf(op, other, part)) {
        OnlyBindingShared(op, k, other, part);
        assert false;
      }
    }
  }
}
