/** No leaked ClusterRoleBinding: in every run, a binding of ours that is not marked for deletion exists
    only while a cluster it is named after exists and carries the finalizer, and a marked one stays
    marked until it is removed. Bindings of others do not matter, and clusters may share a binding
    name: what that costs is shown elsewhere, as is the need for the premise on the last finalizer. */
module BindingSafety {
  import opened Wrappers
  import opened Kube
  import opened Objects
  import opened Operators
  import opened ApiServer
  import opened Protocol
  import opened AdmissionRuns

  function IdOf(k: Key): Identity {
    Identity(k.name, k.namespace, false)
  }

  function BindingKey(op: Operator, k: Key): ObjectKey {
    op.place(IdOf(k), OAuthBindingPart)
  }

  // ---------------------------------------------------------------- premises

  /** The keys users ever create clusters under have pairwise different name-namespace strings. */
  ghost predicate Separate(tenants: set<Key>) {
    forall a, b | a in tenants && b in tenants ::
      a.name + "-" + a.namespace == b.name + "-" + b.namespace ==> a == b
  }

  /** No binding of ours is there yet, but for those on their way out. */
  ghost predicate NoBindingYet(op: Operator, tenants: set<Key>, objects: map<ObjectKey, Object>) {
    forall k | k in tenants :: !Live(objects, BindingKey(op, k))
  }

  /** An edit of the current version that takes the finalizer off; the server refuses edits of others. */
  predicate Strips(w: World, c: RayCluster) {
    && c.Id() in w.clusters && w.clusters[c.Id()].Guarded() && !c.Guarded()
    && c.meta.resourceVersion == w.clusters[c.Id()].meta.resourceVersion
    && c.meta.uid == w.clusters[c.Id()].meta.uid
  }

  /** What users do not do: strip the finalizer, or write the bindings of our clusters. */
  ghost predicate Polite(op: Operator, tenants: set<Key>, st: State, ev: Event) {
    match ev
    case CreateCluster(c) => c.Id() in tenants
    case EditCluster(c) => !Strips(st.world, c)
    case PutObject(o, _) => forall k | k in tenants :: o != BindingKey(op, k)
    case _ => true
  }

  /** The finalizer is the last one: no cluster is held in deletion by others' finalizers only. */
  ghost predicate FinalizerLast(w: World) {
    forall k | k in w.clusters :: w.clusters[k].meta.deleting ==> w.clusters[k].Guarded()
  }

  ghost predicate PoliteRun(op: Operator, tenants: set<Key>, st: State, evs: seq<Event>)
    decreases |evs|
  {
    evs != [] ==>
      && Polite(op, tenants, st, evs[0])
      && FinalizerLast(Step(op, st, evs[0]).world)
      && PoliteRun(op, tenants, Step(op, st, evs[0]), evs[1..])
  }

  // ---------------------------------------------------------------- the safety property

  /** The cluster exists and carries the finalizer. */
  predicate Present(w: World, k: Key) {
    k in w.clusters && w.clusters[k].Guarded()
  }

  /** Every binding of ours, but for those marked for deletion, is the binding of a present cluster. */
  ghost predicate NoLeak(op: Operator, tenants: set<Key>, w: World) {
    forall k | k in tenants && Live(w.objects, BindingKey(op, k)) ::
      exists h :: h in tenants && BindingKey(op, h) == BindingKey(op, k) && Present(w, h)
  }

  // ---------------------------------------------------------------- the invariant

  ghost predicate Held(w: World, k: Key, uid: nat) {
    k in w.clusters && w.clusters[k].meta.uid == uid && w.clusters[k].Guarded()
  }

  /** A later version of the same incarnation stays marked once an earlier one was. */
  ghost predicate StaysMarked(x: Option<RayCluster>, y: Option<RayCluster>) {
    x.Some? && y.Some? && x.value.meta.uid == y.value.meta.uid && x.value.meta.deleting ==> y.value.meta.deleting
  }

  ghost predicate MarksOrdered(w: World) {
    && (forall k, i | k in w.cache && 0 <= i < |w.pending| && w.pending[i].key == k ::
          StaysMarked(Some(w.cache[k]), w.pending[i].now))
    && (forall i, j | 0 <= i < j < |w.pending| && w.pending[i].key == w.pending[j].key ::
          StaysMarked(w.pending[i].now, w.pending[j].now))
    && (forall k | k in w.cache && k in w.clusters :: StaysMarked(Some(w.cache[k]), Some(w.clusters[k])))
    && (forall i | 0 <= i < |w.pending| && w.pending[i].key in w.clusters ::
          StaysMarked(w.pending[i].now, Some(w.clusters[w.pending[i].key])))
  }

  /** All versions of an incarnation that the controller can still see are marked. */
  ghost predicate AllMarked(w: World, k: Key, uid: nat) {
    forall x :: ViewOf(w, k, x) && x.meta.uid == uid ==> x.meta.deleting
  }

  ghost predicate ViewsSafe(tenants: set<Key>, w: World) {
    forall k, x :: ViewOf(w, k, x) ==>
      && k in tenants
      && (x.meta.deleting ==> x.Guarded())
      && (!x.meta.deleting && x.Guarded() ==> Held(w, k, x.meta.uid))
  }

  /** The cluster is present and no pass is about to take its finalizer off. */
  predicate Secures(st: State, k: Key) {
    Present(st.world, k) && !(k in st.passes && st.passes[k].stage == RemovingFinalizer)
  }

  ghost predicate BindingsSafe(op: Operator, tenants: set<Key>, st: State) {
    forall k | k in tenants && Live(st.world.objects, BindingKey(op, k)) :: Secured(op, tenants, st, k)
  }

  /** Some cluster of that binding name is present and stays so. */
  ghost predicate Secured(op: Operator, tenants: set<Key>, st: State, k: Key) {
    exists h :: h in tenants && BindingKey(op, h) == BindingKey(op, k) && Secures(st, h)
  }

  ghost predicate SafeWorld(tenants: set<Key>, w: World) {
    ViewsSafe(tenants, w) && MarksOrdered(w)
  }

  ghost predicate PassSafe(w: World, k: Key, p: Pass) {
    match p.stage
    case AddingFinalizer => p.cluster.Guarded()
    case DeletingBinding => p.cluster.meta.deleting && AllMarked(w, k, p.cluster.meta.uid)
    case RemovingFinalizer =>
      p.cluster.meta.deleting && AllMarked(w, k, p.cluster.meta.uid) && !p.cluster.Guarded()
    case _ => Held(w, k, p.cluster.meta.uid)
  }

  /** The part of the invariant that is not about bindings. */
  ghost predicate Orderly(op: Operator, tenants: set<Key>, st: State) {
    && Tidy(op, st)
    && SafeWorld(tenants, st.world)
    && forall k | k in st.passes :: k in tenants && PassSafe(st.world, k, st.passes[k])
  }

  ghost predicate Safe(op: Operator, tenants: set<Key>, st: State) {
    Orderly(op, tenants, st) && BindingsSafe(op, tenants, st)
  }

  lemma SafeMeansNoLeak(op: Operator, tenants: set<Key>, st: State)
    requires BindingsSafe(op, tenants, st)
    ensures NoLeak(op, tenants, st.world)
  {
    forall k | k in tenants && Live(st.world.objects, BindingKey(op, k))
      ensures exists h :: h in tenants && BindingKey(op, h) == BindingKey(op, k) && Present(st.world, h)
    {
      assert Secured(op, tenants, st, k);
    }
  }

  lemma BindingKeysDiffer(op: Operator, tenants: set<Key>, a: Key, b: Key)
    requires Sound(op) && Separate(tenants) && a in tenants && b in tenants && a != b
    ensures BindingKey(op, a) != BindingKey(op, b)
  {
  }

  // ---------------------------------------------------------------- writes of clusters

  /** Storing a new version that keeps uid, mark and finalizer, or a first version. */
  ghost predicate GoodVersion(w: World, c: RayCluster) {
    var k := c.Id();
    if k in w.clusters then
      && w.clusters[k].meta.uid == c.meta.uid
      && (w.clusters[k].meta.deleting ==> c.meta.deleting)
      && (w.clusters[k].Guarded() ==> c.Guarded())
    else forall x :: ViewOf(w, k, x) ==> x.meta.uid < c.meta.uid
  }

  lemma PutMarks(w: World, c: RayCluster)
    requires MarksOrdered(w) && GoodVersion(w, c)
    ensures MarksOrdered(PutCluster(w, c))
  {
    var w' := PutCluster(w, c);
    var k := c.Id();
    var stored := w'.clusters[k];
    forall i | 0 <= i < |w.pending| && w.pending[i].key == k
      ensures StaysMarked(w.pending[i].now, Some(stored))
    {
      if w.pending[i].now.Some? {
        assert ViewOf(w, k, w.pending[i].now.value);
        if k in w.clusters { assert StaysMarked(w.pending[i].now, Some(w.clusters[k])); }
      }
    }
    if k in w.cache {
      assert ViewOf(w, k, w.cache[k]);
      assert StaysMarked(Some(w.cache[k]), Some(stored));
    }
    forall i, j | 0 <= i < j < |w'.pending| && w'.pending[i].key == w'.pending[j].key
      ensures StaysMarked(w'.pending[i].now, w'.pending[j].now)
    {
      assert w'.pending[i] == w.pending[i];
      if j < |w.pending| { assert w'.pending[j] == w.pending[j]; }
    }
    forall i | 0 <= i < |w'.pending| && w'.pending[i].key in w'.clusters
      ensures StaysMarked(w'.pending[i].now, Some(w'.clusters[w'.pending[i].key]))
    {
      if i < |w.pending| { assert w'.pending[i] == w.pending[i]; }
    }
  }

  lemma PutSafe(tenants: set<Key>, w: World, c: RayCluster)
    requires SafeWorld(tenants, w) && GoodVersion(w, c) && c.Id() in tenants
    requires FinalizerLast(PutCluster(w, c))
    ensures SafeWorld(tenants, PutCluster(w, c))
  {
    var w' := PutCluster(w, c);
    PutMarks(w, c);
    PutViews(w, c);
    assert w'.clusters[c.Id()].Guarded() == c.Guarded();
    forall k, x | ViewOf(w', k, x)
      ensures k in tenants && (x.meta.deleting ==> x.Guarded())
              && (!x.meta.deleting && x.Guarded() ==> Held(w', k, x.meta.uid))
    {
      if ViewOf(w, k, x) && !x.meta.deleting && x.Guarded() {
        assert Held(w, k, x.meta.uid);
      }
    }
  }

  lemma PutPass(w: World, c: RayCluster, k: Key, p: Pass)
    requires GoodVersion(w, c) && PassSafe(w, k, p)
    requires c.Id() !in w.clusters ==> p.cluster.meta.uid < c.meta.uid
    ensures PassSafe(PutCluster(w, c), k, p)
  {
    var w' := PutCluster(w, c);
    PutViews(w, c);
    assert w'.clusters[c.Id()].Guarded() == c.Guarded();
    if p.stage == DeletingBinding || p.stage == RemovingFinalizer {
      forall x | ViewOf(w', k, x) && x.meta.uid == p.cluster.meta.uid ensures x.meta.deleting {
        if !ViewOf(w, k, x) && k in w.clusters {
          assert ViewOf(w, k, w.clusters[k]);
        }
      }
    }
  }

  /** Removing a cluster that no unmarked version can resurrect. */
  lemma DropSafe(tenants: set<Key>, w: World, k: Key)
    requires SafeWorld(tenants, w) && k in w.clusters
    requires w.clusters[k].Guarded() ==> AllMarked(w, k, w.clusters[k].meta.uid)
    ensures SafeWorld(tenants, DropCluster(w, k))
  {
    var w' := DropCluster(w, k);
    DropViews(w, k);
    forall k', x | ViewOf(w', k', x) && !x.meta.deleting && x.Guarded() ensures Held(w', k', x.meta.uid) {
      assert Held(w, k', x.meta.uid);
    }
    assert MarksOrdered(w') by {
      forall i, j | 0 <= i < j < |w'.pending| && w'.pending[i].key == w'.pending[j].key
        ensures StaysMarked(w'.pending[i].now, w'.pending[j].now)
      {
        assert w'.pending[i] == w.pending[i];
        if j < |w.pending| { assert w'.pending[j] == w.pending[j]; }
      }
      forall k', i | k' in w'.cache && 0 <= i < |w'.pending| && w'.pending[i].key == k'
        ensures StaysMarked(Some(w'.cache[k']), w'.pending[i].now)
      {
        if i < |w.pending| { assert w'.pending[i] == w.pending[i]; }
      }
    }
  }

  lemma DropPass(w: World, k: Key, k': Key, p: Pass)
    requires PassSafe(w, k', p)
    requires k' != k || (k in w.clusters && !w.clusters[k].Guarded())
    ensures PassSafe(DropCluster(w, k), k', p)
  {
    DropViews(w, k);
  }

  // ---------------------------------------------------------------- steps of users and the cache

  lemma DeliverSafe(tenants: set<Key>, w: World)
    requires SafeWorld(tenants, w)
    ensures SafeWorld(tenants, Deliver(w))
  {
    var w' := Deliver(w);
    DeliverViews(w);
    if w.pending != [] {
      assert forall i | 0 <= i < |w'.pending| :: w'.pending[i] == w.pending[i + 1];
    }
  }

  lemma SameClustersSafe(tenants: set<Key>, w: World, w': World)
    requires SafeWorld(tenants, w)
    requires w'.clusters == w.clusters && w'.cache == w.cache && w'.pending == w.pending
    ensures SafeWorld(tenants, w')
    ensures forall k, p :: PassSafe(w, k, p) ==> PassSafe(w', k, p)
  {
    assert forall k, x :: ViewOf(w', k, x) <==> ViewOf(w, k, x);
  }

  lemma CreateSafe(op: Operator, tenants: set<Key>, st: State, c: RayCluster)
    requires Sound(op) && Orderly(op, tenants, st) && c.Id() in tenants
    requires FinalizerLast(Create(op, st.world, c))
    ensures SafeWorld(tenants, Create(op, st.world, c))
    ensures forall k | k in st.passes :: PassSafe(Create(op, st.world, c), k, st.passes[k])
  {
    var w := st.world;
    var w' := Create(op, w, c);
    CreateStores(op, w, c);
    hide Create, Fixed, MarksOrdered, SoundWebhook, SoundPlaces, SoundCa;
    if w' != w {
      var d :| Sane(op, c.Id(), d) && d.meta.uid == w.nextUid && c.Id() !in w.clusters
               && w' == PutCluster(w.(nextUid := w.nextUid + 1), d);
      var w1 := w.(nextUid := w.nextUid + 1);
      assert forall k, x :: ViewOf(w1, k, x) ==> ViewOf(w, k, x);
      SameClustersSafe(tenants, w, w1);
      PutSafe(tenants, w1, d);
      forall k | k in st.passes ensures PassSafe(w', k, st.passes[k]) {
        PutPass(w1, d, k, st.passes[k]);
      }
    }
  }

  lemma EditSafe(op: Operator, tenants: set<Key>, st: State, c: RayCluster)
    requires Sound(op) && Orderly(op, tenants, st)
    requires FinalizerLast(Update(op, st.world, c).0)
    requires !Strips(st.world, c)
    ensures var w' := Update(op, st.world, c).0;
            SafeWorld(tenants, w') && forall k | k in st.passes :: PassSafe(w', k, st.passes[k])
  {
    var w := st.world;
    var (w', r) := Update(op, w, c);
    UpdateReplaces(op, w, c);
    if r.Some? {
      var k := c.Id();
      assert ViewOf(w, k, w.clusters[k]);
      if w' == DropCluster(w, k) && w.clusters[k].meta.deleting && c.meta.finalizers == [] {
        assert false;
      } else {
        PutSafe(tenants, w, r.value);
        forall k' | k' in st.passes ensures PassSafe(w', k', st.passes[k']) {
          PutPass(w, r.value, k', st.passes[k']);
        }
      }
    }
  }

  lemma DeleteSafe(op: Operator, tenants: set<Key>, st: State, k: Key)
    requires Sound(op) && Orderly(op, tenants, st) && FinalizerLast(RequestDelete(st.world, k))
    ensures var w' := RequestDelete(st.world, k);
            SafeWorld(tenants, w') && forall k' | k' in st.passes :: PassSafe(w', k', st.passes[k'])
  {
    var w := st.world;
    if k in w.clusters {
      var c := w.clusters[k];
      assert ViewOf(w, k, c);
      if c.meta.finalizers == [] {
        DropSafe(tenants, w, k);
        forall k' | k' in st.passes ensures PassSafe(DropCluster(w, k), k', st.passes[k']) {
          DropPass(w, k, k', st.passes[k']);
        }
      } else if !c.meta.deleting {
        var marked := c.(meta := c.meta.(deleting := true));
        PutSafe(tenants, w, marked);
        forall k' | k' in st.passes ensures PassSafe(PutCluster(w, marked), k', st.passes[k']) {
          PutPass(w, marked, k', st.passes[k']);
        }
      }
    }
  }

  // ---------------------------------------------------------------- steps of the controller

  /** Once the cached version is marked, so is every version the controller can still see. */
  lemma CacheMarked(w: World, k: Key)
    requires MarksOrdered(w) && k in w.cache && w.cache[k].meta.deleting
    ensures AllMarked(w, k, w.cache[k].meta.uid)
  {
    var c := w.cache[k];
    forall x | ViewOf(w, k, x) && x.meta.uid == c.meta.uid ensures x.meta.deleting {
      if k in w.clusters && x == w.clusters[k] {
        assert StaysMarked(Some(c), Some(x));
      } else if i :| 0 <= i < |w.pending| && w.pending[i] == Change(k, Some(x)) {
        assert StaysMarked(Some(c), w.pending[i].now);
      }
    }
  }

  lemma BeginStage(op: Operator, c: RayCluster, salt: string)
    ensures var r := Begin(op, c, salt);
            && (r.Continue? && r.pass.stage == AddingFinalizer <==> !c.meta.deleting && !c.Guarded())
            && (r.Continue? && r.pass.stage == DeletingBinding <==> c.meta.deleting && c.Guarded())
            && (r.Continue? ==> r.pass.stage != RemovingFinalizer)
  {
  }

  lemma StartSafe(op: Operator, tenants: set<Key>, st: State, k: Key)
    requires Sound(op) && Orderly(op, tenants, st)
    ensures Orderly(op, tenants, Step(op, st, Start(k)))
  {
    hide MarksOrdered, AllMarked, BindingsSafe, Begin, TidyWorld, Fixed, Sound;
    TidyStep(op, st, Start(k));
    var w := st.world;
    if k !in st.passes && k in w.cache {
      var c := w.cache[k];
      assert ViewOf(w, k, c);
      BeginCluster(op, c, st.salt);
      BeginStage(op, c, st.salt);
      if c.meta.deleting { CacheMarked(w, k); }
    }
  }

  /** Finalizers without the controller's are the finalizers that are not the controller's. */
  lemma {:induction false} WithoutExact(fs: seq<string>, f: string)
    ensures forall x :: x in Without(fs, f) <==> x in fs && x != f
  {
    if fs != [] {
      WithoutExact(fs[1..], f);
    }
  }

  /** The other finalizers keep their order. */
  lemma {:induction false} WithoutKeepsOrder(a: seq<string>, x: string, b: seq<string>, f: string)
    ensures Without(a + [x] + b, f) == Without(a, f) + (if x == f then [] else [x]) + Without(b, f)
  {
    if a == [] {
      assert ([] + [x] + b)[0] == x && ([] + [x] + b)[1..] == b;
    } else {
      assert (a + [x] + b)[0] == a[0] && (a + [x] + b)[1..] == a[1..] + [x] + b;
      WithoutKeepsOrder(a[1..], x, b, f);
    }
  }

  /** The update that removes the finalizer, once the binding is gone. */
  lemma UnguardSafe(op: Operator, tenants: set<Key>, st: State, k: Key)
    requires Sound(op) && Orderly(op, tenants, st) && k in st.passes && st.passes[k].stage == RemovingFinalizer
    requires FinalizerLast(Update(op, st.world, st.passes[k].cluster).0)
    ensures var w' := Update(op, st.world, st.passes[k].cluster).0;
            SafeWorld(tenants, w') && forall k' | k' in st.passes && k' != k :: PassSafe(w', k', st.passes[k'])
  {
    var w := st.world;
    var c := st.passes[k].cluster;
    var (w', r) := Update(op, w, c);
    UpdateReplaces(op, w, c);
    if r.Some? {
      assert ViewOf(w, k, w.clusters[k]);
      if c.meta.finalizers == [] {
        DropSafe(tenants, w, k);
        forall k' | k' in st.passes && k' != k ensures PassSafe(w', k', st.passes[k']) {
          DropPass(w, k, k', st.passes[k']);
        }
      } else {
        assert false;
      }
    }
  }

  lemma GuardSafe(op: Operator, tenants: set<Key>, st: State, k: Key)
    requires Sound(op) && Orderly(op, tenants, st) && k in st.passes && st.passes[k].stage == AddingFinalizer
    requires FinalizerLast(Update(op, st.world, st.passes[k].cluster).0)
    ensures var (w', r) := Update(op, st.world, st.passes[k].cluster);
            && SafeWorld(tenants, w')
            && (forall k' | k' in st.passes :: PassSafe(w', k', st.passes[k']))
            && (r.Some? ==> Held(w', k, r.value.meta.uid))
  {
    var c := st.passes[k].cluster;
    EditSafe(op, tenants, st, c);
    UpdateReplaces(op, st.world, c);
    assert OAUTH_FINALIZER in c.meta.finalizers;
  }

  /** All other calls leave the clusters alone; the only bindings they touch are the pass's own. */
  lemma ServeObjects(op: Operator, w: World, p: Pass, outcome: Outcome)
    requires Sound(op) && p.stage != AddingFinalizer && p.stage != RemovingFinalizer
    ensures var (w', reply) := Serve(op, w, CallOf(op, p), outcome);
            var own := op.place(p.cluster.Ident(), OAuthBindingPart);
            && w'.clusters == w.clusters && w'.cache == w.cache && w'.pending == w.pending
            && (forall o: ObjectKey | o.kind == BindingKind && Live(w'.objects, o) ::
                  Live(w.objects, o) || (o == own && p.stage == Applying(OAuthBindingPart)))
            && (p.stage == DeletingBinding && (reply.Done? || reply.NotFound?) ==> !Live(w'.objects, own))
  {
    hide PairOf, HeadPods, OperatorPods;
    if p.stage.Applying? {
      assert op.place(p.cluster.Ident(), p.stage.part).kind == BindingKind <==> p.stage.part.OAuthBindingPart?;
    }
  }

  lemma StageAfter(op: Operator, p: Pass, reply: Reply, generated: Option<KeyPair>)
    ensures var r := Resume(op, p, reply, generated);
            && (r.Continue? ==> r.pass.stage != AddingFinalizer && r.pass.stage != DeletingBinding)
            && (r.Continue? ==> (r.pass.stage == RemovingFinalizer <==> p.stage == DeletingBinding))
            && (r.Continue? && p.stage == DeletingBinding ==> reply.Done? || reply.NotFound?)
            && (p.stage == RemovingFinalizer ==> r.Return?)
  {
    hide PairOf, MissingSecrets;
  }

  lemma ObjectStepSafe(op: Operator, tenants: set<Key>, st: State, k: Key, w': World)
    requires Orderly(op, tenants, st) && k in st.passes
    requires var p := st.passes[k];
             && p.stage != AddingFinalizer && p.stage != RemovingFinalizer
             && w'.clusters == st.world.clusters && w'.cache == st.world.cache && w'.pending == st.world.pending
    ensures SafeWorld(tenants, w')
    ensures forall k' | k' in st.passes && k' != k :: PassSafe(w', k', st.passes[k'])
    ensures var p := st.passes[k];
            if p.stage == DeletingBinding then AllMarked(w', k, p.cluster.meta.uid) else Held(w', k, p.cluster.meta.uid)
  {
    hide SafeWorld, Tidy;
    SameClustersSafe(tenants, st.world, w');
    assert PassSafe(w', k, st.passes[k]);
  }

  lemma AddingSafe(op: Operator, tenants: set<Key>, st: State, k: Key, outcome: Outcome, generated: Option<KeyPair>)
    requires Sound(op) && Orderly(op, tenants, st) && k in st.passes && st.passes[k].stage == AddingFinalizer
    requires FinalizerLast(Step(op, st, Proceed(k, outcome, generated)).world)
    ensures Orderly(op, tenants, Step(op, st, Proceed(k, outcome, generated)))
  {
    hide Serve, Resume, SafeWorld, TidyWorld, Fixed, Update, Sound;
    TidyStep(op, st, Proceed(k, outcome, generated));
    var p := st.passes[k];
    var (w', reply) := Serve(op, st.world, CallOf(op, p), outcome);
    ResumeCluster(op, p, reply, generated);
    StageAfter(op, p, reply, generated);
    UpdateServed(op, st.world, p.cluster, outcome);
    if outcome != Refused { GuardSafe(op, tenants, st, k); }
    SettleSafe(op, tenants, st, w', k, Resume(op, p, reply, generated));
  }

  lemma RemovingSafe(op: Operator, tenants: set<Key>, st: State, k: Key, outcome: Outcome, generated: Option<KeyPair>)
    requires Sound(op) && Orderly(op, tenants, st) && k in st.passes && st.passes[k].stage == RemovingFinalizer
    requires FinalizerLast(Step(op, st, Proceed(k, outcome, generated)).world)
    ensures Orderly(op, tenants, Step(op, st, Proceed(k, outcome, generated)))
  {
    hide Serve, Resume, SafeWorld, TidyWorld, Fixed, Update, Sound, PassSafe;
    TidyStep(op, st, Proceed(k, outcome, generated));
    var p := st.passes[k];
    var (w', reply) := Serve(op, st.world, CallOf(op, p), outcome);
    StageAfter(op, p, reply, generated);
    UpdateServed(op, st.world, p.cluster, outcome);
    if outcome != Refused { UnguardSafe(op, tenants, st, k); }
    SettleSafe(op, tenants, st, w', k, Resume(op, p, reply, generated));
  }

  lemma ObjectsSafe(op: Operator, tenants: set<Key>, st: State, k: Key, outcome: Outcome, generated: Option<KeyPair>)
    requires Sound(op) && Orderly(op, tenants, st) && k in st.passes
    requires st.passes[k].stage != AddingFinalizer && st.passes[k].stage != RemovingFinalizer
    ensures Orderly(op, tenants, Step(op, st, Proceed(k, outcome, generated)))
  {
    hide Serve, CallOf, Resume, SafeWorld, TidyWorld, Fixed, Sound;
    TidyStep(op, st, Proceed(k, outcome, generated));
    var p := st.passes[k];
    var (w', reply) := Serve(op, st.world, CallOf(op, p), outcome);
    ResumeCluster(op, p, reply, generated);
    StageAfter(op, p, reply, generated);
    ServeObjects(op, st.world, p, outcome);
    WithoutExact(p.cluster.meta.finalizers, OAUTH_FINALIZER);
    assert p.cluster.Ident() == IdOf(k);
    ObjectStepSafe(op, tenants, st, k, w');
    SettleSafe(op, tenants, st, w', k, Resume(op, p, reply, generated));
  }

  lemma ProceedSafe(op: Operator, tenants: set<Key>, st: State, k: Key, outcome: Outcome, generated: Option<KeyPair>)
    requires Sound(op) && Orderly(op, tenants, st) && k in st.passes
    requires FinalizerLast(Step(op, st, Proceed(k, outcome, generated)).world)
    ensures Orderly(op, tenants, Step(op, st, Proceed(k, outcome, generated)))
  {
    hide Step, Sound, Orderly;
    match st.passes[k].stage
    case AddingFinalizer => AddingSafe(op, tenants, st, k, outcome, generated);
    case RemovingFinalizer => RemovingSafe(op, tenants, st, k, outcome, generated);
    case _ => ObjectsSafe(op, tenants, st, k, outcome, generated);
  }

  lemma UpdateServed(op: Operator, w: World, c: RayCluster, outcome: Outcome)
    ensures var (w', reply) := Serve(op, w, UpdateCluster(c), outcome);
            && w' == (if outcome == Refused then w else Update(op, w, c).0)
            && (reply.Updated? ==> outcome != Refused && Update(op, w, c).1 == Some(reply.cluster))
  {
    hide Update;
  }

  lemma SettleSafe(op: Operator, tenants: set<Key>, st: State, w': World, k: Key, next: Control)
    requires Tidy(op, Settle(st, w', k, next)) && SafeWorld(tenants, w') && k in st.passes
    requires forall k' | k' in st.passes :: k' in tenants
    requires forall k' | k' in st.passes && k' != k :: PassSafe(w', k', st.passes[k'])
    requires next.Continue? ==> PassSafe(w', k, next.pass)
    ensures Orderly(op, tenants, Settle(st, w', k, next))
  {
  }

  // ---------------------------------------------------------------- order is kept

  lemma OrderlyStep(op: Operator, tenants: set<Key>, st: State, ev: Event)
    requires Sound(op) && Orderly(op, tenants, st)
    requires Polite(op, tenants, st, ev) && FinalizerLast(Step(op, st, ev).world)
    ensures Orderly(op, tenants, Step(op, st, ev))
  {
    hide Serve, Resume, Begin, CallOf, Update, Create, RequestDelete, Strips;
    hide Deliver, Relist, Sound, SafeWorld, PassSafe, TidyWorld;
    TidyStep(op, st, ev);
    var w := st.world;
    match ev
    case Start(k) => StartSafe(op, tenants, st, k);
    case Proceed(k, outcome, generated) =>
      if k in st.passes { ProceedSafe(op, tenants, st, k, outcome, generated); }
    case Restart(_) => RelistSafe(tenants, w);
    case DeliverChange => DeliverStepSafe(op, tenants, st);
    case CreateCluster(c) => CreateSafe(op, tenants, st, c);
    case EditCluster(c) => EditSafe(op, tenants, st, c);
    case DeleteCluster(k) => DeleteSafe(op, tenants, st, k);
    case _ => SameClustersSafe(tenants, w, Step(op, st, ev).world);
  }

  lemma DeliverStepSafe(op: Operator, tenants: set<Key>, st: State)
    requires Sound(op) && Orderly(op, tenants, st)
    ensures Orderly(op, tenants, Step(op, st, DeliverChange))
  {
    hide SafeWorld, TidyWorld, Sound;
    TidyStep(op, st, DeliverChange);
    DeliverSafe(tenants, st.world);
    DeliverViews(st.world);
  }

  lemma RelistSafe(tenants: set<Key>, w: World)
    requires SafeWorld(tenants, w)
    ensures SafeWorld(tenants, Relist(w))
  {
    assert forall k, x :: ViewOf(Relist(w), k, x) ==> ViewOf(w, k, x);
  }

  // ---------------------------------------------------------------- bindings stay secured

  /** A present cluster stays present. */
  predicate KeepsGuard(w: World, w': World, h: Key) {
    Present(w, h) ==> Present(w', h)
  }

  /** A live binding was live before and the clusters that secured it still do, or its own cluster does. */
  lemma BindingsKept(op: Operator, tenants: set<Key>, st: State, st': State)
    requires BindingsSafe(op, tenants, st)
    requires forall k | k in tenants && Live(st'.world.objects, BindingKey(op, k)) ::
               || Secured(op, tenants, st', k)
               || (Live(st.world.objects, BindingKey(op, k))
                   && forall h | h in tenants && BindingKey(op, h) == BindingKey(op, k) && Secures(st, h) ::
                       Secures(st', h))
    ensures BindingsSafe(op, tenants, st')
  {
    hide BindingKey, Secures;
    forall k | k in tenants && Live(st'.world.objects, BindingKey(op, k)) ensures Secured(op, tenants, st', k) {
      if Live(st.world.objects, BindingKey(op, k)) { assert Secured(op, tenants, st, k); }
    }
  }

  lemma UpdateKeepsGuard(op: Operator, w: World, c: RayCluster, h: Key)
    requires Sound(op) && (c.Id() == h ==> !Strips(w, c))
    ensures KeepsGuard(w, Update(op, w, c).0, h)
  {
    UpdateReplaces(op, w, c);
  }

  lemma CreateKeepsGuard(op: Operator, w: World, c: RayCluster, h: Key)
    requires Sound(op)
    ensures KeepsGuard(w, Create(op, w, c), h)
  {
    CreateStores(op, w, c);
  }

  lemma DeleteKeepsGuard(op: Operator, w: World, k: Key, h: Key)
    requires TidyWorld(op, w)
    ensures KeepsGuard(w, RequestDelete(w, k), h)
  {
    if k in w.clusters {
      assert ViewOf(w, k, w.clusters[k]);
      assert OAUTH_FINALIZER in w.clusters[k].meta.finalizers ==> w.clusters[k].meta.finalizers != [];
    }
  }

  /** Steps of others take no finalizer off and store no binding of ours. */
  lemma UserKeepsGuards(op: Operator, tenants: set<Key>, st: State, ev: Event)
    requires Sound(op) && Orderly(op, tenants, st) && Polite(op, tenants, st, ev) && !ev.Proceed? && !ev.Start?
    ensures var st' := Step(op, st, ev);
            && (forall h :: KeepsGuard(st.world, st'.world, h))
            && (forall k | k in st'.passes :: k in st.passes && st'.passes[k] == st.passes[k])
            && (forall k | k in tenants && Live(st'.world.objects, BindingKey(op, k)) ::
                  Live(st.world.objects, BindingKey(op, k)))
  {
    hide Update, Create, RequestDelete, Sound, BindingKey, SafeWorld, PassSafe, TidyWorld, Strips;
    var w := st.world;
    var w' := Step(op, st, ev).world;
    forall h ensures KeepsGuard(w, w', h) {
      match ev
      case CreateCluster(c) => CreateKeepsGuard(op, w, c, h);
      case EditCluster(c) => UpdateKeepsGuard(op, w, c, h);
      case DeleteCluster(k) => DeleteKeepsGuard(op, w, k, h);
      case _ =>
    }
    match ev
    case CreateCluster(c) => CreateLeaves(op, w, c);
    case EditCluster(c) => UpdateLeaves(op, w, c);
    case DeleteCluster(k) => DeleteLeaves(w, k);
    case _ =>
  }

  lemma DeleteLeaves(w: World, k: Key)
    ensures RequestDelete(w, k).objects == w.objects
  {
  }

  lemma StartKeepsBindings(op: Operator, tenants: set<Key>, st: State, k: Key)
    requires BindingsSafe(op, tenants, st)
    ensures BindingsSafe(op, tenants, Step(op, st, Start(k)))
  {
    hide Begin, BindingKey;
    if k !in st.passes && k in st.world.cache { BeginStage(op, st.world.cache[k], st.salt); }
    BindingsKept(op, tenants, st, Step(op, st, Start(k)));
  }

  /** The finalizer updates: one adds, the other is made by a cluster that no longer secures anything. */
  lemma UpdatesKeepBindings(op: Operator, tenants: set<Key>, st: State, k: Key, outcome: Outcome,
      generated: Option<KeyPair>)
    requires Sound(op) && Safe(op, tenants, st) && k in st.passes
    requires st.passes[k].stage == AddingFinalizer || st.passes[k].stage == RemovingFinalizer
    ensures BindingsSafe(op, tenants, Step(op, st, Proceed(k, outcome, generated)))
  {
    hide Serve, Resume, Update, Sound, BindingKey, SafeWorld, TidyWorld, BindingsSafe, Present;
    var p := st.passes[k];
    var st' := Step(op, st, Proceed(k, outcome, generated));
    StageAfter(op, p, Serve(op, st.world, CallOf(op, p), outcome).1, generated);
    UpdateServed(op, st.world, p.cluster, outcome);
    UpdateLeaves(op, st.world, p.cluster);
    assert p.cluster.Id() == k;
    forall h | Secures(st, h) ensures Secures(st', h) {
      UpdateKeepsGuard(op, st.world, p.cluster, h);
    }
    BindingsKept(op, tenants, st, st');
  }

  lemma PassId(op: Operator, tenants: set<Key>, st: State, k: Key)
    requires Orderly(op, tenants, st) && k in st.passes
    ensures k in tenants && st.passes[k].cluster.Id() == k && st.passes[k].cluster.Ident() == IdOf(k)
  {
    hide SafeWorld, TidyWorld, Fixed, PassSafe;
  }

  /** What any other call of a pass means for the bindings. */
  lemma CallEffects(op: Operator, tenants: set<Key>, st: State, k: Key, outcome: Outcome, generated: Option<KeyPair>)
    requires Sound(op) && Orderly(op, tenants, st) && k in st.passes
    requires st.passes[k].stage != AddingFinalizer && st.passes[k].stage != RemovingFinalizer
    ensures var p := st.passes[k]; var st' := Step(op, st, Proceed(k, outcome, generated));
            && st'.world.clusters == st.world.clusters
            && (forall h | h != k :: Secures(st, h) ==> Secures(st', h))
            && (p.stage != DeletingBinding ==> Secures(st', k))
            && (Live(st'.world.objects, BindingKey(op, k)) && Secures(st, k) ==> Secures(st', k))
            && (forall k' | Live(st'.world.objects, BindingKey(op, k')) ::
                  || Live(st.world.objects, BindingKey(op, k'))
                  || (BindingKey(op, k') == BindingKey(op, k) && p.stage == Applying(OAuthBindingPart)))
  {
    hide Serve, CallOf, Resume, SafeWorld, TidyWorld, AllMarked, SoundWebhook, SoundPlaces, SoundCa;
    var p := st.passes[k];
    StageAfter(op, p, Serve(op, st.world, CallOf(op, p), outcome).1, generated);
    ServeObjects(op, st.world, p, outcome);
    PassId(op, tenants, st, k);
    assert forall k' :: BindingKey(op, k').kind == BindingKind;
  }

  /** All other calls: the binding applied is that of a held cluster, the one given up is marked. */
  lemma CallsKeepBindings(op: Operator, tenants: set<Key>, st: State, k: Key, outcome: Outcome,
      generated: Option<KeyPair>)
    requires Sound(op) && Safe(op, tenants, st) && k in st.passes
    requires st.passes[k].stage != AddingFinalizer && st.passes[k].stage != RemovingFinalizer
    ensures BindingsSafe(op, tenants, Step(op, st, Proceed(k, outcome, generated)))
  {
    hide Step, Sound, Orderly, BindingsSafe, BindingKey, Secures, Live;
    var p := st.passes[k];
    var st' := Step(op, st, Proceed(k, outcome, generated));
    PassId(op, tenants, st, k);
    CallEffects(op, tenants, st, k, outcome, generated);
    forall k' | k' in tenants && Live(st'.world.objects, BindingKey(op, k'))
      ensures || Secured(op, tenants, st', k')
              || (Live(st.world.objects, BindingKey(op, k'))
                  && forall h | h in tenants && BindingKey(op, h) == BindingKey(op, k') && Secures(st, h) ::
                      Secures(st', h))
    {
      if p.stage == Applying(OAuthBindingPart) && BindingKey(op, k') == BindingKey(op, k) {
        assert Secures(st', k);
      }
    }
    BindingsKept(op, tenants, st, st');
  }

  lemma BindingsStep(op: Operator, tenants: set<Key>, st: State, ev: Event)
    requires Sound(op) && Safe(op, tenants, st) && Polite(op, tenants, st, ev)
    ensures BindingsSafe(op, tenants, Step(op, st, ev))
  {
    hide Step, Sound, Orderly, BindingsSafe, BindingKey, Present;
    match ev
    case Start(k) => StartKeepsBindings(op, tenants, st, k);
    case Proceed(k, outcome, generated) =>
      if k !in st.passes {
        IdleProceed(op, st, k, outcome, generated);
      } else if st.passes[k].stage == AddingFinalizer || st.passes[k].stage == RemovingFinalizer {
        UpdatesKeepBindings(op, tenants, st, k, outcome, generated);
      } else {
        CallsKeepBindings(op, tenants, st, k, outcome, generated);
      }
    case _ =>
      UserKeepsBindings(op, tenants, st, ev);
  }

  lemma UserKeepsBindings(op: Operator, tenants: set<Key>, st: State, ev: Event)
    requires Sound(op) && Safe(op, tenants, st) && Polite(op, tenants, st, ev) && !ev.Proceed? && !ev.Start?
    ensures BindingsSafe(op, tenants, Step(op, st, ev))
  {
    hide Step, Sound, Orderly, BindingsSafe, BindingKey, Present, Polite, Live, Secured;
    UserKeepsGuards(op, tenants, st, ev);
    var st' := Step(op, st, ev);
    forall h | Secures(st, h) ensures Secures(st', h) {
      assert KeepsGuard(st.world, st'.world, h);
    }
    BindingsKept(op, tenants, st, st');
  }

  lemma IdleProceed(op: Operator, st: State, k: Key, outcome: Outcome, generated: Option<KeyPair>)
    requires k !in st.passes
    ensures Step(op, st, Proceed(k, outcome, generated)) == st
  {
  }

  // ---------------------------------------------------------------- the theorem

  lemma StepSafe(op: Operator, tenants: set<Key>, st: State, ev: Event)
    requires Sound(op) && Safe(op, tenants, st)
    requires Polite(op, tenants, st, ev) && FinalizerLast(Step(op, st, ev).world)
    ensures Safe(op, tenants, Step(op, st, ev))
  {
    hide Step, Sound, Orderly, BindingsSafe, Polite, FinalizerLast;
    OrderlyStep(op, tenants, st, ev);
    BindingsStep(op, tenants, st, ev);
  }

  lemma {:induction false} SafeRun(op: Operator, tenants: set<Key>, st: State, evs: seq<Event>)
    requires Sound(op) && Safe(op, tenants, st) && PoliteRun(op, tenants, st, evs)
    ensures Safe(op, tenants, Run(op, st, evs))
    decreases |evs|
  {
    hide Step, Safe;
    if evs != [] {
      StepSafe(op, tenants, st, evs[0]);
      SafeRun(op, tenants, Step(op, st, evs[0]), evs[1..]);
    }
  }

  lemma InitialSafe(op: Operator, tenants: set<Key>, st: State)
    requires Initial(st) && NoBindingYet(op, tenants, st.world.objects)
    ensures Safe(op, tenants, st)
  {
  }

  /** No leaked binding in any run: user requests, controller steps, refused calls, lost responses,
      a lagging cache and restarts in any order, any number of clusters, and any bindings of others. */
  lemma NoBindingLeak(op: Operator, tenants: set<Key>, st: State, evs: seq<Event>)
    requires Sound(op) && Initial(st) && NoBindingYet(op, tenants, st.world.objects)
    requires PoliteRun(op, tenants, st, evs)
    ensures NoLeak(op, tenants, Run(op, st, evs).world)
  {
    hide Run, PoliteRun;
    InitialSafe(op, tenants, st);
    SafeRun(op, tenants, st, evs);
    SafeMeansNoLeak(op, tenants, Run(op, st, evs));
  }

  /** Where names differ, a binding exists only while its own cluster does. */
  lemma OwnBindingOnly(op: Operator, tenants: set<Key>, w: World, k: Key)
    requires Sound(op) && Separate(tenants) && NoLeak(op, tenants, w)
    requires k in tenants && Live(w.objects, BindingKey(op, k))
    ensures Present(w, k)
  {
    hide Sound, Separate, BindingKey, Live, Present;
    var h :| h in tenants && BindingKey(op, h) == BindingKey(op, k) && Present(w, h);
    if h != k { BindingKeysDiffer(op, tenants, h, k); }
  }

  // ---------------------------------------------------------------- the finalizer

  lemma UpdateKeepsHeld(op: Operator, w: World, c: RayCluster, k: Key, uid: nat)
    requires Sound(op) && Held(w, k, uid)
    requires c.Id() == k ==> !Strips(w, c)
    ensures Held(Update(op, w, c).0, k, uid)
  {
    UpdateReplaces(op, w, c);
  }

  /** The pass of the cluster is at its last update; the binding is gone or marked, or another
      cluster of the same binding name has it. */
  ghost predicate GivesUp(op: Operator, tenants: set<Key>, st: State, ev: Event, k: Key) {
    && ev.Proceed? && ev.key == k && ev.outcome != Refused
    && k in st.passes && st.passes[k].stage == RemovingFinalizer
    && var w' := Step(op, st, ev).world;
       Live(w'.objects, BindingKey(op, k)) ==>
         exists h :: h != k && h in tenants && BindingKey(op, h) == BindingKey(op, k) && Present(w', h)
  }

  lemma RemovingStep(op: Operator, st: State, k: Key, outcome: Outcome, generated: Option<KeyPair>)
    requires k in st.passes && st.passes[k].stage == RemovingFinalizer && outcome != Refused
    ensures Step(op, st, Proceed(k, outcome, generated)).world == Update(op, st.world, st.passes[k].cluster).0
  {
    hide Update, Resume, Serve;
    UpdateServed(op, st.world, st.passes[k].cluster, outcome);
  }

  lemma LastUpdate(op: Operator, tenants: set<Key>, st: State, k: Key, outcome: Outcome, generated: Option<KeyPair>)
    requires Sound(op) && Safe(op, tenants, st) && k in st.passes
    requires outcome != Refused && st.passes[k].stage == RemovingFinalizer
    ensures GivesUp(op, tenants, st, Proceed(k, outcome, generated), k)
  {
    hide Step, Sound, Orderly, Update, BindingKey, Present, Live, Strips;
    var c := st.passes[k].cluster;
    PassId(op, tenants, st, k);
    RemovingStep(op, st, k, outcome, generated);
    UpdateLeaves(op, st.world, c);
    if Live(st.world.objects, BindingKey(op, k)) {
      assert Secured(op, tenants, st, k);
      var h :| h in tenants && BindingKey(op, h) == BindingKey(op, k) && Secures(st, h);
      UpdateKeepsGuard(op, st.world, c, h);
    }
  }

  lemma ProceedKeepsHeld(op: Operator, tenants: set<Key>, st: State, k': Key, outcome: Outcome,
                         generated: Option<KeyPair>, k: Key, uid: nat)
    requires Sound(op) && Safe(op, tenants, st) && k' in st.passes && Held(st.world, k, uid)
    ensures var ev := Proceed(k', outcome, generated);
            Held(Step(op, st, ev).world, k, uid) || GivesUp(op, tenants, st, ev, k)
  {
    hide Serve, Resume, Sound, SafeWorld, TidyWorld, Update, BindingsSafe, GivesUp;
    var p := st.passes[k'];
    assert p.cluster.Id() == k';
    UpdateServed(op, st.world, p.cluster, outcome);
    if p.stage == AddingFinalizer || (p.stage == RemovingFinalizer && k' != k) {
      UpdateKeepsHeld(op, st.world, p.cluster, k, uid);
    } else if p.stage == RemovingFinalizer {
      if outcome != Refused { LastUpdate(op, tenants, st, k, outcome, generated); }
    } else {
      ServeObjects(op, st.world, p, outcome);
    }
  }

  lemma DeleteKeepsHeld(op: Operator, tenants: set<Key>, st: State, k': Key, k: Key, uid: nat)
    requires Orderly(op, tenants, st) && Held(st.world, k, uid)
    ensures Held(RequestDelete(st.world, k'), k, uid)
  {
    assert OAUTH_FINALIZER in st.world.clusters[k].meta.finalizers;
    if k' in st.world.clusters { assert ViewOf(st.world, k', st.world.clusters[k']); }
  }

  /** Only the controller's own finalizer-removing update ever takes the finalizer away, and by then
      the cluster has given up its binding: a pass that fails before it leaves the finalizer in place. */
  lemma FinalizerStays(op: Operator, tenants: set<Key>, st: State, ev: Event, k: Key)
    requires Sound(op) && Safe(op, tenants, st) && Polite(op, tenants, st, ev)
    requires Present(st.world, k)
    ensures Held(Step(op, st, ev).world, k, st.world.clusters[k].meta.uid) || GivesUp(op, tenants, st, ev, k)
  {
    var w := st.world;
    var uid := w.clusters[k].meta.uid;
    hide Serve, Resume, Begin, CallOf, Update, Create, RequestDelete, Deliver, Relist;
    hide Orderly, BindingsSafe, Sound, BindingKey, Strips, GivesUp;
    match ev
    case Proceed(k', outcome, generated) =>
      if k' in st.passes { ProceedKeepsHeld(op, tenants, st, k', outcome, generated, k, uid); }
    case CreateCluster(c) => CreateStores(op, w, c);
    case EditCluster(c) => UpdateKeepsHeld(op, w, c, k, uid);
    case DeleteCluster(k') => DeleteKeepsHeld(op, tenants, st, k', k, uid);
    case _ =>
  }

  // ---------------------------------------------------------------- marked bindings

  /** Nobody else writes or removes the object. */
  predicate LeavesObject(o: ObjectKey, ev: Event) {
    match ev
    case PutObject(o', _) => o' != o
    case RemoveObject(o') => o' != o
    case _ => true
  }

  ghost predicate MarkedObject(w: World, o: ObjectKey) {
    o in w.objects && w.objects[o].deleting
  }

  lemma ServeKeepsMark(op: Operator, w: World, call: Call, outcome: Outcome, o: ObjectKey)
    requires MarkedObject(w, o)
    ensures MarkedObject(Serve(op, w, call, outcome).0, o)
  {
    hide Update, HeadPods, OperatorPods;
    if call.UpdateCluster? { UpdateLeaves(op, w, call.cluster); }
  }

  lemma MarkStep(op: Operator, st: State, ev: Event, o: ObjectKey)
    requires MarkedObject(st.world, o) && LeavesObject(o, ev)
    ensures MarkedObject(Step(op, st, ev).world, o)
  {
    hide Serve, Resume, Begin, CallOf, Update, Create;
    match ev
    case Proceed(k, outcome, generated) =>
      if k in st.passes { ServeKeepsMark(op, st.world, CallOf(op, st.passes[k]), outcome, o); }
    case CreateCluster(c) => CreateLeaves(op, st.world, c);
    case EditCluster(c) => UpdateLeaves(op, st.world, c);
    case _ =>
  }

  /** A binding marked for deletion stays marked in every run until somebody removes it: no apply of
      a later pass brings it back. */
  lemma {:induction false} MarkedUntilRemoved(op: Operator, st: State, evs: seq<Event>, o: ObjectKey)
    requires MarkedObject(st.world, o) && forall i | 0 <= i < |evs| :: LeavesObject(o, evs[i])
    ensures MarkedObject(Run(op, st, evs).world, o)
    decreases |evs|
  {
    hide Step, MarkedObject;
    if evs != [] {
      MarkStep(op, st, evs[0], o);
      MarkedUntilRemoved(op, Step(op, st, evs[0]), evs[1..], o);
    }
  }
}
