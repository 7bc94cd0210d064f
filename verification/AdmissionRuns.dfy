/** What admission guarantees about every stored cluster in every run. */
module AdmissionRuns {
  import opened Wrappers
  import opened Kube
  import opened Objects
  import opened Operators
  import opened ApiServer
  import opened Protocol

  /** Filed under its own key, annotated, and left alone by the webhook. */
  ghost predicate Sane(op: Operator, k: Key, c: RayCluster) {
    c.Id() == k && !c.Legacy() && Fixed(op, c)
  }

  /** A version of a cluster that is stored, cached or still to be delivered to the cache. */
  ghost predicate ViewOf(w: World, k: Key, c: RayCluster) {
    || (k in w.clusters && w.clusters[k] == c)
    || (k in w.cache && w.cache[k] == c)
    || (exists i | 0 <= i < |w.pending| :: w.pending[i] == Change(k, Some(c)))
  }

  ghost predicate TidyWorld(op: Operator, w: World) {
    && (forall k, c :: ViewOf(w, k, c) ==>
          Sane(op, k, c) && c.meta.uid < w.nextUid && c.meta.resourceVersion < w.nextVersion)
    && (forall k | k in w.clusters ::
          w.clusters[k].meta.deleting || w.clusters[k].head.enableIngress != Some(true))
  }

  ghost predicate Tidy(op: Operator, st: State) {
    && TidyWorld(op, st.world)
    && forall k | k in st.passes ::
        Sane(op, k, st.passes[k].cluster) && st.passes[k].cluster.meta.uid < st.world.nextUid
  }

  // ---------------------------------------------------------------- how views change

  lemma PutViews(w: World, c: RayCluster)
    ensures var w' := PutCluster(w, c);
            var stored := c.(meta := c.meta.(resourceVersion := w.nextVersion));
            && ViewOf(w', c.Id(), stored)
            && forall k, x :: ViewOf(w', k, x) ==> ViewOf(w, k, x) || (k == c.Id() && x == stored)
  {
    var w' := PutCluster(w, c);
    forall k, x | ViewOf(w', k, x)
      ensures ViewOf(w, k, x) || (k == c.Id() && x == c.(meta := c.meta.(resourceVersion := w.nextVersion)))
    {
      if i :| 0 <= i < |w'.pending| && w'.pending[i] == Change(k, Some(x)) {
        if i < |w.pending| { assert w.pending[i] == Change(k, Some(x)); }
      }
    }
  }

  lemma DropViews(w: World, k: Key)
    ensures forall k', x :: ViewOf(DropCluster(w, k), k', x) ==> ViewOf(w, k', x)
  {
    var w' := DropCluster(w, k);
    forall k', x | ViewOf(w', k', x) ensures ViewOf(w, k', x) {
      if i :| 0 <= i < |w'.pending| && w'.pending[i] == Change(k', Some(x)) {
        assert w.pending[i] == Change(k', Some(x));
      }
    }
  }

  lemma DeliverViews(w: World)
    ensures forall k, x :: ViewOf(Deliver(w), k, x) ==> ViewOf(w, k, x)
  {
    var w' := Deliver(w);
    forall k, x | ViewOf(w', k, x) ensures ViewOf(w, k, x) {
      if i :| 0 <= i < |w'.pending| && w'.pending[i] == Change(k, Some(x)) {
        if w.pending != [] { assert w.pending[i + 1] == Change(k, Some(x)); }
      }
    }
  }

  // ---------------------------------------------------------------- what one write does

  lemma FixedMeta(op: Operator, c: RayCluster, m: Meta)
    requires Fixed(op, c)
    requires m.name == c.meta.name && m.namespace == c.meta.namespace && m.annotations == c.meta.annotations
    ensures Fixed(op, c.(meta := m))
  {
    forall m': Meta | m'.name == m.name && m'.namespace == m.namespace && m'.annotations == m.annotations
      ensures op.defaulter(c.(meta := m).(meta := m')) == Some(c.(meta := m).(meta := m'))
    {
      assert c.(meta := m).(meta := m') == c.(meta := m');
    }
  }

  /** A served update replaces the stored version by the admitted one, or removes it. */
  ghost predicate Replaces(op: Operator, w: World, c: RayCluster, w': World, d: RayCluster) {
    var k := c.Id();
    && k in w.clusters
    && (var cur := w.clusters[k];
        && c.meta.uid == cur.meta.uid && c.meta.resourceVersion == cur.meta.resourceVersion
        && d.meta == c.meta.(deleting := cur.meta.deleting, annotations := d.meta.annotations,
            resourceVersion := d.meta.resourceVersion)
        && Sane(op, k, d)
        && d.apiVersion == c.apiVersion && d.kind == c.kind && d.suspend == c.suspend
        && d.head.template.imagePullSecrets == c.head.template.imagePullSecrets
        && (cur.meta.deleting ==> forall f | f in c.meta.finalizers :: f in cur.meta.finalizers)
        && (if cur.meta.deleting && c.meta.finalizers == [] then w' == DropCluster(w, k)
            else
              && w' == PutCluster(w, d) && d.meta.resourceVersion == w.nextVersion && w'.clusters[k] == d
              && (d.meta.deleting || d.head.enableIngress != Some(true))))
  }

  lemma UpdateReplaces(op: Operator, w: World, c: RayCluster)
    requires Sound(op)
    ensures var (w', r) := Update(op, w, c);
            if r.None? then w' == w else Replaces(op, w, c, w', r.value)
  {
    var (w', r) := Update(op, w, c);
    if r.Some? {
      var cur := w.clusters[c.Id()];
      var asked := c.(meta := c.meta.(deleting := cur.meta.deleting));
      var d := op.defaulter(asked).value;
      assert DefaultedFrom(op, asked, d);
      FixedMeta(op, d, d.meta.(resourceVersion := w.nextVersion));
    }
  }

  /** A controller's update of a cluster that the webhook leaves alone changes no content. */
  lemma UpdateFixed(op: Operator, w: World, c: RayCluster)
    requires Sound(op) && Fixed(op, c) && Update(op, w, c).1.Some?
    ensures var d := Update(op, w, c).1.value;
            d == c.(meta := c.meta.(deleting := d.meta.deleting, resourceVersion := d.meta.resourceVersion))
  {
    var cur := w.clusters[c.Id()];
    var m := c.meta.(deleting := cur.meta.deleting);
    assert op.defaulter(c.(meta := m)) == Some(c.(meta := m));
  }

  lemma CreateStores(op: Operator, w: World, c: RayCluster)
    requires Sound(op)
    ensures var w' := Create(op, w, c);
            || w' == w
            || (exists d ::
                  && c.Id() !in w.clusters && Sane(op, c.Id(), d)
                  && d.meta.uid == w.nextUid && !d.meta.deleting && d.meta.finalizers == c.meta.finalizers
                  && d.meta.resourceVersion == w.nextVersion
                  && d.head.enableIngress != Some(true)
                  && d.head.template.imagePullSecrets == c.head.template.imagePullSecrets
                  && w' == PutCluster(w.(nextUid := w.nextUid + 1), d) && w'.clusters[c.Id()] == d)
  {
    var asked := c.(meta := c.meta.(uid := w.nextUid, deleting := false));
    var a := AdmitCreate(op, asked);
    if c.Id() !in w.clusters && a.Some? {
      assert DefaultedFrom(op, asked, a.value);
      var d := a.value.(meta := a.value.meta.(resourceVersion := w.nextVersion));
      FixedMeta(op, a.value, d.meta);
      assert PutCluster(w.(nextUid := w.nextUid + 1), d) == Create(op, w, c);
    }
  }

  /** Writing a cluster touches neither objects nor pods. */
  lemma CreateLeaves(op: Operator, w: World, c: RayCluster)
    ensures Create(op, w, c).objects == w.objects && Create(op, w, c).pods == w.pods
  {
  }

  lemma UpdateLeaves(op: Operator, w: World, c: RayCluster)
    ensures Update(op, w, c).0.objects == w.objects && Update(op, w, c).0.pods == w.pods
  {
  }

  // ---------------------------------------------------------------- preservation

  lemma TidyPut(op: Operator, w: World, c: RayCluster)
    requires TidyWorld(op, w) && Sane(op, c.Id(), c) && c.meta.uid < w.nextUid
    requires c.meta.deleting || c.head.enableIngress != Some(true)
    ensures TidyWorld(op, PutCluster(w, c))
  {
    PutViews(w, c);
    FixedMeta(op, c, c.meta.(resourceVersion := w.nextVersion));
  }

  lemma TidyUpdate(op: Operator, w: World, c: RayCluster)
    requires Sound(op) && TidyWorld(op, w)
    ensures var (w', r) := Update(op, w, c);
            && TidyWorld(op, w') && w'.nextUid == w.nextUid
            && (r.Some? ==> Sane(op, c.Id(), r.value) && r.value.meta.uid < w.nextUid)
  {
    var (w', r) := Update(op, w, c);
    UpdateReplaces(op, w, c);
    if r.Some? {
      assert ViewOf(w, c.Id(), w.clusters[c.Id()]);
      if w' == DropCluster(w, c.Id()) {
        DropViews(w, c.Id());
      } else {
        TidyPut(op, w, r.value);
      }
    }
  }

  lemma TidyCreate(op: Operator, w: World, c: RayCluster)
    requires Sound(op) && TidyWorld(op, w)
    ensures TidyWorld(op, Create(op, w, c)) && Create(op, w, c).nextUid >= w.nextUid
  {
    CreateStores(op, w, c);
    var w' := Create(op, w, c);
    if w' != w {
      var d :| Sane(op, c.Id(), d) && d.meta.uid == w.nextUid && d.head.enableIngress != Some(true)
               && w' == PutCluster(w.(nextUid := w.nextUid + 1), d);
      var w1 := w.(nextUid := w.nextUid + 1);
      assert forall k, x :: ViewOf(w1, k, x) ==> ViewOf(w, k, x);
      TidyPut(op, w1, d);
    }
  }

  lemma TidyDelete(op: Operator, w: World, k: Key)
    requires TidyWorld(op, w)
    ensures TidyWorld(op, RequestDelete(w, k)) && RequestDelete(w, k).nextUid == w.nextUid
  {
    if k in w.clusters {
      var c := w.clusters[k];
      assert ViewOf(w, k, c);
      if c.meta.finalizers == [] {
        DropViews(w, k);
      } else if !c.meta.deleting {
        var m := c.meta.(deleting := true);
        FixedMeta(op, c, m);
        TidyPut(op, w, c.(meta := m));
      }
    }
  }

  lemma SameViews(op: Operator, w: World, w': World)
    requires TidyWorld(op, w)
    requires w'.clusters == w.clusters && w'.cache == w.cache && w'.pending == w.pending
    requires w'.nextUid == w.nextUid && w'.nextVersion == w.nextVersion
    ensures TidyWorld(op, w')
  {
    assert forall k, x :: ViewOf(w', k, x) ==> ViewOf(w, k, x);
  }

  lemma TidyServe(op: Operator, w: World, call: Call, outcome: Outcome)
    requires Sound(op) && TidyWorld(op, w)
    ensures var (w', reply) := Serve(op, w, call, outcome);
            && TidyWorld(op, w') && w'.nextUid == w.nextUid
            && (reply.Updated? ==>
                call.UpdateCluster? && Sane(op, call.cluster.Id(), reply.cluster) && reply.cluster.meta.uid < w.nextUid)
  {
    if call.UpdateCluster? {
      TidyUpdate(op, w, call.cluster);
    } else {
      SameViews(op, w, Serve(op, w, call, outcome).0);
    }
  }

  /** The next stage holds the same cluster, or the server's answer, up to the finalizer. */
  lemma ResumeCluster(op: Operator, p: Pass, reply: Reply, generated: Option<KeyPair>)
    ensures var r := Resume(op, p, reply, generated);
            r.Continue? ==>
              if p.stage == AddingFinalizer then reply.Updated? && r.pass.cluster == reply.cluster
              else if p.stage == DeletingBinding then r.pass.cluster == RemoveFinalizer(p.cluster)
              else r.pass.cluster == p.cluster
  {
    hide PairOf, MissingSecrets;
  }

  lemma BeginCluster(op: Operator, c: RayCluster, salt: string)
    ensures var r := Begin(op, c, salt);
            r.Continue? ==> r.pass.cluster == if r.pass.stage == AddingFinalizer then AddFinalizer(c) else c
  {
  }

  /** Every step of every run keeps the invariant. */
  lemma TidyStep(op: Operator, st: State, ev: Event)
    requires Sound(op) && Tidy(op, st)
    ensures Tidy(op, Step(op, st, ev))
  {
    hide Serve, CallOf, Resume, Begin, Create, Update, RequestDelete, Deliver, Sound, TidyWorld;
    var w := st.world;
    match ev
    case Start(k) => TidyStart(op, st, k);
    case Proceed(k, outcome, generated) => TidyProceed(op, st, k, outcome, generated);
    case Restart(_) => TidyRelist(op, w);
    case DeliverChange => TidyDeliver(op, w);
    case CreateCluster(c) => TidyCreate(op, w, c);
    case EditCluster(c) => TidyUpdate(op, w, c);
    case DeleteCluster(k) => TidyDelete(op, w, k);
    case _ => SameViews(op, w, Step(op, st, ev).world);
  }

  lemma TidyStart(op: Operator, st: State, k: Key)
    requires Tidy(op, st)
    ensures Tidy(op, Step(op, st, Start(k)))
  {
    hide Begin, Fixed;
    if k !in st.passes && k in st.world.cache {
      var c := st.world.cache[k];
      assert ViewOf(st.world, k, c);
      BeginCluster(op, c, st.salt);
      FixedMeta(op, c, AddFinalizer(c).meta);
    }
  }

  lemma TidyProceed(op: Operator, st: State, k: Key, outcome: Outcome, generated: Option<KeyPair>)
    requires Sound(op) && Tidy(op, st)
    ensures Tidy(op, Step(op, st, Proceed(k, outcome, generated)))
  {
    hide Serve, Resume, Sound, TidyWorld, Fixed;
    if k in st.passes {
      var p := st.passes[k];
      var (w', reply) := Serve(op, st.world, CallOf(op, p), outcome);
      TidyServe(op, st.world, CallOf(op, p), outcome);
      ResumeCluster(op, p, reply, generated);
      FixedMeta(op, p.cluster, RemoveFinalizer(p.cluster).meta);
      TidySettle(op, st, w', k, Resume(op, p, reply, generated));
    }
  }

  lemma TidyRelist(op: Operator, w: World)
    requires TidyWorld(op, w)
    ensures TidyWorld(op, Relist(w))
  {
    assert forall k, x :: ViewOf(Relist(w), k, x) ==> ViewOf(w, k, x);
  }

  lemma TidyDeliver(op: Operator, w: World)
    requires TidyWorld(op, w)
    ensures TidyWorld(op, Deliver(w)) && Deliver(w).nextUid == w.nextUid
  {
    DeliverViews(w);
  }

  lemma TidySettle(op: Operator, st: State, w': World, k: Key, next: Control)
    requires Tidy(op, st) && TidyWorld(op, w') && w'.nextUid == st.world.nextUid
    requires next.Continue? ==> Sane(op, k, next.pass.cluster) && next.pass.cluster.meta.uid < w'.nextUid
    ensures Tidy(op, Settle(st, w', k, next))
  {
  }

  lemma {:induction false} TidyRun(op: Operator, st: State, evs: seq<Event>)
    requires Sound(op) && Tidy(op, st)
    ensures Tidy(op, Run(op, st, evs))
    decreases |evs|
  {
    if evs != [] {
      TidyStep(op, st, evs[0]);
      TidyRun(op, Step(op, st, evs[0]), evs[1..]);
    }
  }
}
