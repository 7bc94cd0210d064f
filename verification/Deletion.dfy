/** The deletion branch: it completes whatever earlier passes did, and what happens when the
    finalizer is not the last one. */
module Deletion {
  import opened Wrappers
  import opened Kube
  import opened Objects
  import opened Operators
  import opened ApiServer
  import opened Protocol
  import opened AdmissionRuns
  import opened BindingSafety
  import opened Footprints
  import opened Convergence
  import Closure
  import CaStability

  // ---------------------------------------------------------------- one pass with every call served

  lemma Unfinished(op: Operator, st: State, k: Key, generated: Option<KeyPair>)
    ensures Finish(op, st, k, generated) ==
            if k in st.passes then Finish(op, Step(op, st, Proceed(k, Served, generated)), k, generated) else st
  {
  }

  lemma BindingDeleted(op: Operator, k: Key, st: State, generated: Option<KeyPair>)
    requires k in st.passes && st.passes[k].stage == DeletingBinding && st.passes[k].cluster.Ident() == IdOf(k)
    ensures var p := st.passes[k];
            Step(op, st, Proceed(k, Served, generated)) ==
            st.(world := st.world.(objects := MarkObject(st.world.objects, BindingKey(op, k))),
                passes := st.passes[k := p.(cluster := RemoveFinalizer(p.cluster), stage := RemovingFinalizer)])
  {
  }

  /** The update that removes the finalizer from the current version is accepted. */
  lemma RemovalAccepted(op: Operator, w: World, c: RayCluster)
    requires Sound(op) && Fixed(op, c) && c.Id() in w.clusters && w.clusters[c.Id()] == c && c.meta.deleting
    ensures var (w', r) := Update(op, w, RemoveFinalizer(c));
            var fs := Without(c.meta.finalizers, OAUTH_FINALIZER);
            && r.Some?
            && (if fs == [] then w' == DropCluster(w, c.Id())
                else c.Id() in w'.clusters && w'.clusters[c.Id()].meta.finalizers == fs && w'.objects == w.objects)
  {
    hide SoundPlaces, SoundKinds, SoundCa;
    var asked := RemoveFinalizer(c);
    WithoutExact(c.meta.finalizers, OAUTH_FINALIZER);
    assert asked == c.(meta := asked.meta);
    assert op.defaulter(c.(meta := asked.meta)) == Some(c.(meta := asked.meta));
    assert asked.(meta := asked.meta.(deleting := true)) == asked;
    assert DefaultedFrom(op, asked, asked);
  }

  /** A pass with every call served marks the binding for deletion, whether or not an earlier pass
      already did or it is gone, and removes the finalizer; and with the last finalizer the cluster.
      Nothing else changes. */
  lemma DeletionCompletes(op: Operator, k: Key, st: State, generated: Option<KeyPair>)
    requires Sound(op) && Tidy(op, st) && k !in st.passes && CaughtUp(st.world, k)
    requires st.world.clusters[k].meta.deleting && st.world.clusters[k].Guarded()
    ensures var after := FullPass(op, st, k, generated);
            var fs := Without(st.world.clusters[k].meta.finalizers, OAUTH_FINALIZER);
            && after.world.objects == MarkObject(st.world.objects, BindingKey(op, k))
            && k !in after.passes && k in after.returned && after.returned[k]
            && (if fs == [] then after.world.clusters == st.world.clusters - {k}
                else k in after.world.clusters && after.world.clusters[k].meta.finalizers == fs
                     && !after.world.clusters[k].Guarded())
  {
    hide Finish, Sound, Fixed, Update, Without;
    var c := st.world.clusters[k];
    assert ViewOf(st.world, k, c);
    WithoutExact(c.meta.finalizers, OAUTH_FINALIZER);
    var st1 := Step(op, st, Start(k));
    assert k in st1.passes && st1.passes[k] == NewPass(c, DeletingBinding, st.salt);
    BindingDeleted(op, k, st1, generated);
    var st2 := Step(op, st1, Proceed(k, Served, generated));
    RemovalAccepted(op, st2.world, c);
    UpdateLeaves(op, st2.world, RemoveFinalizer(c));
    var st3 := Step(op, st2, Proceed(k, Served, generated));
    Unfinished(op, st1, k, generated);
    Unfinished(op, st2, k, generated);
    Unfinished(op, st3, k, generated);
  }

  // ---------------------------------------------------------------- passes cut off anywhere

  /** Marked, and guarded by the controller's finalizer alone. */
  ghost predicate LastGuard(c: RayCluster) {
    c.meta.deleting && c.Guarded() && forall f | f in c.meta.finalizers :: f == OAUTH_FINALIZER
  }

  /** The cluster is on its way out: every version the controller can see says so. */
  ghost predicate Leaving(op: Operator, k: Key, st: State) {
    && (forall x | ViewOf(st.world, k, x) :: LastGuard(x))
    && (k !in st.world.clusters ==> !Live(st.world.objects, BindingKey(op, k)))
    && (k in st.passes ==>
          var p := st.passes[k];
          || (p.stage == DeletingBinding && LastGuard(p.cluster))
          || (p.stage == RemovingFinalizer && p.cluster.meta.finalizers == [] && p.cluster.meta.deleting
              && !Live(st.world.objects, BindingKey(op, k))))
  }

  /** What is left to do: remove the cluster, mark the binding, collect the marked binding. */
  function Remaining(op: Operator, k: Key, w: World): nat {
    var at := BindingKey(op, k);
    (if k in w.clusters then 1 else 0) + (if at !in w.objects then 0 else if w.objects[at].deleting then 1 else 2)
  }

  /** The steps of passes for one cluster, and the garbage collector taking its binding. */
  predicate Removing(op: Operator, k: Key, ev: Event) {
    Solo(k, ev) || ev == RemoveObject(BindingKey(op, k))
  }

  lemma LeavingStart(op: Operator, k: Key, st: State)
    requires Leaving(op, k, st)
    ensures Leaving(op, k, Step(op, st, Start(k)))
  {
    hide LastGuard;
    if k !in st.passes && k in st.world.cache {
      var c := st.world.cache[k];
      assert ViewOf(st.world, k, c);
      assert c.meta.deleting && c.Guarded() by { LastGuardMeans(c); }
    }
  }

  lemma LastGuardMeans(c: RayCluster)
    requires LastGuard(c)
    ensures c.meta.deleting && c.Guarded() && Without(c.meta.finalizers, OAUTH_FINALIZER) == []
  {
    var fs := c.meta.finalizers;
    assert forall i | 0 <= i < |fs| :: fs[i] in fs;
    NoneLeft(fs, OAUTH_FINALIZER);
  }

  lemma {:induction false} NoneLeft(fs: seq<string>, f: string)
    requires forall i | 0 <= i < |fs| :: fs[i] == f
    ensures Without(fs, f) == []
  {
    if fs != [] {
      NoneLeft(fs[1..], f);
    }
  }

  lemma LeavingDelete(op: Operator, k: Key, st: State, outcome: Outcome, generated: Option<KeyPair>)
    requires Leaving(op, k, st) && Tidy(op, st) && k in st.passes && st.passes[k].stage == DeletingBinding
    ensures var st' := Step(op, st, Proceed(k, outcome, generated));
            Leaving(op, k, st') && Remaining(op, k, st'.world) <= Remaining(op, k, st.world)
  {
    hide LastGuard, Tidy, Serve, CallOf, Resume, BindingKey;
    var p := st.passes[k];
    LastGuardMeans(p.cluster);
    TidyPass(op, st, k);
    DeleteServed(op, st.world, k, p, outcome);
    Closure.ResumeOther(op, p, Serve(op, st.world, CallOf(op, p), outcome).1, generated);
    var w' := Step(op, st, Proceed(k, outcome, generated)).world;
    assert forall x :: ViewOf(w', k, x) ==> ViewOf(st.world, k, x);
  }

  /** The call that gives up the binding. */
  lemma DeleteServed(op: Operator, w: World, k: Key, p: Pass, outcome: Outcome)
    requires p.stage == DeletingBinding && p.cluster.Ident() == IdOf(k)
    ensures var (w', reply) := Serve(op, w, CallOf(op, p), outcome);
            && w' == w.(objects := w'.objects)
            && (w'.objects == MarkObject(w.objects, BindingKey(op, k)) || (w'.objects == w.objects && reply.Failed?))
  {
    hide Update, HeadPods, OperatorPods;
  }

  lemma LeavingRemove(op: Operator, k: Key, st: State, outcome: Outcome, generated: Option<KeyPair>)
    requires Sound(op) && Leaving(op, k, st) && Tidy(op, st) && k in st.passes
        && st.passes[k].stage == RemovingFinalizer
    ensures var st' := Step(op, st, Proceed(k, outcome, generated));
            Leaving(op, k, st') && Remaining(op, k, st'.world) <= Remaining(op, k, st.world)
  {
    hide LastGuard, Fixed, TidyWorld, Update, Sound;
    var p := st.passes[k];
    assert p.cluster.Id() == k;
    UpdateReplaces(op, st.world, p.cluster);
    UpdateLeaves(op, st.world, p.cluster);
    if k in st.world.clusters {
      assert ViewOf(st.world, k, st.world.clusters[k]);
      LastGuardMeans(st.world.clusters[k]);
    }
    DropViews(st.world, k);
  }

  lemma LeavingStep(op: Operator, k: Key, st: State, ev: Event)
    requires Sound(op) && Leaving(op, k, st) && Tidy(op, st) && Removing(op, k, ev)
    ensures var st' := Step(op, st, ev);
            Tidy(op, st') && Leaving(op, k, st') && Remaining(op, k, st'.world) <= Remaining(op, k, st.world)
  {
    hide LastGuard, Tidy, Sound, Begin, Serve, CallOf, Resume;
    TidyStep(op, st, ev);
    match ev
    case Start(k') => LeavingStart(op, k, st);
    case Proceed(k', outcome, generated) =>
      if k' in st.passes {
        if st.passes[k].stage == DeletingBinding {
          LeavingDelete(op, k, st, outcome, generated);
        } else {
          LeavingRemove(op, k, st, outcome, generated);
        }
      }
    case Restart(_) => assert forall x :: ViewOf(Relist(st.world), k, x) ==> ViewOf(st.world, k, x);
    case DeliverChange => DeliverViews(st.world);
    case RemoveObject(o) =>
      assert forall x :: ViewOf(Step(op, st, ev).world, k, x) ==> ViewOf(st.world, k, x);
  }

  ghost predicate RemovingEvents(op: Operator, k: Key, evs: seq<Event>) {
    forall i | 0 <= i < |evs| :: Removing(op, k, evs[i])
  }

  lemma {:induction false} LeavingRun(op: Operator, k: Key, st: State, evs: seq<Event>)
    requires Sound(op) && Leaving(op, k, st) && Tidy(op, st) && RemovingEvents(op, k, evs)
    ensures var st' := Run(op, st, evs);
            Tidy(op, st') && Leaving(op, k, st') && Remaining(op, k, st'.world) <= Remaining(op, k, st.world)
    decreases |evs|
  {
    hide Step, Tidy, Sound, Leaving, Remaining, Removing;
    if evs != [] {
      LeavingStep(op, k, st, evs[0]);
      LeavingRun(op, k, Step(op, st, evs[0]), evs[1..]);
    }
  }

  /** Deletion progress: passes cut off anywhere never add to what is left to do, they never strip
      the finalizer without removing the cluster, and no unmarked binding outlives the cluster. As
      long as the cluster is there, one pass with every call served leaves nothing but a marked
      binding for the garbage collector, which then has nothing left. */
  lemma DeletionProgress(op: Operator, k: Key, st: State, evs: seq<Event>, generated: Option<KeyPair>)
    requires Sound(op) && Tidy(op, st) && Leaving(op, k, st) && RemovingEvents(op, k, evs)
    ensures var mid := Run(op, st, evs);
            && Remaining(op, k, mid.world) <= Remaining(op, k, st.world)
            && (k in mid.world.clusters ==> mid.world.clusters[k].Guarded())
            && (k !in mid.world.clusters ==> !Live(mid.world.objects, BindingKey(op, k)))
            && (Resting(k, mid) ==>
                  var after := FullPass(op, mid, k, generated);
                  && k !in after.world.clusters && !Live(after.world.objects, BindingKey(op, k))
                  && Remaining(op, k, after.world) < Remaining(op, k, mid.world)
                  && Remaining(op, k, Step(op, after, RemoveObject(BindingKey(op, k))).world) == 0
                  && k in after.returned && after.returned[k])
  {
    hide Run, FullPass, Tidy, Sound;
    LeavingRun(op, k, st, evs);
    var mid := Run(op, st, evs);
    if k in mid.world.clusters {
      assert ViewOf(mid.world, k, mid.world.clusters[k]);
      LastGuardMeans(mid.world.clusters[k]);
      if k !in mid.passes && CaughtUp(mid.world, k) {
        DeletionCompletes(op, k, mid, generated);
      }
    }
  }

  /** A marked cluster is on its way out as soon as the cache has caught up or was listed anew. */
  lemma MarkedLeaves(op: Operator, k: Key, st: State)
    requires Resting(k, st) && LastGuard(st.world.clusters[k])
    ensures Leaving(op, k, st)
  {
  }

  /** From any state of any run: once the process has restarted, a marked cluster that only the
      controller holds is gone after one pass with every call served, together with its binding. */
  lemma DeletionAfterRestart(op: Operator, k: Key, st: State, salt: string, generated: Option<KeyPair>)
    requires Sound(op) && Tidy(op, st) && k in st.world.clusters && LastGuard(st.world.clusters[k])
    ensures var after := FullPass(op, Step(op, st, Restart(salt)), k, generated);
            && k !in after.world.clusters && !Live(after.world.objects, BindingKey(op, k))
            && k in after.returned && after.returned[k]
  {
    hide FullPass, Tidy, Sound, LastGuard, Leaving;
    var anew := Step(op, st, Restart(salt));
    TidyStep(op, st, Restart(salt));
    MarkedLeaves(op, k, anew);
    DeletionProgress(op, k, anew, [], generated);
  }

  /** Where names collide, one cluster's deletion takes the binding of the other with it, which goes
      on without one: why each cluster needs a binding name of its own. */
  lemma CollidingBindingLost(op: Operator, a: Key, b: Key, st: State, generated: Option<KeyPair>)
    requires Sound(op) && Tidy(op, st) && Resting(a, st) && LastGuard(st.world.clusters[a])
    requires a != b && b in st.world.clusters && BindingKey(op, a) == BindingKey(op, b)
    ensures var after := FullPass(op, st, a, generated);
            && b in after.world.clusters && after.world.clusters[b] == st.world.clusters[b]
            && !Live(after.world.objects, BindingKey(op, b))
  {
    hide FullPass, Tidy, Sound;
    LastGuardMeans(st.world.clusters[a]);
    DeletionCompletes(op, a, st, generated);
  }

  // ---------------------------------------------------------------- the premise on the last finalizer

  /** A pass with every call served is a run of steps. */
  lemma {:induction false} FinishIsRun(op: Operator, st: State, k: Key, generated: Option<KeyPair>)
      returns (evs: seq<Event>)
    ensures Run(op, st, evs) == Finish(op, st, k, generated)
    ensures forall i | 0 <= i < |evs| :: evs[i] == Proceed(k, Served, generated)
    decreases if k in st.passes then Rank(st.passes[k].stage) + 1 else 0
  {
    hide Serve, Resume, CallOf;
    if k !in st.passes {
      evs := [];
    } else {
      var p := st.passes[k];
      ResumeDescends(op, p, Serve(op, st.world, CallOf(op, p), Served).1, generated);
      var st' := Step(op, st, Proceed(k, Served, generated));
      var rest := FinishIsRun(op, st', k, generated);
      evs := [Proceed(k, Served, generated)] + rest;
      assert evs[1..] == rest;
      Unfinished(op, st, k, generated);
    }
  }

  /** The users of a run are polite, whatever finalizers of others do. */
  ghost predicate PoliteUsers(op: Operator, tenants: set<Key>, st: State, evs: seq<Event>)
    decreases |evs|
  {
    evs != [] ==> Polite(op, tenants, st, evs[0]) && PoliteUsers(op, tenants, Step(op, st, evs[0]), evs[1..])
  }

  lemma {:induction false} PoliteConcat(op: Operator, tenants: set<Key>, st: State, a: seq<Event>, b: seq<Event>)
    requires PoliteUsers(op, tenants, st, a) && PoliteUsers(op, tenants, Run(op, st, a), b)
    ensures PoliteUsers(op, tenants, st, a + b)
    decreases |a|
  {
    hide Step, Polite;
    if a == [] {
      assert a + b == b;
    } else {
      assert (a + b)[0] == a[0] && (a + b)[1..] == a[1..] + b;
      PoliteConcat(op, tenants, Step(op, st, a[0]), a[1..], b);
    }
  }

  lemma {:induction false} PassesPolite(op: Operator, tenants: set<Key>, st: State, evs: seq<Event>)
    requires forall i | 0 <= i < |evs| :: evs[i].Proceed? || evs[i].Start?
    ensures PoliteUsers(op, tenants, st, evs)
    decreases |evs|
  {
    hide Step;
    if evs != [] { PassesPolite(op, tenants, Step(op, st, evs[0]), evs[1..]); }
  }

  /** A deleting cluster held by somebody else's finalizer only is provisioned again; its binding is
      back unless an earlier one is still marked for deletion. */
  lemma ProvisionedAgain(op: Operator, k: Key, st: State, generated: Option<KeyPair>)
    requires Sound(op) && Tidy(op, st) && Ready(op, k, st) && CanPair(op, k, st.world.objects, generated)
    requires st.world.clusters[k].meta.deleting && OAuthBranch(op, st.world.clusters[k])
    ensures var after := FullPass(op, st, k, generated);
            && after.world.clusters == st.world.clusters && k !in after.passes
            && BindingKey(op, k) in after.world.objects
            && (Live(after.world.objects, BindingKey(op, k)) <==> !MarkedObject(st.world, BindingKey(op, k)))
  {
    hide FullPass, Sound, Tidy, ContentOf, PairUsed;
    ServedPassOutcome(op, k, st, generated);
    var b := BaseOf(op, k, st.world, PairUsed(op, k, st.world.objects, generated), st.salt, {st.salt});
    assert Closure.Needed(op, b.goal, OAuthBindingPart);
    assert InPlace(op, b, FullPass(op, st, k, generated).world.objects, OAuthBindingPart);
    assert st.world.clusters[k := st.world.clusters[k]] == st.world.clusters;
  }

  /** Marking and removing a cluster that carries a foreign finalizer only. */
  function ForeignStart(c: RayCluster): seq<Event> {
    [CreateCluster(c), DeliverChange, DeleteCluster(c.Id()), DeliverChange]
  }

  /** A cluster created with a finalizer of somebody else, deleted before the first pass. */
  lemma ForeignMarked(op: Operator, st: State, c: RayCluster)
    requires Sound(op) && Initial(st)
    requires AdmitCreate(op, c.(meta := c.meta.(uid := st.world.nextUid, deleting := false))).Some?
    requires c.meta.finalizers != [] && !c.Guarded()
    ensures var st' := Run(op, st, ForeignStart(c)); var k := c.Id();
            && k !in st'.passes && CaughtUp(st'.world, k) && st'.world.objects == st.world.objects
            && st'.world.clusters.Keys == {k} && st'.world.clusters[k].meta.deleting
            && st'.world.clusters[k].meta.finalizers == c.meta.finalizers
            && st'.world.clusters[k].Suspended() == c.Suspended()
    ensures PoliteUsers(op, {c.Id()}, st, ForeignStart(c))
  {
    hide Sound, Fixed;
    var k := c.Id();
    var asked := c.(meta := c.meta.(uid := st.world.nextUid, deleting := false));
    var d := op.defaulter(asked).value;
    DefaultsSoundly(op, asked);
    var s1 := Step(op, st, CreateCluster(c));
    var s2 := Step(op, s1, DeliverChange);
    var s3 := Step(op, s2, DeleteCluster(k));
    var s4 := Step(op, s3, DeliverChange);
    var evs := ForeignStart(c);
    FourSteps(op, st, evs[0], evs[1], evs[2], evs[3]);
    FourPolite(op, {k}, st, evs[0], evs[1], evs[2], evs[3]);
  }

  lemma DefaultsSoundly(op: Operator, c: RayCluster)
    requires Sound(op) && op.defaulter(c).Some?
    ensures DefaultedFrom(op, c, op.defaulter(c).value)
  {
  }

  lemma FourSteps(op: Operator, st: State, a: Event, b: Event, c: Event, d: Event)
    ensures Run(op, st, [a, b, c, d]) == Step(op, Step(op, Step(op, Step(op, st, a), b), c), d)
  {
    hide Step;
    assert [a, b, c, d][1..] == [b, c, d] && [b, c, d][1..] == [c, d] && [c, d][1..] == [d];
    var s3 := Step(op, Step(op, Step(op, st, a), b), c);
    assert Run(op, s3, [d]) == Step(op, s3, d);
    assert Run(op, Step(op, Step(op, st, a), b), [c, d]) == Run(op, s3, [d]);
    assert Run(op, Step(op, st, a), [b, c, d]) == Run(op, Step(op, Step(op, st, a), b), [c, d]);
  }

  lemma FourPolite(op: Operator, tenants: set<Key>, st: State, a: Event, b: Event, c: Event, d: Event)
    requires Polite(op, tenants, st, a)
    requires forall st':: Polite(op, tenants, st', b) && Polite(op, tenants, st', c) && Polite(op, tenants, st', d)
    ensures PoliteUsers(op, tenants, st, [a, b, c, d])
  {
    hide Step, Polite;
    assert [a, b, c, d][1..] == [b, c, d] && [b, c, d][1..] == [c, d] && [c, d][1..] == [d];
    var s1 := Step(op, st, a);
    var s2 := Step(op, s1, b);
    var s3 := Step(op, s2, c);
    assert PoliteUsers(op, tenants, s3, [d]);
    assert PoliteUsers(op, tenants, s2, [c, d]);
    assert PoliteUsers(op, tenants, s1, [b, c, d]);
  }

  /** Dropping the foreign finalizer then removes the cluster. */
  lemma ForeignDropped(op: Operator, st: State, k: Key)
    requires Sound(op) && Tidy(op, st) && k in st.world.clusters && st.world.clusters[k].meta.deleting
    ensures var c := st.world.clusters[k];
            var st' := Step(op, st, EditCluster(c.(meta := c.meta.(finalizers := []))));
            st'.world.clusters == st.world.clusters - {k} && st'.world.objects == st.world.objects
  {
    hide SoundPlaces, SoundKinds, SoundCa;
    var c := st.world.clusters[k];
    assert ViewOf(st.world, k, c);
    var m := c.meta.(finalizers := []);
    var asked := c.(meta := m);
    assert op.defaulter(c.(meta := m)) == Some(c.(meta := m));
    assert asked.(meta := asked.meta.(deleting := true)) == asked;
    DefaultsSoundly(op, asked);
  }

  /** Why the premise on the last finalizer is needed: whenever OAuth is on, on OpenShift, users who
      keep to all other rules can leak a binding for good, by holding a deleted cluster with a
      finalizer of their own. The run ends with a binding and no cluster at all. */
  lemma FinalizerLastNeeded(op: Operator, st: State, c: RayCluster, pair: KeyPair) returns (evs: seq<Event>)
    requires Sound(op) && Initial(st) && op.oauth && op.openShift && !c.Suspended()
    requires AdmitCreate(op, c.(meta := c.meta.(uid := st.world.nextUid, deleting := false))).Some?
    requires c.meta.finalizers != [] && !c.Guarded() && BindingKey(op, c.Id()) !in st.world.objects
    ensures PoliteUsers(op, {c.Id()}, st, evs)
    ensures !NoLeak(op, {c.Id()}, Run(op, st, evs).world) && Run(op, st, evs).world.clusters == map[]
  {
    hide Run, Step, Sound, Tidy, Finish, PoliteUsers;
    var k := c.Id();
    var tenants := {k};
    var generated := Some(pair);
    var a := ForeignStart(c);
    ForeignMarked(op, st, c);
    var s1 := Run(op, st, a);
    assert Tidy(op, s1) by { InitialTidy(op, st); TidyRun(op, st, a); }
    ProvisionedAgain(op, k, s1, generated);
    var served := FinishIsRun(op, Step(op, s1, Start(k)), k, generated);
    var pass := [Start(k)] + served;
    var s2 := FullPass(op, s1, k, generated);
    RunConcat(op, s1, [Start(k)], served);
    RunOne(op, s1, Start(k));
    PassesPolite(op, tenants, s1, pass);
    TidyRun(op, s1, pass);
    var last := s2.world.clusters[k];
    var edit := [EditCluster(last.(meta := last.meta.(finalizers := [])))];
    ForeignDropped(op, s2, k);
    RunOne(op, s2, edit[0]);
    PoliteOne(op, tenants, s2, edit[0]);
    evs := a + (pass + edit);
    RunConcat(op, s1, pass, edit);
    RunConcat(op, st, a, pass + edit);
    PoliteConcat(op, tenants, s1, pass, edit);
    PoliteConcat(op, tenants, st, a, pass + edit);
  }

  lemma PoliteOne(op: Operator, tenants: set<Key>, st: State, ev: Event)
    ensures PoliteUsers(op, tenants, st, [ev]) <==> Polite(op, tenants, st, ev)
  {
    hide Step, Polite;
    assert PoliteUsers(op, tenants, Step(op, st, ev), [ev][1..]);
  }

  lemma InitialTidy(op: Operator, st: State)
    requires Initial(st)
    ensures Tidy(op, st)
  {
  }
}
