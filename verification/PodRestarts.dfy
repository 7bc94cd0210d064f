/** Restarts of the head pod for missing pull secrets are bounded over every run. */
module PodRestarts {
  import opened Wrappers
  import opened Kube
  import opened Objects
  import opened Operators
  import opened ApiServer
  import opened Protocol
  import opened AdmissionRuns
  import opened BindingSafety
  import opened Footprints
  import Closure
  import Convergence

  datatype PodId = PodId(namespace: string, name: string)

  function IdOfPod(p: Pod): PodId {
    PodId(p.namespace, p.name)
  }

  function AccountKey(op: Operator, k: Key): ObjectKey {
    KeyOf(op, k, OAuthAccountPart)
  }

  /** The pull secrets of the cluster's ServiceAccount. */
  function AccountSecrets(op: Operator, k: Key, objects: map<ObjectKey, Object>): seq<string> {
    if AccountKey(op, k) in objects then objects[AccountKey(op, k)].pullSecrets else []
  }

  predicate Carries(account: seq<string>, p: Pod) {
    MissingSecrets(account, p.pullSecrets) == {}
  }

  // ---------------------------------------------------------------- counting

  /** A run so far: its state, the pods that passes for the cluster have deleted, how often the
      pull secrets of the ServiceAccount have changed, and the pods there have been. */
  datatype Ledger = Ledger(state: State, deleted: set<PodId>, changes: nat, seen: set<PodId>)

  function Aim(p: Pass): PodId {
    PodId(p.podNamespace, p.podName)
  }

  function Deletes(st: State, k: Key, ev: Event): set<PodId> {
    if ev.Proceed? && ev.key == k && k in st.passes && st.passes[k].stage == DeletingHeadPod && ev.outcome != Refused
       && exists x | x in st.world.pods :: IdOfPod(x) == Aim(st.passes[k])
    then {Aim(st.passes[k])} else {}
  }

  function Advance(op: Operator, k: Key, l: Ledger, ev: Event): Ledger {
    var st' := Step(op, l.state, ev);
    var same := AccountSecrets(op, k, st'.world.objects) == AccountSecrets(op, k, l.state.world.objects);
    Ledger(st', l.deleted + Deletes(l.state, k, ev),
           l.changes + (if same then 0 else 1),
           l.seen + (set x | x in st'.world.pods :: IdOfPod(x)))
  }

  function Tally(op: Operator, k: Key, l: Ledger, evs: seq<Event>): Ledger
    decreases |evs|
  {
    if evs == [] then l else Tally(op, k, Advance(op, k, l, evs[0]), evs[1..])
  }

  // ---------------------------------------------------------------- premises on pods

  /** One head pod at a time. */
  ghost predicate OneHead(pods: seq<Pod>, k: Key) {
    forall i, j | 0 <= i < |pods| && 0 <= j < |pods| && HeadPodOf(pods[i], k) && HeadPodOf(pods[j], k) :: i == j
  }

  /** A pod stays as it was created but for its deletion mark, names are not used again, and a new
      head pod carries the pull secrets the ServiceAccount has when it is created. */
  ghost predicate Lifecycle(op: Operator, k: Key, l: Ledger, ev: Event) {
    ev.SetPods? ==>
      && PodsUnique(ev.pods) && OneHead(ev.pods, k)
      && forall x | x in ev.pods ::
           || (exists y | y in l.state.world.pods :: SamePod(y, x))
           || (IdOfPod(x) !in l.seen
               && (HeadPodOf(x, k) ==> Carries(AccountSecrets(op, k, l.state.world.objects), x)))
  }

  predicate SamePod(y: Pod, x: Pod) {
    x == y.(terminating := x.terminating)
  }

  ghost predicate LifecycleRun(op: Operator, k: Key, l: Ledger, evs: seq<Event>)
    decreases |evs|
  {
    evs != [] ==> Lifecycle(op, k, l, evs[0]) && LifecycleRun(op, k, Advance(op, k, l, evs[0]), evs[1..])
  }

  // ---------------------------------------------------------------- the invariant

  /** No pod can be newly deleted until the pull secrets change: every undeleted head pod carries
      them, and a pass under way holds no others and aims at no undeleted pod. */
  ghost predicate Settled(op: Operator, k: Key, l: Ledger) {
    var st := l.state;
    var account := AccountSecrets(op, k, st.world.objects);
    && (forall x | x in st.world.pods && HeadPodOf(x, k) && IdOfPod(x) !in l.deleted :: Carries(account, x))
    && (k in st.passes ==> PassSettled(account, l, st.passes[k]))
  }

  ghost predicate PassSettled(account: seq<string>, l: Ledger, p: Pass) {
    && (p.stage == ListingHeadPods ==> forall x | x in p.accountSecrets :: x in account)
    && (p.stage == DeletingHeadPod ==>
          Aim(p) in l.deleted || forall x | x in l.state.world.pods :: IdOfPod(x) != Aim(p))
  }

  ghost predicate PodsOrderly(k: Key, l: Ledger) {
    var st := l.state;
    && PodsUnique(st.world.pods) && OneHead(st.world.pods, k)
    && (forall x | x in st.world.pods :: IdOfPod(x) in l.seen)
    && VictimOwn(st, k)
    && (k in st.passes && st.passes[k].stage == DeletingHeadPod ==> Aim(st.passes[k]) in l.seen)
  }

  ghost predicate Bounded(op: Operator, k: Key, l: Ledger) {
    |l.deleted| <= l.changes + (if Settled(op, k, l) then 1 else 0)
  }

  // ---------------------------------------------------------------- steps

  /** No pass changes the pull secrets of a ServiceAccount: applying it keeps them. */
  lemma PassesKeepSecrets(op: Operator, k: Key, st: State, k': Key, outcome: Outcome, generated: Option<KeyPair>)
    requires Sound(op) && Tidy(op, st)
    ensures AccountSecrets(op, k, Step(op, st, Proceed(k', outcome, generated)).world.objects)
            == AccountSecrets(op, k, st.world.objects)
  {
    hide Resume, Tidy, SoundWebhook, SoundCa, SoundKinds, Update, HeadPods, OperatorPods, ContentOf, SoundPlaces;
    if k' in st.passes {
      var p := st.passes[k'];
      TidyPass(op, st, k');
      ServeTouches(op, st.world, p, outcome);
      var objects' := Serve(op, st.world, CallOf(op, p), outcome).0.objects;
      if p.stage != Applying(OAuthAccountPart) || k' != k {
        OtherKeys(op, k, k', p.stage);
        assert SameObject(st.world.objects, objects', AccountKey(op, k));
      }
    }
  }

  lemma OtherKeys(op: Operator, k: Key, k': Key, stage: Stage)
    requires Sound(op) && (stage != Applying(OAuthAccountPart) || k' != k)
    ensures Target(stage).Some? ==> op.place(IdOf(k'), Target(stage).value) != AccountKey(op, k)
  {
  }

  /** Passes change pods by marking them only. */
  lemma PassesMarkPods(op: Operator, w: World, p: Pass, outcome: Outcome)
    ensures var w' := Serve(op, w, CallOf(op, p), outcome).0;
            |w'.pods| == |w.pods| && forall i | 0 <= i < |w.pods| :: SamePod(w.pods[i], w'.pods[i])
  {
    hide HeadPods, OperatorPods, Update, ContentOf;
    UpdateLeaves(op, w, p.cluster);
  }

  /** What the next stage of a pass aims at, and which secrets it compares with. */
  lemma ResumePods(op: Operator, w: World, p: Pass, outcome: Outcome, generated: Option<KeyPair>)
    ensures var (w', reply) := Serve(op, w, CallOf(op, p), outcome);
            var r := Resume(op, p, reply, generated);
            r.Continue? ==>
              && (r.pass.stage == ListingHeadPods ==>
                    var at := op.place(p.cluster.Ident(), OAuthAccountPart);
                    at in w.objects && r.pass.accountSecrets == w.objects[at].pullSecrets && w' == w)
              && (r.pass.stage == DeletingHeadPod ==>
                    && p.stage == ListingHeadPods && w' == w && HeadPods(w.pods, p.cluster.Id()) != []
                    && Aim(r.pass) == IdOfPod(HeadPods(w.pods, p.cluster.Id())[0])
                    && !Carries(p.accountSecrets, HeadPods(w.pods, p.cluster.Id())[0]))
  {
    hide HeadPods, OperatorPods, Update, ContentOf, MissingSecrets, PairOf;
  }

  ghost predicate Marked(before: seq<Pod>, after: seq<Pod>) {
    |after| == |before| && forall i | 0 <= i < |before| :: SamePod(before[i], after[i])
  }

  /** A pass under way for `k` aims at seen pods of `k` only. */
  ghost predicate AimsWell(k: Key, l: Ledger, p: Pass) {
    p.stage == DeletingHeadPod ==>
      && Aim(p) in l.seen
      && forall x | x in l.state.world.pods && IdOfPod(x) == Aim(p) :: HeadPodOf(x, k)
  }

  lemma OrderlyAims(k: Key, l: Ledger)
    requires PodsOrderly(k, l) && k in l.state.passes
    ensures AimsWell(k, l, l.state.passes[k])
  {
    var p := l.state.passes[k];
    var pods := l.state.world.pods;
    if p.stage == DeletingHeadPod {
      forall x | x in pods && IdOfPod(x) == Aim(p) ensures HeadPodOf(x, k) {
        var i :| 0 <= i < |pods| && pods[i] == x;
        assert IsPod(pods[i], p.podNamespace, p.podName);
      }
    }
  }

  /** Marking pods, and passes that aim well, keep the order. */
  lemma MarkedOrderly(op: Operator, k: Key, l: Ledger, ev: Event)
    requires PodsOrderly(k, l) && Marked(l.state.world.pods, Step(op, l.state, ev).world.pods)
    requires k in Step(op, l.state, ev).passes ==>
               var p := Step(op, l.state, ev).passes[k];
               AimsWell(k, l, p) || (k in l.state.passes && p == l.state.passes[k])
    ensures PodsOrderly(k, Advance(op, k, l, ev))
  {
    hide Step;
    var l' := Advance(op, k, l, ev);
    var pods, pods' := l.state.world.pods, l'.state.world.pods;
    assert forall i | 0 <= i < |pods'| :: SamePod(pods[i], pods'[i]) && IdOfPod(pods'[i]) == IdOfPod(pods[i]);
    forall x | x in pods' ensures IdOfPod(x) in l'.seen {}
    if k in l.state.passes { OrderlyAims(k, l); }
    if k in l'.state.passes && l'.state.passes[k].stage == DeletingHeadPod {
      var p := l'.state.passes[k];
      assert AimsWell(k, l, p);
      forall i | 0 <= i < |pods'| && IsPod(pods'[i], p.podNamespace, p.podName) ensures HeadPodOf(pods'[i], k) {
        assert pods[i] in pods && IdOfPod(pods[i]) == Aim(p);
      }
    }
  }

  lemma ListedAims(k: Key, l: Ledger, p: Pass)
    requires PodsOrderly(k, l) && HeadPods(l.state.world.pods, k) != []
    requires Aim(p) == IdOfPod(HeadPods(l.state.world.pods, k)[0])
    ensures AimsWell(k, l, p)
  {
    var pods := l.state.world.pods;
    var x := HeadPods(pods, k)[0];
    HeadPodsListed(pods, k);
    ListedOwn(pods, k, x);
    forall y | y in pods && IdOfPod(y) == Aim(p) ensures HeadPodOf(y, k) {
      var i :| 0 <= i < |pods| && pods[i] == y;
      assert IsPod(pods[i], x.namespace, x.name);
    }
  }

  lemma ProceedOrderly(op: Operator, k: Key, l: Ledger, k': Key, outcome: Outcome, generated: Option<KeyPair>)
    requires Sound(op) && Tidy(op, l.state) && PodsOrderly(k, l) && k' in l.state.passes
    ensures PodsOrderly(k, Advance(op, k, l, Proceed(k', outcome, generated)))
  {
    hide Sound, Tidy, Serve, CallOf, Resume, HeadPods, PodsOrderly;
    var st := l.state;
    PassesMarkPods(op, st.world, st.passes[k'], outcome);
    if k' == k {
      ResumePods(op, st.world, st.passes[k], outcome, generated);
      TidyPass(op, st, k);
      var st' := Step(op, st, Proceed(k, outcome, generated));
      if k in st'.passes && st'.passes[k].stage == DeletingHeadPod { ListedAims(k, l, st'.passes[k]); }
    }
    MarkedOrderly(op, k, l, Proceed(k', outcome, generated));
  }

  lemma SetOrderly(op: Operator, k: Key, l: Ledger, pods: seq<Pod>)
    requires PodsOrderly(k, l) && Lifecycle(op, k, l, SetPods(pods))
    ensures PodsOrderly(k, Advance(op, k, l, SetPods(pods)))
  {
    if k in l.state.passes {
      OrderlyAims(k, l);
      var p := l.state.passes[k];
      if p.stage == DeletingHeadPod {
        forall i | 0 <= i < |pods| && IsPod(pods[i], p.podNamespace, p.podName) ensures HeadPodOf(pods[i], k) {
          assert pods[i] in pods && IdOfPod(pods[i]) == Aim(p);
        }
      }
    }
    forall x | x in pods ensures IdOfPod(x) in Advance(op, k, l, SetPods(pods)).seen {}
  }

  lemma OrderlyStep(op: Operator, k: Key, l: Ledger, ev: Event)
    requires Sound(op) && Tidy(op, l.state) && PodsOrderly(k, l) && Lifecycle(op, k, l, ev)
    ensures PodsOrderly(k, Advance(op, k, l, ev))
  {
    hide Sound, Tidy, Serve, CallOf, Resume, Begin, PodsOrderly, Create, Update, Lifecycle, AimsWell;
    var st := l.state;
    match ev
    case SetPods(pods) => SetOrderly(op, k, l, pods);
    case Proceed(k', outcome, generated) =>
      if k' in st.passes { ProceedOrderly(op, k, l, k', outcome, generated); } else { MarkedOrderly(op, k, l, ev); }
    case Start(k') =>
      if k' !in st.passes && k' in st.world.cache {
        BeginNotVictim(op, st.world.cache[k'], st.salt);
        NotAiming(k, l);
      }
      MarkedOrderly(op, k, l, ev);
    case EditCluster(c) =>
      UpdateLeaves(op, st.world, c);
      MarkedOrderly(op, k, l, ev);
    case CreateCluster(c) =>
      CreateLeaves(op, st.world, c);
      MarkedOrderly(op, k, l, ev);
    case _ => MarkedOrderly(op, k, l, ev);
  }

  lemma NotAiming(k: Key, l: Ledger)
    ensures forall p: Pass :: p.stage != DeletingHeadPod ==> AimsWell(k, l, p)
  {
  }

  // ---------------------------------------------------------------- settled stays settled

  /** Marking pods while the pull secrets stay the same. */
  lemma MarkedSettled(op: Operator, k: Key, l: Ledger, ev: Event)
    requires Settled(op, k, l) && Marked(l.state.world.pods, Step(op, l.state, ev).world.pods)
    requires AccountSecrets(op, k, Step(op, l.state, ev).world.objects) == AccountSecrets(op, k, l.state.world.objects)
    requires k in Step(op, l.state, ev).passes ==>
               var p := Step(op, l.state, ev).passes[k];
               PassSettled(AccountSecrets(op, k, l.state.world.objects), l, p)
    ensures Settled(op, k, Advance(op, k, l, ev))
  {
    hide Step, AccountSecrets, MissingSecrets;
    var l' := Advance(op, k, l, ev);
    var pods, pods' := l.state.world.pods, l'.state.world.pods;
    var account := AccountSecrets(op, k, l.state.world.objects);
    forall x | x in pods' ensures exists y :: y in pods && SamePod(y, x) {
      var i :| 0 <= i < |pods'| && pods'[i] == x;
      assert SamePod(pods[i], x);
    }
    forall x | x in pods' && HeadPodOf(x, k) && IdOfPod(x) !in l'.deleted ensures Carries(account, x) {
      var y :| y in pods && SamePod(y, x);
      assert IdOfPod(y) == IdOfPod(x) && HeadPodOf(y, k);
    }
    if k in l'.state.passes && l'.state.passes[k].stage == DeletingHeadPod {
      forall x | x in pods' ensures IdOfPod(x) != Aim(l'.state.passes[k]) || Aim(l'.state.passes[k]) in l'.deleted {
        var y :| y in pods && SamePod(y, x);
        assert IdOfPod(y) == IdOfPod(x);
      }
    }
  }

  /** A settled pass deletes no new pod, and stays settled. */
  lemma PassStaysSettled(op: Operator, k: Key, l: Ledger, outcome: Outcome, generated: Option<KeyPair>)
    requires Sound(op) && Tidy(op, l.state) && Settled(op, k, l) && k in l.state.passes
    ensures var st' := Step(op, l.state, Proceed(k, outcome, generated));
            k in st'.passes ==> PassSettled(AccountSecrets(op, k, l.state.world.objects), l, st'.passes[k])
    ensures Deletes(l.state, k, Proceed(k, outcome, generated)) <= l.deleted
  {
    hide Sound, Tidy, Serve, CallOf, Resume, HeadPods;
    var st := l.state;
    var p := st.passes[k];
    TidyPass(op, st, k);
    ResumePods(op, st.world, p, outcome, generated);
    HeadPodsListed(st.world.pods, k);
    var st' := Step(op, st, Proceed(k, outcome, generated));
    if k in st'.passes && st'.passes[k].stage == DeletingHeadPod {
      var x := HeadPods(st.world.pods, k)[0];
      assert x in HeadPods(st.world.pods, k);
    }
  }

  lemma SetSettled(op: Operator, k: Key, l: Ledger, pods: seq<Pod>)
    requires Settled(op, k, l) && PodsOrderly(k, l) && Lifecycle(op, k, l, SetPods(pods))
    ensures Settled(op, k, Advance(op, k, l, SetPods(pods)))
  {
    hide AccountSecrets, MissingSecrets;
    var account := AccountSecrets(op, k, l.state.world.objects);
    forall x | x in pods && HeadPodOf(x, k) && IdOfPod(x) !in l.deleted ensures Carries(account, x) {
      if y :| y in l.state.world.pods && SamePod(y, x) {
        assert HeadPodOf(y, k) && IdOfPod(y) == IdOfPod(x);
      }
    }
    if k in l.state.passes && l.state.passes[k].stage == DeletingHeadPod && Aim(l.state.passes[k]) !in l.deleted {
      forall x | x in pods ensures IdOfPod(x) != Aim(l.state.passes[k]) {
        if y :| y in l.state.world.pods && SamePod(y, x) {
          assert IdOfPod(y) == IdOfPod(x);
        }
      }
    }
  }

  ghost predicate SecretsSame(op: Operator, k: Key, l: Ledger, ev: Event) {
    AccountSecrets(op, k, Step(op, l.state, ev).world.objects) == AccountSecrets(op, k, l.state.world.objects)
  }

  lemma SettledStep(op: Operator, k: Key, l: Ledger, ev: Event)
    requires Sound(op) && Tidy(op, l.state) && PodsOrderly(k, l) && Lifecycle(op, k, l, ev)
    requires Settled(op, k, l) && SecretsSame(op, k, l, ev)
    ensures Settled(op, k, Advance(op, k, l, ev)) && Deletes(l.state, k, ev) <= l.deleted
  {
    hide Sound, Tidy, Serve, CallOf, Resume, Begin;
    hide PodsOrderly, Create, Update, Lifecycle, AccountSecrets, MissingSecrets;
    var st := l.state;
    match ev
    case SetPods(pods) => SetSettled(op, k, l, pods);
    case Proceed(k', outcome, generated) =>
      if k' in st.passes {
        PassesMarkPods(op, st.world, st.passes[k'], outcome);
        if k' == k { PassStaysSettled(op, k, l, outcome, generated); }
      }
      MarkedSettled(op, k, l, ev);
    case Start(k') =>
      if k' !in st.passes && k' in st.world.cache {
        BeginReadsNothing(op, st.world.cache[k'], st.salt);
      }
      MarkedSettled(op, k, l, ev);
    case EditCluster(c) =>
      UpdateLeaves(op, st.world, c);
      MarkedSettled(op, k, l, ev);
    case CreateCluster(c) =>
      CreateLeaves(op, st.world, c);
      MarkedSettled(op, k, l, ev);
    case _ => MarkedSettled(op, k, l, ev);
  }

  lemma BeginReadsNothing(op: Operator, c: RayCluster, salt: string)
    ensures var r := Begin(op, c, salt);
            r.Continue? ==> r.pass.stage != DeletingHeadPod && r.pass.stage != ListingHeadPods
  {
  }

  /** Once the head pod has been deleted, nothing is left to delete. */
  lemma DeletionSettles(op: Operator, k: Key, l: Ledger, ev: Event)
    requires Sound(op) && Tidy(op, l.state) && PodsOrderly(k, l) && Deletes(l.state, k, ev) != {}
    ensures Settled(op, k, Advance(op, k, l, ev))
  {
    hide Sound, Tidy, Serve, CallOf, Resume, AccountSecrets, MissingSecrets, HeadPods;
    var st := l.state;
    var p := st.passes[k];
    OrderlyAims(k, l);
    PassesMarkPods(op, st.world, p, ev.outcome);
    ResumePods(op, st.world, p, ev.outcome, ev.generated);
    NotListing(op, p, Serve(op, st.world, CallOf(op, p), ev.outcome).1, ev.generated);
    var l' := Advance(op, k, l, ev);
    var pods, pods' := st.world.pods, l'.state.world.pods;
    var y :| y in pods && IdOfPod(y) == Aim(p);
    var j :| 0 <= j < |pods| && pods[j] == y;
    forall x | x in pods' && HeadPodOf(x, k) ensures IdOfPod(x) in l'.deleted {
      var i :| 0 <= i < |pods'| && pods'[i] == x;
      assert SamePod(pods[i], x);
      assert HeadPodOf(pods[i], k) && HeadPodOf(pods[j], k);
    }
  }

  lemma NotListing(op: Operator, p: Pass, reply: Reply, generated: Option<KeyPair>)
    requires p.stage == DeletingHeadPod
    ensures var r := Resume(op, p, reply, generated);
            r.Continue? ==> r.pass.stage != ListingHeadPods && r.pass.stage != DeletingHeadPod
  {
  }

  lemma BoundedStep(op: Operator, k: Key, l: Ledger, ev: Event)
    requires Sound(op) && Tidy(op, l.state) && PodsOrderly(k, l) && Lifecycle(op, k, l, ev) && Bounded(op, k, l)
    ensures Bounded(op, k, Advance(op, k, l, ev))
  {
    hide Sound, Tidy, PodsOrderly, Settled, Lifecycle, AccountSecrets, Step;
    var l' := Advance(op, k, l, ev);
    if !SecretsSame(op, k, l, ev) {
      if ev.Proceed? { PassesKeepSecrets(op, k, l.state, ev.key, ev.outcome, ev.generated); }
      assert l'.deleted == l.deleted;
    } else if Settled(op, k, l) {
      SettledStep(op, k, l, ev);
      assert l'.deleted == l.deleted;
    } else if Deletes(l.state, k, ev) == {} {
      assert l'.deleted == l.deleted;
    } else {
      DeletionSettles(op, k, l, ev);
      assert l'.deleted == l.deleted + {Aim(l.state.passes[k])};
    }
  }

  lemma {:induction false} BoundedRun(op: Operator, k: Key, l: Ledger, evs: seq<Event>)
    requires Sound(op) && Tidy(op, l.state) && PodsOrderly(k, l) && LifecycleRun(op, k, l, evs) && Bounded(op, k, l)
    ensures Bounded(op, k, Tally(op, k, l, evs))
    decreases |evs|
  {
    hide Sound, Tidy, PodsOrderly, Bounded, Step, Lifecycle;
    if evs != [] {
      TidyStep(op, l.state, evs[0]);
      OrderlyStep(op, k, l, evs[0]);
      BoundedStep(op, k, l, evs[0]);
      BoundedRun(op, k, Advance(op, k, l, evs[0]), evs[1..]);
    }
  }

  /** The count at the start of a run. */
  function Opened(st: State): Ledger {
    Ledger(st, {}, 0, set x | x in st.world.pods :: IdOfPod(x))
  }

  /** In every run, with one head pod at a time and replacements that carry the pull secrets the
      ServiceAccount has when they are created, the passes delete at most one more head pod than
      there were changes of those secrets: whatever fails, and whatever else happens meanwhile. */
  lemma RestartsBounded(op: Operator, k: Key, st: State, evs: seq<Event>)
    requires Sound(op) && Tidy(op, st) && k !in st.passes
    requires PodsUnique(st.world.pods) && OneHead(st.world.pods, k)
    requires LifecycleRun(op, k, Opened(st), evs)
    ensures var l := Tally(op, k, Opened(st), evs);
            l.state == Run(op, st, evs) && |l.deleted| <= l.changes + 1
  {
    hide Sound, Tidy, LifecycleRun, Tally, Run;
    assert PodsOrderly(k, Opened(st));
    BoundedRun(op, k, Opened(st), evs);
    TallyRuns(op, k, Opened(st), evs);
  }

  lemma {:induction false} TallyRuns(op: Operator, k: Key, l: Ledger, evs: seq<Event>)
    ensures Tally(op, k, l, evs).state == Run(op, l.state, evs)
    decreases |evs|
  {
    hide Step;
    if evs != [] { TallyRuns(op, k, Advance(op, k, l, evs[0]), evs[1..]); }
  }

  // ---------------------------------------------------------------- clusters with pull secrets of their own

  predicate HasSecrets(c: RayCluster) {
    c.head.template.imagePullSecrets != []
  }

  ghost predicate OwnSecrets(k: Key, st: State) {
    && (forall x | ViewOf(st.world, k, x) :: HasSecrets(x))
    && (k in st.passes ==> HasSecrets(st.passes[k].cluster) && !AboutPods(st.passes[k].stage))
  }

  predicate AboutPods(stage: Stage) {
    stage == ReadingAccount || stage == ListingHeadPods || stage == DeletingHeadPod
  }

  /** Users always name pull secrets of their own for this cluster. */
  predicate NamesSecrets(k: Key, ev: Event) {
    match ev
    case CreateCluster(c) => c.Id() == k ==> HasSecrets(c)
    case EditCluster(c) => c.Id() == k ==> HasSecrets(c)
    case _ => true
  }

  lemma ResumeElsewhere(op: Operator, p: Pass, reply: Reply, generated: Option<KeyPair>)
    requires HasSecrets(p.cluster) && !AboutPods(p.stage)
    requires reply.Updated? ==> HasSecrets(reply.cluster)
    ensures var r := Resume(op, p, reply, generated);
            r.Continue? ==> HasSecrets(r.pass.cluster) && !AboutPods(r.pass.stage)
  {
    hide PairOf, MissingSecrets;
  }

  lemma UpdateOwn(op: Operator, k: Key, w: World, c: RayCluster)
    requires Sound(op) && (c.Id() == k ==> HasSecrets(c))
    requires forall x | ViewOf(w, k, x) :: HasSecrets(x)
    ensures var (w', r) := Update(op, w, c);
            && (forall x | ViewOf(w', k, x) :: HasSecrets(x))
            && (r.Some? && c.Id() == k ==> HasSecrets(r.value))
  {
    var (w', r) := Update(op, w, c);
    UpdateReplaces(op, w, c);
    hide Sound, Update;
    if r.Some? {
      if w' == DropCluster(w, c.Id()) { DropViews(w, c.Id()); } else { PutViews(w, r.value); }
    }
  }

  lemma CreateOwn(op: Operator, k: Key, w: World, c: RayCluster)
    requires Sound(op) && (c.Id() == k ==> HasSecrets(c))
    requires forall x | ViewOf(w, k, x) :: HasSecrets(x)
    ensures forall x | ViewOf(Create(op, w, c), k, x) :: HasSecrets(x)
  {
    CreateStores(op, w, c);
    hide Sound, Create;
    var w' := Create(op, w, c);
    if w' != w {
      var d :| Sane(op, c.Id(), d) && d.head.template.imagePullSecrets == c.head.template.imagePullSecrets
               && w' == PutCluster(w.(nextUid := w.nextUid + 1), d);
      var w1 := w.(nextUid := w.nextUid + 1);
      assert forall x :: ViewOf(w1, k, x) ==> ViewOf(w, k, x);
      PutViews(w1, d);
    }
  }

  lemma DeleteOwn(op: Operator, k: Key, w: World, k': Key)
    requires TidyWorld(op, w)
    requires forall x | ViewOf(w, k, x) :: HasSecrets(x)
    ensures forall x | ViewOf(RequestDelete(w, k'), k, x) :: HasSecrets(x)
  {
    if k' in w.clusters {
      var c := w.clusters[k'];
      assert ViewOf(w, k', c);
      DropViews(w, k');
      PutViews(w, c.(meta := c.meta.(deleting := true)));
    }
  }

  lemma ProceedOwn(op: Operator, k: Key, st: State, k': Key, outcome: Outcome, generated: Option<KeyPair>)
    requires Sound(op) && Tidy(op, st) && OwnSecrets(k, st) && k' in st.passes
    ensures OwnSecrets(k, Step(op, st, Proceed(k', outcome, generated)))
  {
    hide Sound, Tidy, Resume, Serve, CallOf, ViewOf;
    var p := st.passes[k'];
    TidyPass(op, st, k');
    CalledOwn(op, p);
    ServeOwn(op, k, st.world, CallOf(op, p), outcome);
    if k' == k { ResumeElsewhere(op, p, Serve(op, st.world, CallOf(op, p), outcome).1, generated); }
  }

  lemma CalledOwn(op: Operator, p: Pass)
    ensures CallOf(op, p).UpdateCluster? ==> CallOf(op, p).cluster == p.cluster
  {
  }

  lemma ServeOwn(op: Operator, k: Key, w: World, call: Call, outcome: Outcome)
    requires Sound(op) && (call.UpdateCluster? && call.cluster.Id() == k ==> HasSecrets(call.cluster))
    requires forall x | ViewOf(w, k, x) :: HasSecrets(x)
    ensures var (w', reply) := Serve(op, w, call, outcome);
            && (forall x | ViewOf(w', k, x) :: HasSecrets(x))
            && (reply.Updated? ==> call.UpdateCluster? && (call.cluster.Id() == k ==> HasSecrets(reply.cluster)))
  {
    hide Sound, Update, HeadPods, OperatorPods;
    if call.UpdateCluster? {
      UpdateOwn(op, k, w, call.cluster);
    } else {
      assert forall x :: ViewOf(Serve(op, w, call, outcome).0, k, x) ==> ViewOf(w, k, x);
    }
  }

  lemma OwnSecretsStep(op: Operator, k: Key, st: State, ev: Event)
    requires Sound(op) && Tidy(op, st) && OwnSecrets(k, st) && NamesSecrets(k, ev)
    ensures OwnSecrets(k, Step(op, st, ev)) && Deletes(st, k, ev) == {}
  {
    hide Sound, Begin, Serve, CallOf, Resume, Create, Update, RequestDelete;
    var w := st.world;
    match ev
    case Start(k') =>
      if k' !in st.passes && k' in w.cache {
        assert ViewOf(w, k', w.cache[k']);
        BeginReadsNothing(op, w.cache[k'], st.salt);
        BeginElsewhere(op, w.cache[k'], st.salt);
      }
    case Proceed(k', outcome, generated) => if k' in st.passes { ProceedOwn(op, k, st, k', outcome, generated); }
    case Restart(_) => assert forall x :: ViewOf(Relist(w), k, x) ==> ViewOf(w, k, x);
    case DeliverChange => DeliverViews(w);
    case CreateCluster(c) => CreateOwn(op, k, w, c);
    case EditCluster(c) => UpdateOwn(op, k, w, c);
    case DeleteCluster(k') => DeleteOwn(op, k, w, k');
    case _ => assert forall x :: ViewOf(Step(op, st, ev).world, k, x) ==> ViewOf(w, k, x);
  }

  lemma BeginElsewhere(op: Operator, c: RayCluster, salt: string)
    ensures var r := Begin(op, c, salt);
            r.Continue? ==> r.pass.stage != ReadingAccount && HasSecrets(r.pass.cluster) == HasSecrets(c)
  {
  }

  lemma {:induction false} OwnSecretsRun(op: Operator, k: Key, l: Ledger, evs: seq<Event>)
    requires Sound(op) && Tidy(op, l.state) && OwnSecrets(k, l.state)
    requires forall i | 0 <= i < |evs| :: NamesSecrets(k, evs[i])
    ensures Tally(op, k, l, evs).deleted == l.deleted
    decreases |evs|
  {
    hide Sound, Tidy, OwnSecrets, Step, NamesSecrets;
    if evs != [] {
      TidyStep(op, l.state, evs[0]);
      OwnSecretsStep(op, k, l.state, evs[0]);
      OwnSecretsRun(op, k, Advance(op, k, l, evs[0]), evs[1..]);
    }
  }

  /** A cluster whose users always name pull secrets of their own never loses a head pod to a pass. */
  lemma NoRestartsWithOwnSecrets(op: Operator, k: Key, st: State, evs: seq<Event>)
    requires Sound(op) && Initial(st) && forall i | 0 <= i < |evs| :: NamesSecrets(k, evs[i])
    ensures Tally(op, k, Opened(st), evs).deleted == {}
  {
    hide Sound, Tally;
    OwnSecretsRun(op, k, Opened(st), evs);
  }

  // ---------------------------------------------------------------- one pass, exactly

  /** The first head pod, if the pass is to delete it: the cluster names no pull secrets and the pod
      lacks one that the ServiceAccount lists. */
  predicate Lacking(op: Operator, c: RayCluster, account: seq<string>, heads: seq<Pod>) {
    OAuthBranch(op, c) && !HasSecrets(c) && Lacks(account, heads)
  }

  function PodsAfter(op: Operator, k: Key, c: RayCluster, account: seq<string>, pods: seq<Pod>): seq<Pod> {
    var heads := HeadPods(pods, k);
    if Lacking(op, c, account, heads) then Terminate(pods, heads[0].namespace, heads[0].name) else pods
  }

  /** How far a pass has got with the head pod. */
  ghost predicate PodStage(op: Operator, k: Key, c: RayCluster, account: seq<string>, pods: seq<Pod>, p: Pass,
                            now: seq<Pod>)
  {
    var heads := HeadPods(pods, k);
    && now == (if Rank(p.stage) >= 10 then pods else PodsAfter(op, k, c, account, pods))
    && (AboutPods(p.stage) ==> OAuthBranch(op, c) && !HasSecrets(c))
    && (p.stage == ListingHeadPods ==> p.accountSecrets == account)
    && (p.stage == DeletingHeadPod ==> heads != [] && Aim(p) == IdOfPod(heads[0]) && !Carries(account, heads[0]))
  }

  lemma ResumeAboutPods(op: Operator, p: Pass, reply: Reply, generated: Option<KeyPair>)
    requires Closure.Provisioning(p.stage) && Closure.StageFits(op, p.cluster, p.stage)
        && Convergence.Answers(p.stage, reply, generated)
    requires !AboutPods(p.stage)
    ensures var r := Resume(op, p, reply, generated);
            && (r.Continue? && AboutPods(r.pass.stage) ==>
                r.pass.stage == ReadingAccount && OAuthBranch(op, p.cluster) && !HasSecrets(p.cluster))
            && (Rank(p.stage) >= 10 && (r.Continue? ==> Rank(r.pass.stage) < 10) ==>
                !OAuthBranch(op, p.cluster) || HasSecrets(p.cluster))
  {
    hide PairOf, MissingSecrets;
  }

  /** The three stages about pods. */
  lemma PodStages(op: Operator, k: Key, w: World, p: Pass, generated: Option<KeyPair>)
    requires AboutPods(p.stage) && p.cluster.Ident() == IdOf(k) && p.cluster.Id() == k
    requires Convergence.Answers(p.stage, Serve(op, w, CallOf(op, p), Served).1, generated)
    ensures var (w', reply) := Serve(op, w, CallOf(op, p), Served);
            var r := Resume(op, p, reply, generated);
            var heads := HeadPods(w.pods, k);
            && r.Continue?
            && (p.stage == ReadingAccount ==>
                  r.pass.stage == ListingHeadPods && r.pass.accountSecrets == AccountSecrets(op, k, w.objects)
                  && w'.pods == w.pods)
            && (p.stage == ListingHeadPods ==>
                  w'.pods == w.pods &&
                  if heads == [] || Carries(p.accountSecrets, heads[0]) then r.pass.stage == Applying(OAuthBindingPart)
                  else r.pass.stage == DeletingHeadPod && Aim(r.pass) == IdOfPod(heads[0]))
            && (p.stage == DeletingHeadPod ==>
                  r.pass.stage == Applying(OAuthBindingPart) && w'.pods == Terminate(w.pods, p.podNamespace, p.podName))
  {
    hide HeadPods, OperatorPods, Update, ContentOf, MissingSecrets, PairOf;
  }

  lemma AnsweredPods(op: Operator, w: World, p: Pass)
    requires p.stage != DeletingHeadPod
    ensures Serve(op, w, CallOf(op, p), Served).0.pods == w.pods
  {
    hide HeadPods, OperatorPods, Update, ContentOf;
    UpdateLeaves(op, w, p.cluster);
  }

  /** Invariant of a pass with every call served: where it stands with the head pod. */
  ghost predicate PodsOnTrack(op: Operator, b: Convergence.Base, account: seq<string>, pods: seq<Pod>, st: State) {
    && AccountSecrets(op, b.key, st.world.objects) == account
    && if b.key in st.passes then PodStage(op, b.key, b.goal, account, pods, st.passes[b.key], st.world.pods)
       else st.world.pods == PodsAfter(op, b.key, b.goal, account, pods)
  }

  lemma ProvisionPods(op: Operator, k: Key, p: Pass, account: seq<string>, pods: seq<Pod>)
    ensures var r := Provision(op, p);
            && (r.Continue? ==> PodStage(op, k, p.cluster, account, pods, r.pass, pods))
            && (r.Return? ==> PodsAfter(op, k, p.cluster, account, pods) == pods)
  {
    hide HeadPods;
  }

  lemma StartPods(op: Operator, b: Convergence.Base, account: seq<string>, st: State)
    requires Sound(op) && Convergence.Partial(op, b, st) && b.key !in st.passes && Convergence.CaughtUp(st.world, b.key)
    requires AccountSecrets(op, b.key, st.world.objects) == account
    ensures PodsOnTrack(op, b, account, st.world.pods, Step(op, st, Start(b.key)))
  {
    hide Provision, Sound, PodsAfter, Convergence.Near, Convergence.GoalOf, AccountSecrets;
    Convergence.GoalKeeps(b);
    var c := st.world.cache[b.key];
    ProvisionPods(op, b.key, NewPass(c, ListingOperators, st.salt), account, st.world.pods);
  }

  lemma ServedPods(op: Operator, b: Convergence.Base, account: seq<string>, pods: seq<Pod>, st: State,
                   generated: Option<KeyPair>)
    requires Sound(op) && Tidy(op, st) && Convergence.Reached(op, b, st, generated) && b.key in st.passes
    requires PodsOnTrack(op, b, account, pods, st)
    ensures PodsOnTrack(op, b, account, pods, Step(op, st, Proceed(b.key, Served, generated)))
  {
    hide Sound, Tidy, Serve, CallOf, Resume;
    hide Provision, HeadPods, AccountSecrets, Convergence.Near, Convergence.Complete;
    hide Convergence.BaseFits, Convergence.ViewsNear, Convergence.InPlace, Closure.Needed;
    var k := b.key;
    var p := st.passes[k];
    var (w', reply) := Serve(op, st.world, CallOf(op, p), Served);
    PassesKeepSecrets(op, k, st, k, Served, generated);
    TidyPass(op, st, k);
    if p.stage == AddingFinalizer {
      AnsweredPods(op, st.world, p);
      Closure.ResumeOther(op, p, reply, generated);
      Convergence.AddingNear(op, b, st.world, p, Served);
      ProvisionPods(op, k, p.(cluster := b.goal), account, pods);
    } else {
      Convergence.ServedAnswers(op, b, st, generated);
      if AboutPods(p.stage) {
        PodStages(op, k, st.world, p, generated);
        LacksExactly(account, HeadPods(pods, k));
      } else {
        AnsweredPods(op, st.world, p);
        ResumeAboutPods(op, p, reply, generated);
        NoPodsUnless(op, k, b.goal, account, pods);
        ResumeDescends(op, p, reply, generated);
        ResumeCluster(op, p, reply, generated);
      }
    }
  }

  lemma NoPodsUnless(op: Operator, k: Key, c: RayCluster, account: seq<string>, pods: seq<Pod>)
    ensures !OAuthBranch(op, c) || HasSecrets(c) ==> PodsAfter(op, k, c, account, pods) == pods
  {
  }

  lemma {:induction false} FinishPods(op: Operator, b: Convergence.Base, account: seq<string>, pods: seq<Pod>,
                                      st: State, generated: Option<KeyPair>)
    requires Sound(op) && Tidy(op, st) && Convergence.Reached(op, b, st, generated)
        && PodsOnTrack(op, b, account, pods, st)
    ensures Finish(op, st, b.key, generated).world.pods == PodsAfter(op, b.key, b.goal, account, pods)
    decreases if b.key in st.passes then Rank(st.passes[b.key].stage) + 1 else 0
  {
    hide Serve, CallOf, Resume, Sound, Tidy, Rank, PodsAfter, PodStage;
    hide Convergence.Near, Convergence.Complete, Convergence.BaseFits;
    hide Convergence.ViewsNear, Convergence.InPlace, Closure.Needed;
    if b.key in st.passes {
      var p := st.passes[b.key];
      ResumeDescends(op, p, Serve(op, st.world, CallOf(op, p), Served).1, generated);
      TidyStep(op, st, Proceed(b.key, Served, generated));
      ServedPods(op, b, account, pods, st, generated);
      if p.stage == AddingFinalizer {
        Convergence.AddedReached(op, b, st, generated);
      } else {
        Convergence.ServedReached(op, b, st, generated);
      }
      FinishPods(op, b, account, pods, Step(op, st, Proceed(b.key, Served, generated)), generated);
    }
  }

  /** A pass with every call served, the first one of a new cluster included, deletes the head pod
      exactly when the cluster names no pull secrets and the ServiceAccount lists one that the pod
      lacks; it changes no other pod. */
  lemma PassDeletesExactly(op: Operator, k: Key, st: State, generated: Option<KeyPair>)
    requires Sound(op) && Tidy(op, st) && Convergence.Ready(op, k, st)
    requires Convergence.CanPair(op, k, st.world.objects, generated)
    ensures FullPass(op, st, k, generated).world.pods ==
            PodsAfter(op, k, st.world.clusters[k], AccountSecrets(op, k, st.world.objects), st.world.pods)
  {
    hide Sound, Tidy, Finish, Step, Convergence.Partial, Convergence.Reached, PodsOnTrack, PodsAfter, AccountSecrets;
    var pair := Convergence.PairUsed(op, k, st.world.objects, generated);
    var b := Convergence.BaseOf(op, k, st.world, pair, st.salt, {st.salt});
    var account := AccountSecrets(op, k, st.world.objects);
    Convergence.BaseReady(op, k, st, pair, st.salt, {st.salt});
    Convergence.StartReached(op, b, st, generated);
    TidyStep(op, st, Start(k));
    StartPods(op, b, account, st);
    FinishPods(op, b, account, st.world.pods, Step(op, st, Start(k)), generated);
    SameNeeds(op, k, b, account, st.world.pods);
  }

  lemma SameNeeds(op: Operator, k: Key, b: Convergence.Base, account: seq<string>, pods: seq<Pod>)
    requires b.goal == Convergence.GoalOf(b.start, b.version)
    ensures PodsAfter(op, k, b.goal, account, pods) == PodsAfter(op, k, b.start, account, pods)
  {
    hide HeadPods;
  }
}
