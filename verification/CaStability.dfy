/** The CA pair of a cluster, once stored, is never replaced. */
module CaStability {
  import opened Wrappers
  import opened Kube
  import opened Objects
  import opened Operators
  import opened ApiServer
  import opened Protocol
  import opened AdmissionRuns
  import opened BindingSafety
  import opened Footprints

  function CaKey(op: Operator, k: Key): ObjectKey {
    KeyOf(op, k, CaSecretPart)
  }

  /** Nobody but the controller writes the secret. */
  predicate LeavesCa(op: Operator, k: Key, ev: Event) {
    match ev
    case PutObject(o, _) => o != CaKey(op, k)
    case RemoveObject(o) => o != CaKey(op, k)
    case _ => true
  }

  /** A pass about to apply a pair applies the stored one, if one is stored: the pair it holds was
      read from the store, or generated when there was none. */
  ghost predicate PairFresh(op: Operator, k: Key, st: State) {
    k in st.passes && st.passes[k].stage == Applying(CaSecretPart) && CaKey(op, k) in st.world.objects ==>
      PairOf(st.world.objects[CaKey(op, k)]) == st.passes[k].locals.pair
  }

  ghost predicate PairKept(op: Operator, k: Key, w: World, w': World) {
    CaKey(op, k) in w.objects ==>
      CaKey(op, k) in w'.objects && PairOf(w'.objects[CaKey(op, k)]) == PairOf(w.objects[CaKey(op, k)])
  }

  lemma ReadPair(op: Operator, p: Pass, reply: Reply, generated: Option<KeyPair>)
    ensures var r := Resume(op, p, reply, generated);
            r.Continue? && r.pass.stage == Applying(CaSecretPart) ==>
              && p.stage == ReadingCa
              && ((reply.NotFound? && generated == Some(r.pass.locals.pair))
                  || (reply.Found? && r.pass.locals.pair == PairOf(reply.found)))
  {
    hide PairOf, MissingSecrets;
  }

  lemma OwnStep(op: Operator, k: Key, st: State, outcome: Outcome, generated: Option<KeyPair>)
    requires Sound(op) && Tidy(op, st) && PairFresh(op, k, st) && k in st.passes
    ensures var st' := Step(op, st, Proceed(k, outcome, generated));
            PairFresh(op, k, st') && PairKept(op, k, st.world, st'.world)
  {
    hide Resume, PairOf, Tidy, Sound, Serve, CallOf;
    var p := st.passes[k];
    var (w', reply) := Serve(op, st.world, CallOf(op, p), outcome);
    TidyPass(op, st, k);
    ReadPair(op, p, reply, generated);
    ServePair(op, k, st.world, p, outcome);
  }

  /** What one call does to the stored pair, and what a read of it returns. */
  lemma ServePair(op: Operator, k: Key, w: World, p: Pass, outcome: Outcome)
    requires Sound(op) && p.cluster.Ident() == IdOf(k)
    requires p.stage == Applying(CaSecretPart) && CaKey(op, k) in w.objects ==>
        PairOf(w.objects[CaKey(op, k)]) == p.locals.pair
    ensures var (w', reply) := Serve(op, w, CallOf(op, p), outcome);
            && PairKept(op, k, w, w')
            && (p.stage == ReadingCa ==>
                  && w' == w
                  && (reply.NotFound? ==> CaKey(op, k) !in w.objects)
                  && (reply.Found? ==> CaKey(op, k) in w.objects && reply.found == w.objects[CaKey(op, k)]))
  {
    hide PairOf, Update, HeadPods, OperatorPods, SoundWebhook, SoundCa, SoundKinds, ContentOf;
    var w' := Serve(op, w, CallOf(op, p), outcome).0;
    if p.stage == Applying(CaSecretPart) {
      AppliedPair(op, p, w.objects);
    } else {
      ServeTouches(op, w, p, outcome);
      OtherTarget(op, k, p.stage);
      assert SameObject(w.objects, w'.objects, CaKey(op, k));
    }
  }

  lemma OtherTarget(op: Operator, k: Key, stage: Stage)
    requires Sound(op) && stage != Applying(CaSecretPart)
    ensures Target(stage).Some? ==> op.place(IdOf(k), Target(stage).value) != CaKey(op, k)
  {
  }

  lemma AppliedPair(op: Operator, p: Pass, objects: map<ObjectKey, Object>)
    requires Sound(op)
    ensures var key := op.place(p.cluster.Ident(), CaSecretPart);
            var objects' := ApplyTo(objects, key, ContentOf(op, p.cluster, CaSecretPart, p.locals));
            PairOf(objects'[key]) == p.locals.pair
  {
    hide PairOf, SoundWebhook, SoundKinds, SoundPlaces;
  }

  lemma OtherStep(op: Operator, k: Key, k': Key, st: State, outcome: Outcome, generated: Option<KeyPair>)
    requires Sound(op) && Tidy(op, st) && PairFresh(op, k, st) && k' in st.passes && k' != k
    ensures var st' := Step(op, st, Proceed(k', outcome, generated));
            PairFresh(op, k, st') && PairKept(op, k, st.world, st'.world)
  {
    hide Resume, PairOf, Serve, CallOf, Tidy, SoundWebhook, SoundCa, SoundKinds;
    var w := st.world;
    var p := st.passes[k'];
    TidyPass(op, st, k');
    ServeTouches(op, w, p, outcome);
    if Target(p.stage).Some? {
      assert op.place(IdOf(k'), Target(p.stage).value) != CaKey(op, k);
    }
    assert SameObject(w.objects, Serve(op, w, CallOf(op, p), outcome).0.objects, CaKey(op, k));
  }

  lemma CaStep(op: Operator, k: Key, st: State, ev: Event)
    requires Sound(op) && Tidy(op, st) && PairFresh(op, k, st) && LeavesCa(op, k, ev)
    ensures var st' := Step(op, st, ev);
            Tidy(op, st') && PairFresh(op, k, st') && PairKept(op, k, st.world, st'.world)
  {
    hide Begin, Serve, CallOf, Resume, Create, Update, Tidy, PairOf, Sound;
    TidyStep(op, st, ev);
    match ev
    case Start(k') =>
      if k' !in st.passes && k' in st.world.cache { BeginNotCa(op, st.world.cache[k'], st.salt); }
    case Proceed(k', outcome, generated) =>
      if k' in st.passes {
        if k' == k { OwnStep(op, k, st, outcome, generated); } else { OtherStep(op, k, k', st, outcome, generated); }
      }
    case EditCluster(c) => UpdateTouches(op, st.world, c);
    case CreateCluster(c) => CreateLeaves(op, st.world, c);
    case _ =>
  }

  lemma BeginNotCa(op: Operator, c: RayCluster, salt: string)
    ensures var r := Begin(op, c, salt); r.Continue? ==> r.pass.stage != Applying(CaSecretPart)
  {
  }

  lemma {:induction false} CaRun(op: Operator, k: Key, st: State, evs: seq<Event>)
    requires Sound(op) && Tidy(op, st) && PairFresh(op, k, st)
    requires forall i | 0 <= i < |evs| :: LeavesCa(op, k, evs[i])
    ensures var st' := Run(op, st, evs);
            Tidy(op, st') && PairFresh(op, k, st') && PairKept(op, k, st.world, st'.world)
    decreases |evs|
  {
    hide Step, Tidy, Sound, PairFresh;
    if evs != [] {
      CaStep(op, k, st, evs[0]);
      CaRun(op, k, Step(op, st, evs[0]), evs[1..]);
    }
  }

  /** In every run from an empty cluster, whatever fails or gets lost between reading, generating
      and applying, the first pair stored for a cluster stays: at most one generated pair ever
      reaches the store. */
  lemma CaPairStable(op: Operator, k: Key, st: State, before: seq<Event>, after: seq<Event>)
    requires Sound(op) && Initial(st)
    requires forall i | 0 <= i < |before| :: LeavesCa(op, k, before[i])
    requires forall i | 0 <= i < |after| :: LeavesCa(op, k, after[i])
    ensures var mid := Run(op, st, before);
            PairKept(op, k, mid.world, Run(op, mid, after).world)
  {
    hide Run, PairKept, LeavesCa;
    CaRun(op, k, st, before);
    CaRun(op, k, Run(op, st, before), after);
  }
}
