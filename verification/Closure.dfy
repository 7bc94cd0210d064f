/** What a pass that returns nil has left in the store, whatever happened in between. */
module Closure {
  import opened Wrappers
  import opened Kube
  import opened Objects
  import opened Operators
  import opened ApiServer
  import opened Protocol
  import opened AdmissionRuns
  import opened BindingSafety
  import opened Footprints

  predicate IsPolicy(part: Part) {
    part.HeadPolicyPart? || part.WorkersPolicyPart?
  }

  predicate OAuthPart(part: Part) {
    || part.DashboardRoutePart? || part.OAuthSecretPart? || part.OAuthServicePart? || part.OAuthAccountPart?
    || part.OAuthBindingPart? || part.ClientRoutePart?
  }

  /** The objects a provisioning pass is to maintain for a cluster. */
  predicate Needed(op: Operator, c: RayCluster, part: Part) {
    if part.CaSecretPart? then op.mtls
    else if OAuthPart(part) then OAuthBranch(op, c)
    else if IsPolicy(part) then !IngressBranch(op, c) || op.hasIngressDomain
    else IngressBranch(op, c) && op.hasIngressDomain
  }

  predicate Provisioning(stage: Stage) {
    stage != AddingFinalizer && stage != DeletingBinding && stage != RemovingFinalizer
  }

  /** The branch a stage lies in. */
  predicate StageFits(op: Operator, c: RayCluster, stage: Stage) {
    match stage
    case Applying(part) => Needed(op, c, part)
    case ReadingAccount => OAuthBranch(op, c)
    case ListingHeadPods => OAuthBranch(op, c)
    case DeletingHeadPod => OAuthBranch(op, c)
    case ReadingCa => op.mtls
    case ListingOperators => !IngressBranch(op, c) || op.hasIngressDomain
    case ReadingApplications => op.openShift
    case _ => true
  }

  /** The object of a part is in the store with the fields this pass applies. */
  ghost predicate Stands(op: Operator, k: Key, p: Pass, objects: map<ObjectKey, Object>, part: Part) {
    && KeyOf(op, k, part) in objects
    && objects[KeyOf(op, k, part)].applied == ContentOf(op, p.cluster, part, p.locals)
  }

  /** Every needed object but the policies whose turn has passed stands. */
  ghost predicate Progress(op: Operator, k: Key, p: Pass, objects: map<ObjectKey, Object>) {
    Provisioning(p.stage) ==>
      && StageFits(op, p.cluster, p.stage)
      && forall part :: Needed(op, p.cluster, part) && !IsPolicy(part) && Rank(Applying(part)) > Rank(p.stage) ==>
           Stands(op, k, p, objects, part)
  }

  ghost predicate Progressing(op: Operator, k: Key, st: State) {
    k in st.passes ==> Progress(op, k, st.passes[k], st.world.objects)
  }

  /** All needed objects but the policies stand. */
  ghost predicate AllStand(op: Operator, k: Key, p: Pass, objects: map<ObjectKey, Object>) {
    forall part :: Needed(op, p.cluster, part) && !IsPolicy(part) ==> Stands(op, k, p, objects, part)
  }

  /** Others leave the objects of this cluster alone. */
  ghost predicate Quiet(op: Operator, k: Key, ev: Event) {
    match ev
    case PutObject(o, _) => !Owns(op, k, o)
    case RemoveObject(o) => !Owns(op, k, o)
    case Proceed(k', _, _) => k' == k || k'.name + "-" + k'.namespace != k.name + "-" + k.namespace
    case _ => true
  }

  /** Provisioning begins with nothing due. */
  lemma ProvisionFresh(op: Operator, p: Pass, k: Key, objects: map<ObjectKey, Object>)
    ensures var r := Provision(op, p);
            r.Continue? ==>
                Provisioning(r.pass.stage) && Progress(op, k, r.pass, objects) && r.pass.cluster == p.cluster
  {
    var r := Provision(op, p);
    if r.Continue? {
      forall part | Needed(op, p.cluster, part) && !IsPolicy(part)
        ensures Rank(Applying(part)) <= Rank(r.pass.stage)
      {
        match part
        case CaSecretPart =>
        case _ =>
      }
    }
  }

  /** Where a provisioning stage leads. */
  lemma StagesFit(op: Operator, p: Pass, reply: Reply, generated: Option<KeyPair>)
    requires Provisioning(p.stage) && StageFits(op, p.cluster, p.stage)
    ensures var r := Resume(op, p, reply, generated);
            && (r.Continue? ==>
                  && Provisioning(r.pass.stage) && StageFits(op, p.cluster, r.pass.stage) && r.pass.cluster == p.cluster
                  && (p.stage != ReadingCa ==> r.pass.locals.pair == p.locals.pair)
                  && r.pass.locals.salt == p.locals.salt
                  && (p.stage.Applying? && !IsPolicy(p.stage.part) ==> reply.Done?))
            && (r == Return(true) ==> p.stage == Applying(WorkersPolicyPart))
  {
    hide PairOf, MissingSecrets;
  }

  /** No needed object lies strictly between a stage and the next. */
  ghost predicate Leads(op: Operator, c: RayCluster, from: Stage, to: Stage) {
    forall part :: Needed(op, c, part) && Rank(to) < Rank(Applying(part)) <= Rank(from) ==>
      from == Applying(part)
  }

  lemma NoneSkipped(op: Operator, p: Pass, reply: Reply, generated: Option<KeyPair>)
    requires Provisioning(p.stage) && StageFits(op, p.cluster, p.stage)
    ensures var r := Resume(op, p, reply, generated);
            r.Continue? ==> Leads(op, p.cluster, p.stage, r.pass.stage)
  {
    hide PairOf, MissingSecrets, AfterApply;
    if p.stage.Applying? { AppliedLeads(op, p, p.stage.part); }
  }

  lemma AppliedLeads(op: Operator, p: Pass, part: Part)
    requires StageFits(op, p.cluster, Applying(part))
    ensures var r := AfterApply(op, p, part);
            r.Continue? ==> Leads(op, p.cluster, Applying(part), r.pass.stage)
  {
  }

  /** One resumption: the object just applied joins the standing ones. */
  lemma ResumeProgress(op: Operator, k: Key, p: Pass, objects: map<ObjectKey, Object>, objects': map<ObjectKey, Object>,
                       reply: Reply, generated: Option<KeyPair>)
    requires Provisioning(p.stage) && Progress(op, k, p, objects)
    requires forall part :: Stands(op, k, p, objects, part) && p.stage != Applying(part) ==>
        Stands(op, k, p, objects', part)
    requires p.stage.Applying? && reply.Done? ==> Stands(op, k, p, objects', p.stage.part)
    ensures var r := Resume(op, p, reply, generated);
            && (r.Continue? ==> Progress(op, k, r.pass, objects'))
            && (r == Return(true) ==> AllStand(op, k, p, objects'))
  {
    hide Resume, ContentOf, Needed, StageFits;
    var r := Resume(op, p, reply, generated);
    StagesFit(op, p, reply, generated);
    NoneSkipped(op, p, reply, generated);
    forall part | r.Continue? && Needed(op, p.cluster, part) && !IsPolicy(part) &&
                  Rank(Applying(part)) > Rank(r.pass.stage)
      ensures Stands(op, k, r.pass, objects', part)
    {
      assert Leads(op, p.cluster, p.stage, r.pass.stage);
      assert Stands(op, k, p, objects', part);
      if part.CaSecretPart? { assert Rank(p.stage) <= 18 by { BehindCa(op, p, reply, generated); } }
      SameFields(op, p, r.pass, part);
    }
    forall part | r == Return(true) && Needed(op, p.cluster, part) && !IsPolicy(part)
      ensures Stands(op, k, p, objects', part)
    {
      assert Rank(Applying(part)) > 2;
    }
  }

  /** Once the CA secret lies behind, the pair is settled. */
  lemma BehindCa(op: Operator, p: Pass, reply: Reply, generated: Option<KeyPair>)
    requires Provisioning(p.stage)
    ensures var r := Resume(op, p, reply, generated); r.Continue? && Rank(r.pass.stage) < 18 ==> Rank(p.stage) <= 18
  {
    hide PairOf, MissingSecrets, AfterApply;
  }

  lemma SameFields(op: Operator, p: Pass, q: Pass, part: Part)
    requires q.cluster == p.cluster && q.locals.salt == p.locals.salt && !IsPolicy(part)
    requires part.CaSecretPart? ==> q.locals.pair == p.locals.pair
    ensures ContentOf(op, q.cluster, part, q.locals) == ContentOf(op, p.cluster, part, p.locals)
  {
  }

  /** What the served or failed call of a pass does to its own standing objects. */
  lemma OwnCall(op: Operator, k: Key, st: State, outcome: Outcome)
    requires Sound(op) && Tidy(op, st) && k in st.passes && Provisioning(st.passes[k].stage)
    ensures var p := st.passes[k];
            var (w', reply) := Serve(op, st.world, CallOf(op, p), outcome);
            && (forall part :: Stands(op, k, p, st.world.objects, part) && p.stage != Applying(part) ==>
                  Stands(op, k, p, w'.objects, part))
            && (p.stage.Applying? && reply.Done? ==> Stands(op, k, p, w'.objects, p.stage.part))
  {
    var p := st.passes[k];
    TidyPass(op, st, k);
    ServeTouches(op, st.world, p, outcome);
    hide Fixed, TidyWorld, SoundWebhook, SoundCa, SoundKinds, PairOf, HeadPods, OperatorPods, Update;
    var objects' := Serve(op, st.world, CallOf(op, p), outcome).0.objects;
    forall part | Stands(op, k, p, st.world.objects, part) && p.stage != Applying(part)
      ensures Stands(op, k, p, objects', part)
    {
      if Target(p.stage).Some? {
        assert op.place(IdOf(k), Target(p.stage).value) != op.place(IdOf(k), part);
      }
      assert SameObject(st.world.objects, objects', KeyOf(op, k, part));
    }
  }

  lemma OwnProceed(op: Operator, k: Key, st: State, outcome: Outcome, generated: Option<KeyPair>)
    requires Sound(op) && Tidy(op, st) && k in st.passes && Progressing(op, k, st)
    ensures var p := st.passes[k];
            var st' := Step(op, st, Proceed(k, outcome, generated));
            && Progressing(op, k, st')
            && (k !in st'.passes && st'.returned[k] && p.stage != RemovingFinalizer ==>
                AllStand(op, k, p, st'.world.objects))
  {
    hide Serve, Resume, CallOf, Provision, AllStand, Sound, Tidy;
    var p := st.passes[k];
    var (w', reply) := Serve(op, st.world, CallOf(op, p), outcome);
    if Provisioning(p.stage) {
      OwnCall(op, k, st, outcome);
      ResumeProgress(op, k, p, st.world.objects, w'.objects, reply, generated);
    } else {
      ResumeOther(op, p, reply, generated);
      ProvisionReturn(op, p.(cluster := if reply.Updated? then reply.cluster else p.cluster));
      ProvisionFresh(op, p.(cluster := if reply.Updated? then reply.cluster else p.cluster), k, w'.objects);
    }
  }

  lemma ResumeOther(op: Operator, p: Pass, reply: Reply, generated: Option<KeyPair>)
    requires !Provisioning(p.stage)
    ensures var r := Resume(op, p, reply, generated);
            && (p.stage == AddingFinalizer ==>
                  r == if reply.Updated? then Provision(op, p.(cluster := reply.cluster)) else Return(false))
            && (p.stage == DeletingBinding && r.Continue? ==>
                  && (reply.Done? || reply.NotFound?)
                  && r.pass == p.(cluster := RemoveFinalizer(p.cluster), stage := RemovingFinalizer))
            && (p.stage == DeletingBinding && r.Return? ==> !r.ok)
            && (p.stage == RemovingFinalizer ==> r.Return?)
  {
  }

  lemma ProvisionReturn(op: Operator, p: Pass)
    ensures Provision(op, p) != Return(true)
  {
  }

  lemma OtherProceed(op: Operator, k: Key, k': Key, st: State, outcome: Outcome, generated: Option<KeyPair>)
    requires Sound(op) && Tidy(op, st) && k' in st.passes && Progressing(op, k, st)
    requires k' != k && k'.name + "-" + k'.namespace != k.name + "-" + k.namespace
    ensures Progressing(op, k, Step(op, st, Proceed(k', outcome, generated)))
  {
    hide Serve, Resume, CallOf, Sound, Tidy;
    var p := st.passes[k'];
    TidyPass(op, st, k');
    ServeTouches(op, st.world, p, outcome);
    OwnTarget(op, k', p.stage);
    var objects' := Serve(op, st.world, CallOf(op, p), outcome).0.objects;
    forall part ensures SameObject(st.world.objects, objects', KeyOf(op, k, part)) {
      assert Owns(op, k, KeyOf(op, k, part));
      if Target(p.stage).Some? {
        FootprintsDisjoint(op, k', k, op.place(IdOf(k'), Target(p.stage).value));
      }
    }
    if k in st.passes { KeptProgress(op, k, st.passes[k], st.world.objects, objects'); }
  }

  lemma KeptProgress(op: Operator, k: Key, p: Pass, objects: map<ObjectKey, Object>, objects': map<ObjectKey, Object>)
    requires Progress(op, k, p, objects)
    requires forall part :: SameObject(objects, objects', KeyOf(op, k, part))
    ensures Progress(op, k, p, objects')
  {
    forall part | Stands(op, k, p, objects, part) ensures Stands(op, k, p, objects', part) {
      assert SameObject(objects, objects', KeyOf(op, k, part));
    }
  }

  lemma StartProgress(op: Operator, k: Key, st: State, k': Key)
    requires Progressing(op, k, st)
    ensures Progressing(op, k, Step(op, st, Start(k')))
  {
    hide Provision;
    if k' !in st.passes && k' in st.world.cache {
      var c := st.world.cache[k'];
      ProvisionFresh(op, NewPass(c, ListingOperators, st.salt), k, st.world.objects);
    }
  }

  lemma QuietStep(op: Operator, k: Key, st: State, ev: Event)
    requires Sound(op) && Tidy(op, st) && Progressing(op, k, st) && Quiet(op, k, ev)
    ensures Progressing(op, k, Step(op, st, ev))
  {
    hide Begin, Serve, CallOf, Resume, Create, Update, Tidy, Sound, Progress;
    var objects := st.world.objects;
    match ev
    case Start(k') => StartProgress(op, k, st, k');
    case Proceed(k', outcome, generated) =>
      if k' in st.passes {
        if k' == k {
          OwnProceed(op, k, st, outcome, generated);
        } else {
          OtherProceed(op, k, k', st, outcome, generated);
        }
      }
    case EditCluster(c) => UpdateLeaves(op, st.world, c);
    case CreateCluster(c) => CreateLeaves(op, st.world, c);
    case PutObject(o, _) =>
      if k in st.passes {
        assert forall part :: Owns(op, k, KeyOf(op, k, part));
        KeptProgress(op, k, st.passes[k], objects, Step(op, st, ev).world.objects);
      }
    case RemoveObject(o) =>
      if k in st.passes {
        assert forall part :: Owns(op, k, KeyOf(op, k, part));
        KeptProgress(op, k, st.passes[k], objects, Step(op, st, ev).world.objects);
      }
    case _ =>
  }

  lemma {:induction false} QuietRun(op: Operator, k: Key, st: State, evs: seq<Event>)
    requires Sound(op) && Tidy(op, st) && Progressing(op, k, st)
    requires forall i | 0 <= i < |evs| :: Quiet(op, k, evs[i])
    ensures Tidy(op, Run(op, st, evs)) && Progressing(op, k, Run(op, st, evs))
    decreases |evs|
  {
    hide Step, Tidy, Sound, Progressing, Quiet;
    if evs != [] {
      TidyStep(op, st, evs[0]);
      QuietStep(op, k, st, evs[0]);
      QuietRun(op, k, Step(op, st, evs[0]), evs[1..]);
    }
  }

  /** The next call ends a provisioning pass with a nil error. */
  ghost predicate EndsWell(op: Operator, k: Key, st: State, last: Event) {
    && k in st.passes && st.passes[k].stage != RemovingFinalizer
    && last.Proceed? && last.key == k
    && var after := Step(op, st, last);
       k !in after.passes && k in after.returned && after.returned[k]
  }

  ghost predicate QuietRunOf(op: Operator, k: Key, evs: seq<Event>) {
    forall i | 0 <= i < |evs| :: Quiet(op, k, evs[i])
  }

  /** A pass that returns nil, and was not a deletion, leaves every needed object but the policies
      standing for the cluster it worked on, through retries, lost responses and other clusters'
      passes; errors on the policies are swallowed, so nil says nothing about those. */
  lemma NilPassCloses(op: Operator, k: Key, st: State, evs: seq<Event>, last: Event)
    requires Sound(op) && Tidy(op, st) && k !in st.passes && QuietRunOf(op, k, evs)
    requires EndsWell(op, k, Run(op, st, evs), last)
    ensures var mid := Run(op, st, evs);
            Tidy(op, mid) && AllStand(op, k, mid.passes[k], Step(op, mid, last).world.objects)
  {
    hide Run, Step, Tidy, Sound, Quiet;
    QuietRun(op, k, st, evs);
    OwnProceed(op, k, Run(op, st, evs), last.outcome, last.generated);
  }
}
