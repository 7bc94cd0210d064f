/** The reconciler in the shape of its source: a sequence of remote calls with early returns. The
    API server is an object whose state other parties change between any two calls. Every call
    the reconciler makes is the one the step system prescribes, so a reconciliation is a run of it. */
module Reconciler {
  import opened Wrappers
  import opened Kube
  import opened Objects
  import opened Operators
  import opened ApiServer
  import opened Protocol

  /** What happens around one call: steps of others before it, its outcome, and the pair that
      certificate generation yields should it follow. */
  datatype Turn = Turn(before: seq<Event>, outcome: Outcome, generated: Option<KeyPair>)

  /** Steps that are not the controller's own on this key. A killed process never returns from
      its reconciliation, so restarts are left to the step system. */
  predicate Elsewhere(k: Key, ev: Event) {
    match ev
    case Start(k') => k' != k
    case Proceed(k', _, _) => k' != k
    case Restart(_) => false
    case _ => true
  }

  /** A call of the reconciler, its reply, and the pair that generation would then yield. */
  datatype Exchange = Exchange(call: Call, reply: Reply, generated: Option<KeyPair>)

  /** The call got a reply that takes the reconciliation on. A binding that is gone need not be deleted,
      a missing CA secret is made up for by a generated pair, missing applications have a default,
      and errors on policies are swallowed; every other failure is returned. */
  predicate Answered(x: Exchange) {
    match x.call
    case UpdateCluster(_) => x.reply.Updated?
    case GetObject(at) => x.reply.Found? || (at.kind == SecretKind && x.reply.NotFound? && x.generated.Some?)
    case DeleteObject(_) => x.reply.Done? || x.reply.NotFound?
    case ApplyObject(at, _) => x.reply.Done? || at.kind == PolicyKind
    case ListHeadPods(_) => x.reply.Listed?
    case DeletePod(_, _) => x.reply.Done?
    case ListOperatorPods => x.reply.Listed?
    case GetApplications => x.reply.Applications? || x.reply.NotFound?
  }

  predicate AllAnswered(xs: seq<Exchange>) {
    forall i | 0 <= i < |xs| :: Answered(xs[i])
  }

  lemma AllConcat(a: seq<Exchange>, b: seq<Exchange>)
    ensures AllAnswered(a + b) <==> AllAnswered(a) && AllAnswered(b)
  {
    if AllAnswered(a + b) {
      assert forall i | 0 <= i < |a| :: (a + b)[i] == a[i];
      assert forall i | 0 <= i < |b| :: (a + b)[|a| + i] == b[i];
    }
  }

  function Calls(xs: seq<Exchange>): seq<Call> {
    if xs == [] then [] else [xs[0].call] + Calls(xs[1..])
  }

  lemma {:induction false} CallsConcat(a: seq<Exchange>, b: seq<Exchange>)
    ensures Calls(a + b) == Calls(a) + Calls(b)
  {
    if a == [] {
      assert a + b == b;
    } else {
      assert (a + b)[0] == a[0] && (a + b)[1..] == a[1..] + b;
      CallsConcat(a[1..], b);
    }
  }

  function ApplyCall(op: Operator, c: RayCluster, part: Part, l: Locals): Call {
    ApplyObject(op.place(c.Ident(), part), ContentOf(op, c, part, l))
  }

  /** On plain Kubernetes without OAuth, a cluster that is not suspended needs an ingress domain. */
  predicate LacksDomain(op: Operator, c: RayCluster) {
    !op.oauth && !op.openShift && c.suspend != Some(true) && !op.hasIngressDomain
  }

  lemma DomainNeeded(op: Operator, c: RayCluster)
    ensures LacksDomain(op, c) <==> IngressBranch(op, c) && !op.hasIngressDomain
    ensures !(OAuthBranch(op, c) && IngressBranch(op, c))
  {
  }

  /** The outcome of reading the cluster: reads can fail too. */
  datatype Read = Got(cluster: RayCluster) | Missing | ReadFailed

  class ApiClient {
    const op: Operator
    const key: Key
    var state: State
    var turns: seq<Turn>
    var generated: Option<KeyPair>
    ghost const first: State
    ghost var log: seq<Event>
    ghost var trace: seq<Exchange>

    constructor (op: Operator, key: Key, st: State, turns: seq<Turn>)
      requires SoundKinds(op)
      requires forall i, j | 0 <= i < |turns| && 0 <= j < |turns[i].before| :: Elsewhere(key, turns[i].before[j])
      ensures Valid() && this.op == op && this.key == key && state == st && log == [] && trace == []
    {
      this.op, this.key, this.state, this.turns, this.generated := op, key, st, turns, None;
      this.first, this.log, this.trace := st, [], [];
    }

    /** The state is where the logged steps lead from the first one. */
    ghost predicate Valid()
      reads this
    {
      && (forall i, j | 0 <= i < |turns| && 0 <= j < |turns[i].before| :: Elsewhere(key, turns[i].before[j]))
      && state == Run(op, first, log) && SoundKinds(op)
    }

    /** The pass of this key is where `next` says. */
    ghost predicate PassIs(next: Control)
      reads this
    {
      match next
      case Continue(p) => key in state.passes && state.passes[key] == p
      case Return(ok) => key !in state.passes && key in state.returned && state.returned[key] == ok
    }

    /** Steps have been logged since, but no pass of this key has been started. */
    ghost predicate Grown(before: seq<Event>)
      reads this
    {
      before <= log && forall i | |before| <= i < |log| :: log[i] != Start(key)
    }

    /** Lets the others have their turn. */
    method Await() returns (turn: Turn)
      requires Valid()
      modifies this`state, this`turns, this`log
      ensures Valid() && Grown(old(log)) && state.salt == old(state).salt
      ensures key in state.passes <==> key in old(state).passes
      ensures key in state.passes ==> state.passes[key] == old(state).passes[key]
    {
      turn := Turn([], Refused, None);
      if turns != [] {
        turn := turns[0];
        turns := turns[1..];
      }
      state := Run(op, state, turn.before);
      log := log + turn.before;
      RunConcat(op, first, old(log), turn.before);
      ElsewhereKeeps(op, old(state), key, turn.before);
    }

    /** Reads the cluster from the cache; a cluster that is read starts the pass. */
    method Get() returns (r: Read)
      requires Valid() && key !in state.passes
      modifies this`state, this`turns, this`log
      ensures Valid() && old(log) <= log && state.salt == old(state).salt
      ensures r.Got? ==>
                && |log| > |old(log)| && log[|log| - 1] == Start(key)
                && (forall i | |old(log)| <= i < |log| - 1 :: log[i] != Start(key))
                && PassIs(Begin(op, r.cluster, state.salt))
      ensures !r.Got? ==> Grown(old(log)) && key !in state.passes
      ensures r.Missing? ==> key !in state.world.cache
    {
      hide Begin, Run;
      var turn := Await();
      if turn.outcome != Served {
        return ReadFailed;
      }
      if key !in state.world.cache {
        return Missing;
      }
      r := Got(state.world.cache[key]);
      ghost var mid := log;
      state := Step(op, state, Start(key));
      log := log + [Start(key)];
      LogOne(op, first, mid, Start(key));
    }

    /** One call, which must be the one the step system prescribes. */
    method Invoke(call: Call) returns (reply: Reply)
      requires Valid() && key in state.passes && call == CallOf(op, state.passes[key])
      modifies this
      ensures Valid() && Grown(old(log)) && |log| > |old(log)| && state.salt == old(state).salt
      ensures var last := log[|log| - 1];
              && last.Proceed? && last.generated == generated
              && reply == Serve(op, Run(op, first, log[..|log| - 1]).world, call, last.outcome).1
      ensures PassIs(Resume(op, old(state).passes[key], reply, generated))
      ensures trace == old(trace) + [Exchange(call, reply, generated)]
    {
      hide Serve, Resume, CallOf, Run;
      var turn := Await();
      generated := turn.generated;
      reply := Serve(op, state.world, call, turn.outcome).1;
      ghost var mid := log;
      state := Step(op, state, Proceed(key, turn.outcome, turn.generated));
      log := log + [Proceed(key, turn.outcome, turn.generated)];
      trace := trace + [Exchange(call, reply, generated)];
      assert log[..|log| - 1] == mid;
      LogOne(op, first, mid, Proceed(key, turn.outcome, turn.generated));
    }
  }

  lemma LogOne(op: Operator, st: State, a: seq<Event>, ev: Event)
    ensures Run(op, st, a + [ev]) == Step(op, Run(op, st, a), ev)
  {
    hide Step;
    RunConcat(op, st, a, [ev]);
    RunOne(op, Run(op, st, a), ev);
  }

  lemma {:induction false} ElsewhereKeeps(op: Operator, st: State, k: Key, evs: seq<Event>)
    requires forall i | 0 <= i < |evs| :: Elsewhere(k, evs[i])
    ensures var st' := Run(op, st, evs);
            && st'.salt == st.salt && (k in st'.passes <==> k in st.passes)
            && (k in st.passes ==> st'.passes[k] == st.passes[k])
    decreases |evs|
  {
    hide Serve, Resume, CallOf, Begin, Create, Update;
    if evs != [] {
      ElsewhereKeeps(op, Step(op, st, evs[0]), k, evs[1..]);
    }
  }

  // ---------------------------------------------------------------- the reconciler

  /** The secrets of the account that the pod lacks, as a map that is filled and then emptied. */
  method CollectMissing(account: seq<string>, pod: seq<string>) returns (missing: map<string, bool>)
    ensures missing.Keys == MissingSecrets(account, pod)
  {
    missing := map[];
    for i := 0 to |account|
      invariant missing.Keys == set x | x in account[..i]
    {
      missing := missing[account[i] := true];
      assert account[..i + 1] == account[..i] + [account[i]];
    }
    assert account[..|account|] == account;
    for i := 0 to |pod|
      invariant missing.Keys == (set x | x in account) - (set x | x in pod[..i])
    {
      missing := missing - {pod[i]};
      assert pod[..i + 1] == pod[..i] + [pod[i]];
    }
    assert pod[..|pod|] == pod;
  }

  class RayClusterReconciler {
    const api: ApiClient
    const cookieSalt: string

    /** The salt is drawn when the process starts. */
    constructor (api: ApiClient)
      ensures this.api == api && cookieSalt == api.state.salt
    {
      this.api := api;
      this.cookieSalt := api.state.salt;
    }

    /** One reconciliation. If the cluster can be read, it runs the step system from the start of a
        pass to its end, whatever others do and whatever fails meanwhile, and returns what the pass
        returns; `started` is where the log says so. It succeeds exactly when every one of its calls
        got an answer that takes it on and no ingress domain was missing. A cluster that is not in the
        cache is ignored; an error of the read is returned. */
    method Reconcile() returns (ok: bool, ghost started: Option<nat>, ghost worked: Option<RayCluster>,
                                ghost xs: seq<Exchange>)
      requires api.Valid() && api.key !in api.state.passes && api.state.salt == cookieSalt
      modifies api
      ensures api.Valid() && old(api.log) <= api.log && api.key !in api.state.passes
      ensures api.trace == old(api.trace) + xs
      ensures forall i | |old(api.log)| <= i < |api.log| :: api.log[i] == Start(api.key) <==> started == Some(i)
      ensures started.Some? ==>
                && |old(api.log)| <= started.value < |api.log|
                && api.key in api.state.returned && ok == api.state.returned[api.key]
                && (ok <==> AllAnswered(xs) && (worked.Some? ==> !LacksDomain(api.op, worked.value)))
      ensures started.None? ==> xs == [] && (ok ==> api.key !in api.state.world.cache)
    {
      hide Run, Step, Provision, Serve, AllAnswered, LacksDomain;
      started, worked, xs := None, None, [];
      var found := api.Get();
      if !found.Got? {
        return found.Missing?, None, None, [];
      }
      started := Some(|api.log| - 1);
      var cluster := found.cluster;
      ghost var p := NewPass(cluster, ListingOperators, cookieSalt);
      if !cluster.meta.deleting {
        if !cluster.Guarded() {
          cluster := AddFinalizer(cluster);
          var reply := api.Invoke(UpdateCluster(cluster));
          xs := [Exchange(UpdateCluster(cluster), reply, api.generated)];
          OneAnswered(xs[0]);
          if !reply.Updated? {
            return false, started, None, xs;
          }
          p := NewPass(cluster, AddingFinalizer, cookieSalt).(cluster := reply.cluster);
          cluster := reply.cluster;
        }
      } else if cluster.Guarded() {
        ok, xs := Release(cluster);
        return;
      }
      worked := Some(cluster);
      ghost var ys;
      ok, ys := ReconcileObjects(cluster, p);
      AllConcat(xs, ys);
      NoneAnswered();
      xs := xs + ys;
    }

    /** The deletion branch: it succeeds exactly when the binding is gone or marked and the finalizer
        is removed. */
    method Release(cluster: RayCluster) returns (ok: bool, ghost xs: seq<Exchange>)
      requires api.Valid() && api.PassIs(Continue(NewPass(cluster, DeletingBinding, cookieSalt)))
      modifies api
      ensures api.Valid() && api.Grown(old(api.log)) && api.PassIs(Return(ok))
      ensures api.trace == old(api.trace) + xs && (ok <==> AllAnswered(xs))
      ensures ok <==> |xs| == 2 && xs[1].reply.Updated?
      ensures 1 <= |xs| <= 2 && xs[0].call == DeleteObject(api.op.place(cluster.Ident(), OAuthBindingPart))
      ensures |xs| == 2 <==> xs[0].reply.Done? || xs[0].reply.NotFound?
      ensures |xs| == 2 ==>
                xs[1].call == UpdateCluster(cluster.(meta := cluster.meta.(
                                finalizers := Without(cluster.meta.finalizers, "ray.openshift.ai/oauth-finalizer"))))
    {
      hide Run, Step, Serve;
      var reply := api.Invoke(DeleteObject(api.op.place(cluster.Ident(), OAuthBindingPart)));
      xs := [Exchange(DeleteObject(api.op.place(cluster.Ident(), OAuthBindingPart)), reply, api.generated)];
      if !reply.Done? && !reply.NotFound? {
        assert !Answered(xs[0]);
        return false, xs;
      }
      var released := RemoveFinalizer(cluster);
      reply := api.Invoke(UpdateCluster(released));
      xs := xs + [Exchange(UpdateCluster(released), reply, api.generated)];
      ok := reply.Updated?;
      assert Answered(xs[1]) <==> ok;
    }

    /** Everything but the finalizer. */
    method ReconcileObjects(cluster: RayCluster, ghost p: Pass) returns (ok: bool, ghost xs: seq<Exchange>)
      requires api.Valid() && p.cluster == cluster && p.locals.salt == cookieSalt && api.PassIs(Provision(api.op, p))
      modifies api
      ensures api.Valid() && api.Grown(old(api.log)) && api.PassIs(Return(ok))
      ensures api.trace == old(api.trace) + xs && (ok <==> AllAnswered(xs) && !LacksDomain(api.op, cluster))
    {
      hide Run, Step, Serve, Resume, AfterApply, AllAnswered, Calls, CallOf;
      ghost var q := p;
      NoneAnswered();
      ok, xs := true, [];
      if api.op.mtls {
        ok, q, xs := ReconcileCa(cluster, p.(stage := ReadingCa));
      }
      if ok {
        ghost var ys;
        ok, ys := ReconcileBranches(cluster, q);
        AllConcat(xs, ys);
        xs := xs + ys;
      } else {
        assert !AllAnswered(xs);
      }
    }

    /** The objects of the platform, then the policies. */
    method ReconcileBranches(cluster: RayCluster, ghost p: Pass) returns (ok: bool, ghost xs: seq<Exchange>)
      requires api.Valid() && p.cluster == cluster && p.locals.salt == cookieSalt && api.PassIs(AfterCa(api.op, p))
      modifies api
      ensures api.Valid() && api.Grown(old(api.log)) && api.PassIs(Return(ok))
      ensures api.trace == old(api.trace) + xs && (ok <==> AllAnswered(xs) && !LacksDomain(api.op, cluster))
    {
      hide Run, Step, Serve, Resume, AfterCa, AfterApply, AllAnswered, Calls, CallOf, LacksDomain;
      ghost var q;
      ok, q, xs := ReconcilePlatform(cluster, p);
      if ok {
        ghost var ys;
        ok, ys := ReconcilePolicies(cluster, q);
        AllConcat(xs, ys);
        xs := xs + ys;
      }
    }

    /** The OAuth objects on OpenShift, the ingresses on plain Kubernetes without OAuth. */
    method ReconcilePlatform(cluster: RayCluster, ghost p: Pass)
        returns (ok: bool, ghost q: Pass, ghost xs: seq<Exchange>)
      requires api.Valid() && p.cluster == cluster && p.locals.salt == cookieSalt && api.PassIs(AfterCa(api.op, p))
      modifies api
      ensures api.Valid() && api.Grown(old(api.log))
      ensures ok ==> q.cluster == cluster && q.stage == ListingOperators && api.PassIs(Continue(q))
      ensures !ok ==> api.PassIs(Return(false))
      ensures api.trace == old(api.trace) + xs && (ok <==> AllAnswered(xs) && !LacksDomain(api.op, cluster))
    {
      hide Run, Step, Serve, Resume, AfterApply, AllAnswered, Calls, CallOf, OAuthBranch, IngressBranch, LacksDomain;
      hide Provision, ContentOf;
      q := p;
      NoneAnswered();
      DomainNeeded(api.op, cluster);
      ok, xs := true, [];
      if OAuthBranch(api.op, cluster) {
        ghost var check;
        ok, q, xs, check := ReconcileOAuth(cluster, p.(stage := Applying(DashboardRoutePart)));
      } else if IngressBranch(api.op, cluster) {
        if api.op.hasIngressDomain {
          ok, q, xs := ReconcileIngresses(cluster, p.(stage := Applying(DashboardIngressPart)));
        } else {
          ok := false;
        }
      } else {
        q := p.(stage := ListingOperators);
      }
    }

    /** Server-side apply of one object. */
    method Apply(cluster: RayCluster, part: Part, l: Locals, ghost p: Pass) returns (ok: bool, ghost x: Exchange)
      requires api.Valid() && api.PassIs(Continue(p))
      requires p.cluster == cluster && p.stage == Applying(part) && Relevant(part, l) == Relevant(part, p.locals)
      modifies api
      ensures api.Valid() && api.Grown(old(api.log))
      ensures api.PassIs(if ok || part.HeadPolicyPart? || part.WorkersPolicyPart?
                         then AfterApply(api.op, p, part) else Return(false))
      ensures api.trace == old(api.trace) + [x] && x.call == ApplyCall(api.op, cluster, part, l)
      ensures (ok <==> x.reply.Done?) && (Answered(x) <==> ok || KindOf(part) == PolicyKind)
    {
      hide Run, Step, Serve, AfterApply;
      var reply := api.Invoke(ApplyObject(api.op.place(cluster.Ident(), part), ContentOf(api.op, cluster, part, l)));
      x := Exchange(ApplyCall(api.op, cluster, part, l), reply, api.generated);
      ok := reply.Done?;
    }

    /** The CA secret: the stored pair is applied again, a missing one is generated. */
    method ReconcileCa(cluster: RayCluster, ghost p: Pass) returns (ok: bool, ghost q: Pass, ghost xs: seq<Exchange>)
      requires api.Valid() && p.cluster == cluster && p.stage == ReadingCa && api.PassIs(Continue(p))
      modifies api
      ensures api.Valid() && api.Grown(old(api.log))
      ensures ok ==> q.cluster == cluster && q.locals.salt == p.locals.salt && api.PassIs(AfterCa(api.op, q))
      ensures !ok ==> api.PassIs(Return(false))
      ensures api.trace == old(api.trace) + xs && (ok <==> AllAnswered(xs))
      ensures 1 <= |xs| <= 2 && (ok ==> |xs| == 2)
      ensures xs[0].call == GetObject(api.op.place(cluster.Ident(), CaSecretPart))
      ensures |xs| == 2 ==>
                && (xs[0].reply.Found? || (xs[0].reply.NotFound? && xs[0].generated.Some?))
                && q.locals.pair == (if xs[0].reply.Found? then PairOf(xs[0].reply.found) else xs[0].generated.value)
                && xs[1].call == ApplyCall(api.op, cluster, CaSecretPart, NO_LOCALS.(pair := q.locals.pair))
    {
      hide Run, Step, Serve, AfterCa, PairOf;
      q := p;
      var at := api.op.place(cluster.Ident(), CaSecretPart);
      var reply := api.Invoke(GetObject(at));
      xs := [Exchange(GetObject(at), reply, api.generated)];
      assert AllAnswered(xs) <==> Answered(xs[0]);
      var pair;
      if reply.NotFound? {
        if api.generated.None? {
          ok := false;
          return;
        }
        pair := api.generated.value;
      } else if reply.Found? {
        pair := PairOf(reply.found);
      } else {
        ok := false;
        return;
      }
      q := p.(locals := p.locals.(pair := pair), stage := Applying(CaSecretPart));
      ghost var x;
      ok, x := Apply(cluster, CaSecretPart, NO_LOCALS.(pair := pair), q);
      AllConcat(xs, [x]);
      OneAnswered(x);
      xs := xs + [x];
    }

    /** The OAuth objects on OpenShift: route, cookie secret, service, account; the head pod is looked
        at; binding and RayClient route. */
    method ReconcileOAuth(cluster: RayCluster, ghost p: Pass)
        returns (ok: bool, ghost q: Pass, ghost xs: seq<Exchange>, ghost check: seq<Exchange>)
      requires api.Valid() && p.cluster == cluster && p.stage == Applying(DashboardRoutePart) && api.PassIs(Continue(p))
      requires p.locals.salt == cookieSalt
      modifies api
      ensures api.Valid() && api.Grown(old(api.log))
      ensures ok ==> q.cluster == cluster && q.stage == ListingOperators && api.PassIs(Continue(q))
      ensures !ok ==> api.PassIs(Return(false))
      ensures api.trace == old(api.trace) + xs && (ok <==> AllAnswered(xs))
      ensures ok ==> Calls(xs) == ProxyCalls(cluster) + Calls(check) + GrantCalls(cluster)
      ensures cluster.head.template.imagePullSecrets != [] ==> check == []
    {
      hide Run, Step, Serve, Resume, AfterCa, CallOf, ContentOf, AfterApply, AllAnswered, Calls;
      check := [];
      ok, q, xs := ApplyProxyObjects(cluster, p);
      if !ok { return; }
      ok, q, check := CheckHeadPod(cluster, q);
      AllConcat(xs, check);
      CallsConcat(xs, check);
      xs := xs + check;
      if !ok { return; }
      ghost var ys;
      ok, q, ys := ApplyBindingAndClientRoute(cluster, q);
      AllConcat(xs, ys);
      CallsConcat(xs, ys);
      xs := xs + ys;
    }

    ghost function ProxyCalls(c: RayCluster): seq<Call> {
      [ApplyCall(api.op, c, DashboardRoutePart, NO_LOCALS),
       ApplyCall(api.op, c, OAuthSecretPart, NO_LOCALS.(salt := cookieSalt)),
       ApplyCall(api.op, c, OAuthServicePart, NO_LOCALS),
       ApplyCall(api.op, c, OAuthAccountPart, NO_LOCALS)]
    }

    ghost function GrantCalls(c: RayCluster): seq<Call> {
      [ApplyCall(api.op, c, OAuthBindingPart, NO_LOCALS), ApplyCall(api.op, c, ClientRoutePart, NO_LOCALS)]
    }

    method ApplyBindingAndClientRoute(cluster: RayCluster, ghost p: Pass)
        returns (ok: bool, ghost q: Pass, ghost xs: seq<Exchange>)
      requires api.Valid() && p.cluster == cluster && p.stage == Applying(OAuthBindingPart) && api.PassIs(Continue(p))
      modifies api
      ensures api.Valid() && api.Grown(old(api.log))
      ensures ok ==> q.cluster == cluster && q.stage == ListingOperators && api.PassIs(Continue(q))
      ensures !ok ==> api.PassIs(Return(false))
      ensures api.trace == old(api.trace) + xs && (ok <==> AllAnswered(xs))
      ensures ok ==> Calls(xs) == GrantCalls(cluster)
    {
      hide Run, Step, Serve, Resume, AfterCa, CallOf, ContentOf, Answered, ApplyCall, AllAnswered, Calls;
      q := p;
      ghost var x;
      ok, x := Apply(cluster, OAuthBindingPart, NO_LOCALS, q);
      OneAnswered(x);
      xs := [x];
      if !ok { return; }
      q := q.(stage := Applying(ClientRoutePart));
      ok, x := Apply(cluster, ClientRoutePart, NO_LOCALS, q);
      Appended(xs, x);
      xs := xs + [x];
      q := q.(stage := ListingOperators);
    }

    /** The head pod is looked at only when the cluster names no pull secrets of its own. */
    method CheckHeadPod(cluster: RayCluster, ghost p: Pass) returns (ok: bool, ghost q: Pass, ghost xs: seq<Exchange>)
      requires api.Valid() && p.cluster == cluster && api.PassIs(AfterApply(api.op, p, OAuthAccountPart))
      modifies api
      ensures api.Valid() && api.Grown(old(api.log))
      ensures ok ==> q.cluster == cluster && q.stage == Applying(OAuthBindingPart) && api.PassIs(Continue(q))
      ensures !ok ==> api.PassIs(Return(false))
      ensures api.trace == old(api.trace) + xs && (ok <==> AllAnswered(xs))
      ensures cluster.head.template.imagePullSecrets != [] <==> xs == []
    {
      hide Run, Step, Serve, Resume, CallOf, Lacks;
      if cluster.head.template.imagePullSecrets == [] {
        ok, q, xs := DeleteHeadPodIfMissingImagePullSecrets(cluster, p.(stage := ReadingAccount));
      } else {
        ok, q, xs := true, p.(stage := Applying(OAuthBindingPart)), [];
      }
    }

    /** Dashboard route, cookie secret, service and account. */
    method ApplyProxyObjects(cluster: RayCluster, ghost p: Pass)
        returns (ok: bool, ghost q: Pass, ghost xs: seq<Exchange>)
      requires api.Valid() && p.cluster == cluster && p.stage == Applying(DashboardRoutePart) && api.PassIs(Continue(p))
      requires p.locals.salt == cookieSalt
      modifies api
      ensures api.Valid() && api.Grown(old(api.log))
      ensures ok ==> q.cluster == cluster && api.PassIs(AfterApply(api.op, q, OAuthAccountPart))
      ensures !ok ==> api.PassIs(Return(false))
      ensures api.trace == old(api.trace) + xs && (ok <==> AllAnswered(xs))
      ensures ok ==> Calls(xs) == ProxyCalls(cluster)
    {
      hide Run, Step, Serve, Resume, AfterCa, CallOf, ContentOf, AfterApply, ApplyCall, AllAnswered, Calls;
      ok, q, xs := ApplyRouteAndCookie(cluster, p);
      if !ok { return; }
      ghost var ys;
      ok, q, ys := ApplyServiceAndAccount(cluster, q);
      AllConcat(xs, ys);
      CallsConcat(xs, ys);
      xs := xs + ys;
    }

    method ApplyRouteAndCookie(cluster: RayCluster, ghost p: Pass)
        returns (ok: bool, ghost q: Pass, ghost xs: seq<Exchange>)
      requires api.Valid() && p.cluster == cluster && p.stage == Applying(DashboardRoutePart) && api.PassIs(Continue(p))
      requires p.locals.salt == cookieSalt
      modifies api
      ensures api.Valid() && api.Grown(old(api.log))
      ensures ok ==> q.cluster == cluster && q.stage == Applying(OAuthServicePart) && api.PassIs(Continue(q))
      ensures !ok ==> api.PassIs(Return(false))
      ensures api.trace == old(api.trace) + xs && (ok <==> AllAnswered(xs))
      ensures ok ==> Calls(xs) == [ApplyCall(api.op, cluster, DashboardRoutePart, NO_LOCALS),
                                   ApplyCall(api.op, cluster, OAuthSecretPart, NO_LOCALS.(salt := cookieSalt))]
    {
      hide Run, Step, Serve, Resume, AfterCa, CallOf, ContentOf, Answered, ApplyCall, AllAnswered, Calls;
      q := p;
      ghost var x;
      ok, x := Apply(cluster, DashboardRoutePart, NO_LOCALS, q);
      OneAnswered(x);
      xs := [x];
      if !ok { return; }
      q := q.(stage := Applying(OAuthSecretPart));
      ok, x := Apply(cluster, OAuthSecretPart, NO_LOCALS.(salt := cookieSalt), q);
      Appended(xs, x);
      xs := xs + [x];
      q := q.(stage := Applying(OAuthServicePart));
    }

    method ApplyServiceAndAccount(cluster: RayCluster, ghost p: Pass)
        returns (ok: bool, ghost q: Pass, ghost xs: seq<Exchange>)
      requires api.Valid() && p.cluster == cluster && p.stage == Applying(OAuthServicePart) && api.PassIs(Continue(p))
      modifies api
      ensures api.Valid() && api.Grown(old(api.log))
      ensures ok ==> q.cluster == cluster && api.PassIs(AfterApply(api.op, q, OAuthAccountPart))
      ensures !ok ==> api.PassIs(Return(false))
      ensures api.trace == old(api.trace) + xs && (ok <==> AllAnswered(xs))
      ensures ok ==> Calls(xs) == [ApplyCall(api.op, cluster, OAuthServicePart, NO_LOCALS),
                                   ApplyCall(api.op, cluster, OAuthAccountPart, NO_LOCALS)]
    {
      hide Run, Step, Serve, Resume, AfterCa, CallOf, ContentOf, Answered, ApplyCall, AllAnswered, Calls;
      q := p;
      ghost var x;
      ok, x := Apply(cluster, OAuthServicePart, NO_LOCALS, q);
      OneAnswered(x);
      xs := [x];
      if !ok { return; }
      q := q.(stage := Applying(OAuthAccountPart));
      ok, x := Apply(cluster, OAuthAccountPart, NO_LOCALS, q);
      Appended(xs, x);
      xs := xs + [x];
    }

    /** Deletes the first head pod exactly when the ServiceAccount lists a pull secret that it lacks. */
    method DeleteHeadPodIfMissingImagePullSecrets(cluster: RayCluster, ghost p: Pass)
        returns (ok: bool, ghost q: Pass, ghost xs: seq<Exchange>)
      requires api.Valid() && p.cluster == cluster && p.stage == ReadingAccount && api.PassIs(Continue(p))
      modifies api
      ensures api.Valid() && api.Grown(old(api.log))
      ensures ok ==> q.cluster == cluster && q.stage == Applying(OAuthBindingPart) && api.PassIs(Continue(q))
      ensures !ok ==> api.PassIs(Return(false))
      ensures api.trace == old(api.trace) + xs && (ok <==> AllAnswered(xs))
      ensures 1 <= |xs| <= 3 && xs[0].call == GetObject(api.op.place(cluster.Ident(), OAuthAccountPart))
      ensures |xs| > 1 <==> xs[0].reply.Found?
      ensures |xs| > 1 ==> xs[1].call == ListHeadPods(cluster.Id())
      ensures |xs| > 2 <==>
                |xs| > 1 && xs[1].reply.Listed? && Lacks(xs[0].reply.found.pullSecrets, xs[1].reply.pods)
      ensures |xs| > 2 ==>
                var headPod := xs[1].reply.pods[0]; xs[2].call == DeletePod(headPod.namespace, headPod.name)
    {
      hide Run, Step, Serve, MissingSecrets, PairOf, AfterApply, Provision, ContentOf, Lacks;
      q := p;
      var at := api.op.place(cluster.Ident(), OAuthAccountPart);
      var account := api.Invoke(GetObject(at));
      ghost var x := Exchange(GetObject(at), account, api.generated);
      assert Answered(x) <==> account.Found?;
      OneAnswered(x);
      xs := [x];
      if !account.Found? {
        ok := false;
        return;
      }
      q := q.(accountSecrets := account.found.pullSecrets, stage := ListingHeadPods);
      ghost var ys;
      ok, q, ys := DeleteIfLacking(cluster, account.found.pullSecrets, q);
      AllConcat(xs, ys);
      xs := xs + ys;
    }

    /** Lists the head pods and deletes the first one if it lacks a secret of the account. */
    method DeleteIfLacking(cluster: RayCluster, account: seq<string>, ghost p: Pass)
        returns (ok: bool, ghost q: Pass, ghost xs: seq<Exchange>)
      requires api.Valid() && p.cluster == cluster && p.stage == ListingHeadPods && p.accountSecrets == account
      requires api.PassIs(Continue(p))
      modifies api
      ensures api.Valid() && api.Grown(old(api.log))
      ensures ok ==> q.cluster == cluster && q.stage == Applying(OAuthBindingPart) && api.PassIs(Continue(q))
      ensures !ok ==> api.PassIs(Return(false))
      ensures api.trace == old(api.trace) + xs && (ok <==> AllAnswered(xs))
      ensures 1 <= |xs| <= 2 && xs[0].call == ListHeadPods(cluster.Id())
      ensures |xs| > 1 <==> xs[0].reply.Listed? && Lacks(account, xs[0].reply.pods)
      ensures |xs| > 1 ==>
                var headPod := xs[0].reply.pods[0]; xs[1].call == DeletePod(headPod.namespace, headPod.name)
    {
      hide Run, Step, Serve, MissingSecrets, PairOf, AfterApply, Provision, ContentOf;
      q := p;
      var listed := api.Invoke(ListHeadPods(cluster.Id()));
      xs := [Exchange(ListHeadPods(cluster.Id()), listed, api.generated)];
      OneAnswered(xs[0]);
      if !listed.Listed? {
        ok := false;
        return;
      }
      ok := true;
      LacksExactly(account, listed.pods);
      if listed.pods == [] {
        q := q.(stage := Applying(OAuthBindingPart));
        return;
      }
      var headPod := listed.pods[0];
      var missing := CollectMissing(account, headPod.pullSecrets);
      if |missing| > 0 {
        assert MissingSecrets(account, headPod.pullSecrets) != {};
        q := q.(podNamespace := headPod.namespace, podName := headPod.name, stage := DeletingHeadPod);
        var reply := api.Invoke(DeletePod(headPod.namespace, headPod.name));
        ghost var x := Exchange(DeletePod(headPod.namespace, headPod.name), reply, api.generated);
        AllConcat(xs, [x]);
        OneAnswered(x);
        xs := xs + [x];
        ok := reply.Done?;
      } else {
        assert MissingSecrets(account, headPod.pullSecrets) == {};
      }
      q := q.(stage := Applying(OAuthBindingPart));
    }

    /** The two ingresses on plain Kubernetes. */
    method ReconcileIngresses(cluster: RayCluster, ghost p: Pass)
        returns (ok: bool, ghost q: Pass, ghost xs: seq<Exchange>)
      requires api.Valid() && p.cluster == cluster && p.stage == Applying(DashboardIngressPart)
      requires api.PassIs(Continue(p))
      modifies api
      ensures api.Valid() && api.Grown(old(api.log))
      ensures ok ==> q.cluster == cluster && q.stage == ListingOperators && api.PassIs(Continue(q))
      ensures !ok ==> api.PassIs(Return(false))
      ensures api.trace == old(api.trace) + xs && (ok <==> AllAnswered(xs))
      ensures ok ==> Calls(xs) == [ApplyCall(api.op, cluster, DashboardIngressPart, NO_LOCALS),
                                   ApplyCall(api.op, cluster, ClientIngressPart, NO_LOCALS)]
    {
      hide Run, Step, Serve, Resume, AfterCa, CallOf, ContentOf, Answered, ApplyCall, AllAnswered, Calls;
      q := p;
      ghost var x;
      ok, x := Apply(cluster, DashboardIngressPart, NO_LOCALS, q);
      OneAnswered(x);
      xs := [x];
      if !ok { return; }
      q := q.(stage := Applying(ClientIngressPart));
      ok, x := Apply(cluster, ClientIngressPart, NO_LOCALS, q);
      Appended(xs, x);
      xs := xs + [x];
      q := q.(stage := ListingOperators);
    }

    /** The namespaces of KubeRay and the two policies, whose errors are swallowed. */
    method ReconcilePolicies(cluster: RayCluster, ghost p: Pass) returns (ok: bool, ghost xs: seq<Exchange>)
      requires api.Valid() && p.cluster == cluster && p.stage == ListingOperators && api.PassIs(Continue(p))
      modifies api
      ensures api.Valid() && api.Grown(old(api.log)) && api.PassIs(Return(ok))
      ensures api.trace == old(api.trace) + xs && (ok <==> AllAnswered(xs))
      ensures ok ==> exists nss :: Calls(xs) == FindCalls() + PolicyCalls(cluster, nss) && FoundNamespaces(xs, nss)
    {
      hide Run, Step, Serve, Resume, CallOf, AfterApply, ContentOf, AllAnswered, Calls;
      var kubeRayNamespaces;
      ghost var q;
      ok, kubeRayNamespaces, q, xs := FindNamespaces(cluster, p);
      if !ok { return; }
      ghost var ys;
      ok, ys := ApplyPolicies(cluster, kubeRayNamespaces, q);
      AllConcat(xs, ys);
      CallsConcat(xs, ys);
      xs := xs + ys;
      assert Calls(xs) == FindCalls() + PolicyCalls(cluster, kubeRayNamespaces)
          && FoundNamespaces(xs, kubeRayNamespaces);
    }

    /** Where KubeRay runs. */
    method FindNamespaces(cluster: RayCluster, ghost p: Pass)
        returns (ok: bool, kubeRayNamespaces: seq<string>, ghost q: Pass, ghost xs: seq<Exchange>)
      requires api.Valid() && p.cluster == cluster && p.stage == ListingOperators && api.PassIs(Continue(p))
      modifies api
      ensures api.Valid() && api.Grown(old(api.log))
      ensures ok ==> q.cluster == cluster && q.stage == Applying(HeadPolicyPart) && api.PassIs(Continue(q))
                     && q.locals.kubeRayNamespaces == kubeRayNamespaces
      ensures !ok ==> api.PassIs(Return(false))
      ensures api.trace == old(api.trace) + xs && (ok <==> AllAnswered(xs))
      ensures ok ==> Calls(xs) == FindCalls() && FoundNamespaces(xs, kubeRayNamespaces)
    {
      hide Run, Step, Serve, AfterCa, PairOf, MissingSecrets, AfterApply, Provision, ContentOf, AllAnswered, Calls;
      q := p;
      var operators := api.Invoke(ListOperatorPods);
      xs := [Exchange(ListOperatorPods, operators, api.generated)];
      OneAnswered(xs[0]);
      if !operators.Listed? {
        return false, [], q, xs;
      }
      var kubeRayNamespace := if operators.pods == [] then KUBERAY_DEFAULT_NAMESPACE else operators.pods[0].namespace;
      kubeRayNamespaces := [kubeRayNamespace];
      if api.op.openShift {
        q := q.(locals := q.locals.(kubeRayNamespaces := kubeRayNamespaces), stage := ReadingApplications);
        var applications := api.Invoke(GetApplications);
        ghost var x := Exchange(GetApplications, applications, api.generated);
        Appended(xs, x);
        xs := xs + [x];
        if applications.NotFound? {
          kubeRayNamespaces := [ODH_NAMESPACE, RHDS_NAMESPACE];
        } else if applications.Applications? {
          kubeRayNamespaces := [applications.namespace];
        } else {
          return false, [], q, xs;
        }
      }
      q := q.(locals := q.locals.(kubeRayNamespaces := kubeRayNamespaces), stage := Applying(HeadPolicyPart));
      ok := true;
    }

    ghost function FindCalls(): seq<Call> {
      [ListOperatorPods] + (if api.op.openShift then [GetApplications] else [])
    }

    ghost function PolicyCalls(c: RayCluster, nss: seq<string>): seq<Call> {
      [ApplyCall(api.op, c, HeadPolicyPart, NO_LOCALS.(kubeRayNamespaces := nss)),
       ApplyCall(api.op, c, WorkersPolicyPart, NO_LOCALS)]
    }

    /** On OpenShift the applications' namespace, or the two well-known ones; elsewhere that of the
        first operator pod, or the default. */
    ghost predicate FoundNamespaces(xs: seq<Exchange>, nss: seq<string>) {
      if api.op.openShift then
        && |xs| > 1
        && nss == if xs[1].reply.Applications? then [xs[1].reply.namespace]
                  else ["opendatahub", "redhat-ods-applications"]
      else
        && |xs| > 0 && xs[0].reply.Listed?
        && nss == if xs[0].reply.pods == [] then ["ray-system"] else [xs[0].reply.pods[0].namespace]
    }

    method ApplyPolicies(cluster: RayCluster, kubeRayNamespaces: seq<string>, ghost p: Pass)
        returns (ok: bool, ghost xs: seq<Exchange>)
      requires api.Valid() && p.cluster == cluster && p.stage == Applying(HeadPolicyPart) && api.PassIs(Continue(p))
      requires p.locals.kubeRayNamespaces == kubeRayNamespaces
      modifies api
      ensures api.Valid() && api.Grown(old(api.log)) && ok && api.PassIs(Return(ok))
      ensures api.trace == old(api.trace) + xs && AllAnswered(xs)
      ensures Calls(xs) == PolicyCalls(cluster, kubeRayNamespaces)
    {
      hide Run, Step, Serve, Resume, AfterCa, CallOf, ContentOf, Answered, ApplyCall, AllAnswered, Calls;
      ghost var x, y;
      var applied;
      applied, x := Apply(cluster, HeadPolicyPart, NO_LOCALS.(kubeRayNamespaces := kubeRayNamespaces), p);
      applied, y := Apply(cluster, WorkersPolicyPart, NO_LOCALS, p.(stage := Applying(WorkersPolicyPart)));
      OneAnswered(x);
      Appended([x], y);
      xs := [x] + [y];
      ok := true;
    }
  }

  lemma OneAnswered(x: Exchange)
    ensures AllAnswered([x]) <==> Answered(x)
    ensures Calls([x]) == [x.call]
  {
    assert [x][0] == x && [x][1..] == [];
  }

  lemma Appended(xs: seq<Exchange>, x: Exchange)
    ensures AllAnswered(xs + [x]) <==> AllAnswered(xs) && Answered(x)
    ensures Calls(xs + [x]) == Calls(xs) + [x.call]
  {
    AllConcat(xs, [x]);
    CallsConcat(xs, [x]);
    OneAnswered(x);
  }

  lemma NoneAnswered()
    ensures AllAnswered([])
  {
  }
}
