/** The results on runs, stated for the operator itself: its webhook, its names and its objects. */
module OperatorRuns {
  import opened Wrappers
  import opened Naming
  import opened Kube
  import opened Objects
  import opened Operators
  import opened ApiServer
  import opened Protocol
  import opened AdmissionRuns
  import Policies
  import Items
  import Defaulting
  import Validation
  import Admission
  import Webhook
  import BindingSafety
  import Footprints
  import Convergence
  import References

  /** The webhook has nothing left to change, every injected item is in place, and, but for a
      deleting cluster, `enableIngress` is not true. */
  ghost predicate Admitted(s: Settings, c: RayCluster) {
    var j := Webhook.ExpectedItems(s, c);
    && VERSION_ANNOTATION in c.meta.annotations
    && Defaulting.Defaulted(s, c) == Some(c)
    && Validation.Indexable(j, c)
    && (forall site :: Validation.Applies(j, c, site) && site != Validation.IngressSite ==>
        Validation.Satisfied(j, c, site))
    && (c.meta.deleting || c.head.enableIngress != Some(true))
  }

  /** The names of all derived objects are functions of the key alone. */
  ghost predicate NamesFixed(s: Settings, k: Key, c: RayCluster) {
    && c.Id() == k
    && (forall role :: s.Name(c.Ident(), role) == HashedName(s.hash, k.name, role))
    && s.Crb(c.Ident()) == CrbName(s.hash, false, k.name, k.namespace)
  }

  /** A cluster that the webhook leaves alone is its own injection. */
  lemma FixpointInjected(s: Settings, c: RayCluster)
    requires !c.Legacy() && Defaulting.Defaulted(s, c) == Some(c)
    ensures var j := Webhook.ExpectedItems(s, c);
            Items.Coherent(j) && Defaulting.Fits(j, c) && Defaulting.Inject(j, c) == c
  {
    hide Items.InjectionFor, Defaulting.Inject, Defaulting.Fits, Items.Coherent;
    var j := Defaulting.DefaultItems(s, c);
    assert c.meta == Defaulting.Annotated(s.operatorVersion, c).meta
        by { Defaulting.InjectKeepsIdentity(j, s.operatorVersion, c); }
    assert c == Defaulting.Annotated(s.operatorVersion, c);
    Items.InjectionCoherent(s, c.Ident());
    Defaulting.FitsIgnoresMeta(j, s.operatorVersion, c);
  }

  lemma FixpointAdmitted(s: Settings, c: RayCluster)
    requires !c.Legacy() && Defaulting.Defaulted(s, c) == Some(c)
    requires c.meta.deleting || c.head.enableIngress != Some(true)
    ensures Admitted(s, c)
  {
    hide Defaulting.Defaulted, Webhook.ExpectedItems, Defaulting.Inject, Defaulting.Fits, Items.Coherent;
    hide Validation.Satisfied, Validation.Indexable, Validation.Applies;
    FixpointInjected(s, c);
    Validation.InjectedAcceptable(Webhook.ExpectedItems(s, c), c);
  }

  lemma FixedNames(s: Settings, k: Key, c: RayCluster)
    requires c.Ident() == BindingSafety.IdOf(k)
    ensures NamesFixed(s, k, c)
  {
    hide HashedName;
  }

  lemma SaneAdmitted(s: Settings, k: Key, c: RayCluster)
    requires Sane(OperatorFor(s), k, c) && (c.meta.deleting || c.head.enableIngress != Some(true))
    ensures Admitted(s, c) && NamesFixed(s, k, c)
  {
    hide Admitted, NamesFixed, Fixed, Defaulting.Defaulted;
    References.SaneDefaulted(s, k, c);
    FixpointAdmitted(s, c);
    FixedNames(s, k, c);
  }

  /** Admission invariant: after every sequence of creations, updates and deletions, of the
      controller's own steps and of everything else, every stored cluster is as the webhook wants
      it, so the names derived from it never change while it lives. */
  lemma AdmissionInvariant(s: Settings, st: State, evs: seq<Event>, k: Key)
    requires Initial(st)
    ensures var w := Run(OperatorFor(s), st, evs).world;
            k in w.clusters ==> Admitted(s, w.clusters[k]) && NamesFixed(s, k, w.clusters[k])
  {
    hide Run, Admitted, NamesFixed, Fixed, OperatorFor;
    OperatorIsSound(s);
    hide Sound;
    var op := OperatorFor(s);
    TidyRun(op, st, evs);
    var w := Run(op, st, evs).world;
    if k in w.clusters {
      assert ViewOf(w, k, w.clusters[k]);
      SaneAdmitted(s, k, w.clusters[k]);
    }
  }

  function BindingObject(s: Settings, k: Key): ObjectKey {
    ObjectKey(BindingKind, "", CrbName(s.hash, false, k.name, k.namespace))
  }

  /** The binding names of distinct clusters differ. */
  ghost predicate BindingNamesDiffer(s: Settings, tenants: set<Key>) {
    forall a, b | a in tenants && b in tenants && a != b :: BindingObject(s, a) != BindingObject(s, b)
  }

  /** No leaked ClusterRoleBinding, in terms of its name, whatever bindings others keep: one that is
      not marked for deletion is the binding of a stored cluster that carries the finalizer and has
      the same `name-namespace`; where binding names differ, that is the cluster itself. */
  lemma OperatorLeaksNoBinding(s: Settings, tenants: set<Key>, st: State, evs: seq<Event>, k: Key)
    requires Initial(st) && (forall t | t in tenants :: !Live(st.world.objects, BindingObject(s, t)))
    requires BindingSafety.PoliteRun(OperatorFor(s), tenants, st, evs)
    requires k in tenants && Live(Run(OperatorFor(s), st, evs).world.objects, BindingObject(s, k))
    ensures exists h | h in tenants ::
              && h.name + "-" + h.namespace == k.name + "-" + k.namespace
              && BindingSafety.Present(Run(OperatorFor(s), st, evs).world, h)
    ensures BindingNamesDiffer(s, tenants) ==> BindingSafety.Present(Run(OperatorFor(s), st, evs).world, k)
  {
    hide Run, OperatorFor, BindingSafety.PoliteRun, BindingSafety.BindingKey, BindingSafety.Present;
    hide BindingObject, Live, Sound, Initial, BindingSafety.NoLeak, BindingSafety.NoBindingYet;
    var op := OperatorFor(s);
    OperatorIsSound(s);
    NoneYet(s, tenants, st.world.objects);
    BindingSafety.NoBindingLeak(op, tenants, st, evs);
    LeakNames(s, tenants, Run(op, st, evs).world, k);
  }

  lemma NoneYet(s: Settings, tenants: set<Key>, objects: map<ObjectKey, Object>)
    requires forall t | t in tenants :: !Live(objects, BindingObject(s, t))
    ensures BindingSafety.NoBindingYet(OperatorFor(s), tenants, objects)
  {
    hide OperatorFor, BindingSafety.BindingKey, BindingObject, Live;
    forall t | t in tenants ensures !Live(objects, BindingSafety.BindingKey(OperatorFor(s), t)) { BindingName(s, t); }
  }

  lemma LeakNames(s: Settings, tenants: set<Key>, w: World, k: Key)
    requires BindingSafety.NoLeak(OperatorFor(s), tenants, w) && k in tenants && Live(w.objects, BindingObject(s, k))
    ensures exists h | h in tenants ::
              h.name + "-" + h.namespace == k.name + "-" + k.namespace && BindingSafety.Present(w, h)
    ensures BindingNamesDiffer(s, tenants) ==> BindingSafety.Present(w, k)
  {
    hide OperatorFor, BindingSafety.BindingKey, BindingObject, Live, BindingSafety.Present;
    var op := OperatorFor(s);
    BindingName(s, k);
    var h :| h in tenants && BindingSafety.BindingKey(op, h) == BindingSafety.BindingKey(op, k)
        && BindingSafety.Present(w, h);
    BindingName(s, h);
    SharedName(s, h, k);
  }

  lemma SharedName(s: Settings, a: Key, b: Key)
    ensures BindingObject(s, a) == BindingObject(s, b) <==> a.name + "-" + a.namespace == b.name + "-" + b.namespace
  {
    hide CrbName;
    CrbNameCollides(s.hash, a.name, a.namespace, b.name, b.namespace);
  }

  lemma BindingName(s: Settings, k: Key)
    ensures BindingSafety.BindingKey(OperatorFor(s), k) == BindingObject(s, k)
  {
    hide Place, Content;
    BindingPlace(s, BindingSafety.IdOf(k));
  }

  lemma BindingPlace(s: Settings, id: Identity)
    ensures Place(s, id, OAuthBindingPart) ==
            ObjectKey(BindingKind, "", CrbName(s.hash, id.legacy, id.name, id.namespace))
  {
    hide CrbName, RoleName, DashboardName, RayClientName;
  }

  // ---------------------------------------------------------------- the cookie salt

  predicate HasOAuthObjects(s: Settings, c: RayCluster) {
    s.OAuthEnabled() && s.openShift && !c.Suspended()
  }

  /** The cookie secrets that two processes apply differ only in the derived cookie. */
  lemma CookieByContent(s: Settings, sub: Subject, l: Locals, l': Locals)
    ensures Content(s, sub, OAuthSecretPart, l) == Content(s, sub, OAuthSecretPart, l') <==>
            s.cookie(sub.id.name + l.salt) == s.cookie(sub.id.name + l'.salt)
  {
    hide Owner, LabelsOf, AnnotationsOf, CookieSecret, CaSecret, ProxyService, DelegatorBinding, DashboardRoute;
    hide ClientRoute, DashboardIngress, ClientIngress, Policies.HeadPolicy, Policies.WorkersPolicy;
    CookieSecrets(s, sub.id, l.salt, l'.salt);
  }

  lemma CookieSecrets(s: Settings, id: Identity, x: string, y: string)
    ensures CookieSecret(s, id, x) == CookieSecret(s, id, y) <==> s.cookie(id.name + x) == s.cookie(id.name + y)
  {
    var a, b := CookieSecret(s, id, x).data, CookieSecret(s, id, y).data;
    assert a["cookie_secret"] == s.cookie(id.name + x) && b["cookie_secret"] == s.cookie(id.name + y);
  }

  lemma CookieKeptExactly(s: Settings, c: RayCluster, x: string, y: string)
    ensures Convergence.CookieKept(OperatorFor(s), c, x, y) <==>
            (HasOAuthObjects(s, c) ==> s.cookie(c.meta.name + x) == s.cookie(c.meta.name + y))
  {
    hide Convergence.CookieOf, OAuthBranch, HasOAuthObjects, OperatorFor, Content;
    CookieContent(s, c, x);
    CookieContent(s, c, y);
    CookieByContent(s, SubjectOf(c), NO_LOCALS.(salt := x), NO_LOCALS.(salt := y));
    SameBranch(s, c);
  }

  lemma CookieContent(s: Settings, c: RayCluster, salt: string)
    ensures Convergence.CookieOf(OperatorFor(s), c, salt) ==
            Content(s, SubjectOf(c), OAuthSecretPart, NO_LOCALS.(salt := salt))
  {
    hide Content, Place;
  }

  lemma SameBranch(s: Settings, c: RayCluster)
    ensures OAuthBranch(OperatorFor(s), c) <==> HasOAuthObjects(s, c)
  {
    hide Content, Place;
  }

  /** Exactly when a complete pass after another one leaves every object as it is: when the cluster has
      no OAuth objects, or the salts of the two processes give it the same cookie. */
  lemma FurtherPassChangesCookie(s: Settings, k: Key, st: State, generated: Option<KeyPair>, evs: seq<Event>,
                                 generated': Option<KeyPair>)
    requires Tidy(OperatorFor(s), st) && Convergence.Ready(OperatorFor(s), k, st)
    requires Convergence.CanPair(OperatorFor(s), k, st.world.objects, generated)
    requires Convergence.SoloEvents(k, evs)
    requires Convergence.Resting(k, Run(OperatorFor(s), FullPass(OperatorFor(s), st, k, generated), evs))
    ensures var op := OperatorFor(s);
            var after := FullPass(op, st, k, generated);
            var mid := Run(op, after, evs);
            var c := st.world.clusters[k];
            FullPass(op, mid, k, generated').world.objects == after.world.objects <==>
              (HasOAuthObjects(s, c) ==> s.cookie(c.meta.name + st.salt) == s.cookie(c.meta.name + mid.salt))
  {
    hide Run, FullPass, OperatorFor, Tidy, Convergence.CookieKept;
    OperatorIsSound(s);
    hide Sound;
    var op := OperatorFor(s);
    Convergence.FurtherPassExact(op, k, st, generated, evs, generated');
    CookieKeptExactly(s, st.world.clusters[k], st.salt, Run(op, FullPass(op, st, k, generated), evs).salt);
  }

  /** A run in which it does change: a complete pass, a restart, a complete pass. */
  lemma RestartRewritesCookie(s: Settings, k: Key, st: State, generated: Option<KeyPair>, salt: string)
    requires Tidy(OperatorFor(s), st) && Convergence.Ready(OperatorFor(s), k, st)
    requires Convergence.CanPair(OperatorFor(s), k, st.world.objects, generated)
    requires HasOAuthObjects(s, st.world.clusters[k])
    requires s.cookie(st.world.clusters[k].meta.name + st.salt) != s.cookie(st.world.clusters[k].meta.name + salt)
    ensures var op := OperatorFor(s);
            var after := FullPass(op, st, k, generated);
            FullPass(op, Step(op, after, Restart(salt)), k, generated).world.objects != after.world.objects
  {
    hide Run, Step, FullPass, OperatorFor, Tidy, Sound, HasOAuthObjects, Convergence.Ready;
    OperatorIsSound(s);
    var op := OperatorFor(s);
    var after := FullPass(op, st, k, generated);
    RestartRests(op, k, st, generated, salt);
    RunOne(op, after, Restart(salt));
    FurtherPassChangesCookie(s, k, st, generated, [Restart(salt)], generated);
  }

  /** After a pass with every call served, a restart leaves the new process ready for another one. */
  lemma RestartRests(op: Operator, k: Key, st: State, generated: Option<KeyPair>, salt: string)
    requires Sound(op) && Tidy(op, st) && Convergence.Ready(op, k, st)
    requires Convergence.CanPair(op, k, st.world.objects, generated)
    ensures var anew := Step(op, FullPass(op, st, k, generated), Restart(salt));
            Convergence.Resting(k, anew) && anew.salt == salt
  {
    hide FullPass, Tidy, Sound, Convergence.Complete;
    Convergence.ServedPassOutcome(op, k, st, generated);
  }
}
