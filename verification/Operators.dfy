/** The operator as the API server and the controller see it: its two webhooks and its object
    builders as function values, with the facts about them that the protocol relies on. */
module Operators {
  import opened Wrappers
  import opened Kube
  import opened Support
  import opened Objects
  import Defaulting
  import Items
  import Webhook
  import Admission
  import Validation
  import Policies

  datatype Operator = Operator(
    oauth: bool, mtls: bool, openShift: bool, hasIngressDomain: bool,
    defaulter: RayCluster -> Option<RayCluster>,
    createErrors: RayCluster -> seq<FieldError>,
    updateErrors: RayCluster -> Option<seq<FieldError>>,
    place: (Identity, Part) -> ObjectKey,
    content: (Subject, Part, Locals) -> Applied)

  function OperatorFor(s: Settings): Operator {
    Operator(s.OAuthEnabled(), s.MtlsEnabled(), s.openShift, s.ingressDomain != "",
             c => Defaulting.Defaulted(s, c),
             c => Webhook.CreateErrors(Webhook.ExpectedItems(s, c), c),
             c => Webhook.UpdateErrors(Webhook.ExpectedItems(s, c), c),
             (id, part) => Place(s, id, part),
             (sub, part, l) => Content(s, sub, part, l))
  }

  // ---------------------------------------------------------------- what the protocol relies on

  /** Defaulting leaves the cluster alone, whatever its version, finalizers and deletion state. */
  ghost predicate Fixed(op: Operator, d: RayCluster) {
    forall m: Meta {:trigger d.(meta := m)} ::
      m.name == d.meta.name && m.namespace == d.meta.namespace && m.annotations == d.meta.annotations ==>
        op.defaulter(d.(meta := m)) == Some(d.(meta := m))
  }

  ghost predicate DefaultedFrom(op: Operator, c: RayCluster, d: RayCluster) {
    && d.meta == c.meta.(annotations := d.meta.annotations)
    && !d.Legacy()
    && d.apiVersion == c.apiVersion && d.kind == c.kind && d.suspend == c.suspend
    && d.head.enableIngress == c.head.enableIngress
    && d.head.template.imagePullSecrets == c.head.template.imagePullSecrets
    && Fixed(op, d)
    && (op.createErrors(d) == [] <==> d.head.enableIngress != Some(true))
    && (op.updateErrors(d) == Some([]) <==> d.meta.deleting || d.head.enableIngress != Some(true))
  }

  ghost predicate SoundWebhook(op: Operator) {
    forall c :: op.defaulter(c).Some? ==> DefaultedFrom(op, c, op.defaulter(c).value)
  }

  ghost predicate SoundPlaces(op: Operator) {
    forall a: Identity, p: Part, b: Identity, q: Part :: !a.legacy && !b.legacy && op.place(a, p) == op.place(b, q) ==>
      && p == q
      && (if p.OAuthBindingPart? then a.name + "-" + a.namespace == b.name + "-" + b.namespace else a == b)
  }

  ghost predicate SoundKinds(op: Operator) {
    forall id: Identity, p: Part :: op.place(id, p).kind == KindOf(p)
  }

  ghost predicate SoundCa(op: Operator) {
    forall sub: Subject, l: Locals, o: Object :: PairOf(o.(applied := op.content(sub, CaSecretPart, l))) == l.pair
  }

  ghost predicate Sound(op: Operator) {
    SoundWebhook(op) && SoundPlaces(op) && SoundKinds(op) && SoundCa(op)
  }

  // ---------------------------------------------------------------- the operator meets them

  lemma PullSecretsKept(s: Settings, c: RayCluster)
    requires Defaulting.Defaulted(s, c).Some?
    ensures var d := Defaulting.Defaulted(s, c).value;
            && d.head.template.imagePullSecrets == c.head.template.imagePullSecrets
            && d.suspend == c.suspend && d.apiVersion == c.apiVersion && d.kind == c.kind
  {
    hide Items.InjectionFor;
    Defaulting.FitsIgnoresMeta(Defaulting.DefaultItems(s, c), s.operatorVersion, c);
  }

  /** The webhook ignores the metadata it does not read. */
  lemma DefaultIgnoresMeta(s: Settings, d: RayCluster, m: Meta)
    requires m.name == d.meta.name && m.namespace == d.meta.namespace && m.annotations == d.meta.annotations
    requires Defaulting.Defaulted(s, d) == Some(d)
    ensures Defaulting.Defaulted(s, d.(meta := m)) == Some(d.(meta := m))
  {
    hide Items.InjectionFor, Defaulting.WithTls, Defaulting.WithProxy, Defaulting.WorkersWithTls;
    var d' := d.(meta := m);
    var j := Defaulting.DefaultItems(s, d);
    assert Defaulting.Annotated(s.operatorVersion, d).Ident() == Defaulting.Annotated(s.operatorVersion, d').Ident();
    Defaulting.FitsIgnoresMeta(j, s.operatorVersion, d);
    Defaulting.FitsIgnoresMeta(j, s.operatorVersion, d');
    InjectIgnoresMeta(j, Defaulting.Annotated(s.operatorVersion, d), Defaulting.Annotated(s.operatorVersion, d').meta);
    assert d.meta.annotations[VERSION_ANNOTATION := s.operatorVersion] == d.meta.annotations by {
      Defaulting.InjectKeepsIdentity(j, s.operatorVersion, d);
    }
  }

  lemma InjectIgnoresMeta(j: Items.Injection, c: RayCluster, m: Meta)
    requires Defaulting.Fits(j, c)
    ensures Defaulting.Fits(j, c.(meta := m))
    ensures Defaulting.Inject(j, c.(meta := m)) == Defaulting.Inject(j, c).(meta := m)
  {
  }

  lemma WebhookIsSound(s: Settings, c: RayCluster)
    requires Defaulting.Defaulted(s, c).Some?
    ensures DefaultedFrom(OperatorFor(s), c, Defaulting.Defaulted(s, c).value)
  {
    hide Items.InjectionFor, Defaulting.Defaulted, Webhook.CreateErrors, Webhook.UpdateErrors, Webhook.ExpectedItems;
    hide Place, Content;
    var op := OperatorFor(s);
    var d := Defaulting.Defaulted(s, c).value;
    Admission.DefaultSatisfiesValidation(s, c);
    Admission.ExpectedAfterDefault(s, c);
    PullSecretsKept(s, c);
    Defaulting.DefaultIdempotent(s, c);
    assert !d.Legacy();
    forall m: Meta | m.name == d.meta.name && m.namespace == d.meta.namespace && m.annotations == d.meta.annotations
      ensures op.defaulter(d.(meta := m)) == Some(d.(meta := m))
    {
      DefaultIgnoresMeta(s, d, m);
    }
  }

  lemma CaContent(s: Settings, sub: Subject, l: Locals, o: Object)
    ensures PairOf(o.(applied := Content(s, sub, CaSecretPart, l))) == l.pair
  {
    hide Policies.HeadPolicy, Policies.WorkersPolicy, AnnotationsOf, LabelsOf, Owner;
    assert |CA_PRIVATE_KEY_KEY| != |CA_CERT_KEY| || CA_PRIVATE_KEY_KEY[3] != CA_CERT_KEY[3];
  }

  lemma OperatorIsSound(s: Settings)
    ensures Sound(OperatorFor(s))
  {
    hide Items.InjectionFor, Defaulting.Defaulted, Webhook.CreateErrors, Webhook.UpdateErrors, Webhook.ExpectedItems;
    hide Place, Content, PairOf, DefaultedFrom;
    var op := OperatorFor(s);
    forall c | op.defaulter(c).Some? ensures DefaultedFrom(op, c, op.defaulter(c).value) {
      WebhookIsSound(s, c);
    }
    forall a: Identity, p: Part, b: Identity, q: Part | !a.legacy && !b.legacy && op.place(a, p) == op.place(b, q)
      ensures p == q
      ensures if p.OAuthBindingPart? then a.name + "-" + a.namespace == b.name + "-" + b.namespace else a == b
    {
      PlaceInjective(s, a, p, b, q);
    }
    forall id: Identity, p: Part ensures op.place(id, p).kind == KindOf(p) {
      PlaceKind(s, id, p);
    }
    forall sub: Subject, l: Locals, o: Object
      ensures PairOf(o.(applied := op.content(sub, CaSecretPart, l))) == l.pair
    {
      CaContent(s, sub, l, o);
    }
  }

  lemma PlaceKind(s: Settings, id: Identity, p: Part)
    ensures Place(s, id, p).kind == KindOf(p)
  {
  }
}
