/** The admission chain of the API server: defaulting, then validation of the defaulted object. */
module Admission {
  import opened Wrappers
  import opened Kube
  import opened Items
  import opened Support
  import opened Defaulting
  import opened Validation
  import opened Webhook

  lemma ExpectedAfterDefault(s: Settings, c: RayCluster)
    requires Defaulted(s, c).Some?
    ensures ExpectedItems(s, Defaulted(s, c).value) == DefaultItems(s, c)
    ensures Defaulted(s, c).value.meta == Annotated(s.operatorVersion, c).meta
    ensures Defaulted(s, c).value.head.enableIngress == c.head.enableIngress
  {
    hide InjectionFor;
    FitsIgnoresMeta(DefaultItems(s, c), s.operatorVersion, c);
    InjectKeepsIdentity(DefaultItems(s, c), s.operatorVersion, c);
  }

  /** All sites but the first, which is enableIngress. */
  lemma OtherSites(j: Injection, d: RayCluster)
    requires Indexable(j, d)
    ensures var rest := OAuthSites(j) + TlsSites(j, d);
            && UpdateSites(j, d) == [IngressSite] + rest
            && AllApply(j, d, rest) && AllApply(j, d, OAuthSites(j))
            && (forall i | 0 <= i < |rest| :: rest[i] != IngressSite)
            && (forall i | 0 <= i < |OAuthSites(j)| :: OAuthSites(j)[i] == rest[i])
  {
    TlsSitesExact(j, d);
    var rest := OAuthSites(j) + TlsSites(j, d);
    assert UpdateSites(j, d) == [IngressSite] + rest;
    assert forall i | 0 <= i < |TlsSites(j, d)| :: TlsSites(j, d)[i] in TlsSites(j, d);
  }

  lemma IngressOnly(j: Injection, d: RayCluster)
    requires Indexable(j, d)
    requires forall site :: Applies(j, d, site) && site != IngressSite ==> Satisfied(j, d, site)
    ensures var e := if d.head.enableIngress == Some(true) then [FieldError(Invalid, EnableIngress)] else [];
            && CreateErrors(j, d) == e
            && AllApply(j, d, UpdateSites(j, d)) && Errors(j, d, UpdateSites(j, d)) == e
  {
    assert ErrorAt(j, d, IngressSite) ==
           if d.head.enableIngress == Some(true) then Some(FieldError(Invalid, EnableIngress)) else None;
    hide Satisfied, ErrorAt, TlsSites, OAuthSites, Indexable;
    var rest := OAuthSites(j) + TlsSites(j, d);
    OtherSites(j, d);
    ErrorsEmpty(j, d, rest);
    ErrorsEmpty(j, d, OAuthSites(j));
    Peel(j, d, IngressSite, rest);
    Peel(j, d, IngressSite, OAuthSites(j));
  }

  /** After Default, neither validator reports anything but enableIngress, and it reports that
      exactly when the field is true; an object being deleted passes altogether. */
  lemma DefaultSatisfiesValidation(s: Settings, c: RayCluster)
    requires Defaulted(s, c).Some?
    ensures var d := Defaulted(s, c).value;
            var e := if c.head.enableIngress == Some(true) then [FieldError(Invalid, EnableIngress)] else [];
            && CreateErrors(ExpectedItems(s, d), d) == e
            && UpdateErrors(ExpectedItems(s, d), d) == Some(if c.meta.deleting then [] else e)
  {
    hide InjectionFor, Inject, Coherent, Applies, Satisfied, Indexable, CreateErrors, Annotated, Fits;
    var d := Defaulted(s, c).value;
    var c1 := Annotated(s.operatorVersion, c);
    var j := DefaultItems(s, c);
    ExpectedAfterDefault(s, c);
    InjectionCoherent(s, c1.Ident());
    FitsIgnoresMeta(j, s.operatorVersion, c);
    InjectedAcceptable(j, c1);
    IngressOnly(j, d);
    AnnotatedDeleting(s.operatorVersion, c);
  }

  lemma AnnotatedDeleting(version: string, c: RayCluster)
    ensures Annotated(version, c).meta.deleting == c.meta.deleting
  {
  }

  /** For an object that is not being deleted, the update webhook accepts exactly the declarative
      predicate over the head and all worker groups, and panics exactly when, under mutual TLS, a
      first container is missing. */
  lemma UpdateAcceptsExactly(s: Settings, c: RayCluster)
    requires !c.meta.deleting
    ensures var j := ExpectedItems(s, c);
            && (UpdateErrors(j, c).None? <==> !Indexable(j, c))
            && (Indexable(j, c) ==> (UpdateErrors(j, c) == Some([]) <==> Acceptable(j, c)))
  {
    hide InjectionFor, Indexable, Acceptable;
    var j := ExpectedItems(s, c);
    if Indexable(j, c) {
      AcceptsExactly(j, c);
    }
  }
}
