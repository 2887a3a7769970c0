/** The reverse index: from a Secret to the issuers whose `.spec.vault` names it. */
module SecretWatch {
  import opened Wrappers
  import opened GoErrors
  import opened VaultSpec
  import opened ClientSpec

  datatype Options = Options(
    clusterResourceNamespace: string,
    issuerAmbientCredentials: bool,
    clusterIssuerAmbientCredentials: bool)

  /** Where the Secrets of an issuer are read from. */
  function ResourceNamespace(o: Options, iss: Issuer): string {
    OrElse(iss.namespace, o.clusterResourceNamespace)
  }

  function CanUseAmbientCredentials(o: Options, iss: Issuer): bool {
    match iss.kind
    case ClusterIssuerKind => o.clusterIssuerAmbientCredentials
    case IssuerKind => o.issuerAmbientCredentials
  }

  predicate IgnoreIssuer(iss: Issuer) {
    iss.vault.None?
  }

  predicate RefIs(ref: Option<SecretKeySelector>, name: string) {
    ref.Some? && ref.value.name == name
  }

  /** vaultIssuerUsesSecret */
  predicate UsesSecret(vault: Option<VaultIssuer>, name: string) {
    vault.Some? &&
    var v := vault.value;
    || RefIs(v.caBundleSecretRef, name)
    || RefIs(v.clientCertSecretRef, name)
    || RefIs(v.clientKeySecretRef, name)
    || RefIs(v.auth.tokenSecretRef, name)
    || (v.auth.appRole.Some? && v.auth.appRole.value.secretRef.name == name)
    || (v.auth.clientCertificate.Some? && v.auth.clientCertificate.value.secretName == name)
    || (v.auth.kubernetes.Some? && v.auth.kubernetes.value.secretRef.name == name)
  }

  /** The references that New can follow: an inline CA bundle hides the Secret one, half a key pair is ignored. */
  predicate LiveRef(v: VaultIssuer, name: string) {
    || (v.caBundle == "" && RefIs(v.caBundleSecretRef, name))
    || (v.clientCertSecretRef.Some? && v.clientKeySecretRef.Some?
        && (RefIs(v.clientCertSecretRef, name) || RefIs(v.clientKeySecretRef, name)))
    || RefIs(v.auth.tokenSecretRef, name)
    || (v.auth.appRole.Some? && v.auth.appRole.value.secretRef.name == name)
    || (v.auth.clientCertificate.Some? && v.auth.clientCertificate.value.secretName == name)
    || (v.auth.kubernetes.Some? && v.auth.kubernetes.value.secretRef.name == name)
  }

  /** A reconcile request: the namespaced name in the queue of one controller. */
  datatype Request = Request(namespace: string, name: string)

  function RequestFor(kind: Kind, namespace: string, iss: Issuer): Request {
    Request(if kind.ClusterIssuerKind? then "" else namespace, iss.name)
  }

  /** The requests for the listed issuers that name the Secret, in listing order. */
  function Woken(kind: Kind, secret: ObjectKey, items: seq<Issuer>): seq<Request> {
    if items == [] then []
    else if UsesSecret(items[0].vault, secret.name) then
      [RequestFor(kind, secret.namespace, items[0])] + Woken(kind, secret, items[1..])
    else Woken(kind, secret, items[1..])
  }

  /** What the map function of one of the two controllers answers for a Secret event. */
  function RequestsFor(o: Options, kind: Kind, secret: ObjectKey, listed: Result<seq<Issuer>, GoError>): seq<Request> {
    if kind.ClusterIssuerKind? && secret.namespace != o.clusterResourceNamespace then []
    else if listed.Err? then []
    else Woken(kind, secret, listed.value)
  }

  lemma {:induction false} WokenSnoc(kind: Kind, secret: ObjectKey, items: seq<Issuer>, last: Issuer)
    ensures Woken(kind, secret, items + [last]) ==
            Woken(kind, secret, items) +
            if UsesSecret(last.vault, secret.name) then [RequestFor(kind, secret.namespace, last)] else []
  {
    if items == [] {
      assert [last][1..] == [];
    } else {
      assert (items + [last])[1..] == items[1..] + [last];
      WokenSnoc(kind, secret, items[1..], last);
    }
  }

  /** issuersForSecret, as the two loops that append to `requests`. */
  method IssuersForSecret(o: Options, clusterScoped: bool, secret: ObjectKey, listed: Result<seq<Issuer>, GoError>)
    returns (requests: seq<Request>)
    ensures requests == RequestsFor(o, if clusterScoped then ClusterIssuerKind else IssuerKind, secret, listed)
  {
    requests := [];
    if clusterScoped {
      if secret.namespace != o.clusterResourceNamespace {
        return;
      }
      if listed.Err? {
        return;
      }
      var items := listed.value;
      for i := 0 to |items|
        invariant requests == Woken(ClusterIssuerKind, secret, items[..i])
      {
        WokenSnoc(ClusterIssuerKind, secret, items[..i], items[i]);
        assert items[..i + 1] == items[..i] + [items[i]];
        if UsesSecret(items[i].vault, secret.name) {
          requests := requests + [Request("", items[i].name)];
        }
      }
      assert items[..|items|] == items;
      return;
    }
    if listed.Err? {
      return;
    }
    var items := listed.value;
    for i := 0 to |items|
      invariant requests == Woken(IssuerKind, secret, items[..i])
    {
      WokenSnoc(IssuerKind, secret, items[..i], items[i]);
      assert items[..i + 1] == items[..i] + [items[i]];
      if UsesSecret(items[i].vault, secret.name) {
        requests := requests + [Request(secret.namespace, items[i].name)];
      }
    }
    assert items[..|items|] == items;
  }

  // ---------------------------------------------------------------- what the filter means

  /** The positions of `items` that `at` lists are strictly increasing and are exactly those that use the Secret. */
  ghost predicate Picks(at: seq<nat>, secret: ObjectKey, items: seq<Issuer>) {
    && (forall k :: 0 <= k < |at| ==> at[k] < |items| && UsesSecret(items[at[k]].vault, secret.name))
    && (forall j, k :: 0 <= j < k < |at| ==> at[j] < at[k])
    && (forall i :: 0 <= i < |items| && UsesSecret(items[i].vault, secret.name) ==> i in at)
  }

  /** The answer is an order-preserving selection of exactly the issuers that use the Secret. */
  lemma {:induction false} WokenIsExactFilter(kind: Kind, secret: ObjectKey, items: seq<Issuer>) returns (at: seq<nat>)
    ensures Picks(at, secret, items)
    ensures |at| == |Woken(kind, secret, items)|
    ensures forall k :: 0 <= k < |at| ==>
              Woken(kind, secret, items)[k] == RequestFor(kind, secret.namespace, items[at[k]])
  {
    at := [];
    if items != [] {
      var init, last := items[..|items| - 1], items[|items| - 1];
      assert items == init + [last];
      WokenSnoc(kind, secret, init, last);
      at := WokenIsExactFilter(kind, secret, init);
      if UsesSecret(last.vault, secret.name) {
        at := PickLast(at, secret, init, last);
      } else {
        assert forall i :: 0 <= i < |items| && UsesSecret(items[i].vault, secret.name) ==> i < |init| && items[i] == init[i];
      }
    }
  }

  lemma PickLast(at: seq<nat>, secret: ObjectKey, init: seq<Issuer>, last: Issuer) returns (longer: seq<nat>)
    requires Picks(at, secret, init) && UsesSecret(last.vault, secret.name)
    ensures longer == at + [|init|] && Picks(longer, secret, init + [last])
  {
    longer := at + [|init|];
    var items := init + [last];
    forall i | 0 <= i < |items| && UsesSecret(items[i].vault, secret.name) ensures i in longer {
      if i < |init| {
        assert items[i] == init[i] && i in at;
      } else {
        assert longer[|at|] == i;
      }
    }
  }

  /** Which requests come out: those of the listed issuers that use the Secret, and no ignored issuer is among them. */
  lemma WokenMembers(kind: Kind, secret: ObjectKey, items: seq<Issuer>, r: Request)
    ensures r in Woken(kind, secret, items) <==>
            exists i :: 0 <= i < |items| && !IgnoreIssuer(items[i]) && UsesSecret(items[i].vault, secret.name)
              && r == RequestFor(kind, secret.namespace, items[i])
  {
    var at := WokenIsExactFilter(kind, secret, items);
    var w := Woken(kind, secret, items);
    if r in w {
      var k :| 0 <= k < |w| && w[k] == r;
      assert !IgnoreIssuer(items[at[k]]);
    }
    if i :| 0 <= i < |items| && UsesSecret(items[i].vault, secret.name) && r == RequestFor(kind, secret.namespace, items[i]) {
      var k :| 0 <= k < |at| && at[k] == i;
      assert w[k] == r;
    }
  }

  ghost predicate DistinctNames(items: seq<Issuer>) {
    forall i, j :: 0 <= i < j < |items| ==> items[i].name != items[j].name
  }

  /** No issuer is requested twice, because the names of one listing are distinct. */
  lemma WokenHasNoDuplicates(kind: Kind, secret: ObjectKey, items: seq<Issuer>)
    requires DistinctNames(items)
    ensures var w := Woken(kind, secret, items); forall j, k :: 0 <= j < k < |w| ==> w[j] != w[k]
  {
    var at := WokenIsExactFilter(kind, secret, items);
  }

  // ---------------------------------------------------------------- the index as a set of keys

  /** The Secrets whose events reach this issuer, as a property of the key. */
  predicate Watches(o: Options, iss: Issuer, k: ObjectKey) {
    k.namespace == ResourceNamespace(o, iss) && UsesSecret(iss.vault, k.name)
  }

  /** What List returns to one of the controllers: all its issuers, or those in the Secret's namespace. */
  ghost predicate IsListing(items: seq<Issuer>, all: set<Issuer>, kind: Kind, secret: ObjectKey) {
    && (forall iss :: iss in items <==>
          iss in all && iss.kind == kind && (kind.IssuerKind? ==> iss.namespace == secret.namespace))
  }

  /** What the API server guarantees of the stored issuers. */
  ghost predicate ValidIssuers(all: set<Issuer>) {
    && (forall x :: x in all ==> WellFormed(x))
    && (forall x, y :: x in all && y in all && SameName(x, y) ==> x == y)
  }

  predicate SameName(x: Issuer, y: Issuer) {
    x.kind == y.kind && x.namespace == y.namespace && x.name == y.name
  }

  /** The map function requests an issuer for a Secret exactly when the issuer watches that Secret. */
  lemma IndexIsWatches(o: Options, all: set<Issuer>, iss: Issuer, secret: ObjectKey, items: seq<Issuer>)
    requires ValidIssuers(all) && iss in all && secret.namespace != ""
    requires IsListing(items, all, iss.kind, secret)
    ensures (Request(iss.namespace, iss.name) in RequestsFor(o, iss.kind, secret, Ok(items))) <==> Watches(o, iss, secret)
  {
    WokenMembers(iss.kind, secret, items, Request(iss.namespace, iss.name));
    if Watches(o, iss, secret) {
      assert iss in items;
      var i :| 0 <= i < |items| && items[i] == iss;
      assert Request(iss.namespace, iss.name) == RequestFor(iss.kind, secret.namespace, items[i]);
    }
    if Request(iss.namespace, iss.name) in RequestsFor(o, iss.kind, secret, Ok(items)) {
      var i :| 0 <= i < |items| && UsesSecret(items[i].vault, secret.name)
        && Request(iss.namespace, iss.name) == RequestFor(iss.kind, secret.namespace, items[i]);
      assert items[i] in items;
      assert items[i] in all && WellFormed(items[i]);
      assert RequestFor(iss.kind, secret.namespace, items[i]).name == items[i].name;
      assert SameName(items[i], iss);
    }
  }
}
