/** The part of the Issuer API that the controller reads: `.spec.vault` and the Issuer's identity. */
module VaultSpec {
  import opened Wrappers

  datatype SecretKeySelector = SecretKeySelector(name: string, key: string)

  datatype ServiceAccountRef = ServiceAccountRef(name: string, tokenAudiences: seq<string>)

  datatype AppRoleAuth = AppRoleAuth(path: string, roleId: string, secretRef: SecretKeySelector)

  datatype ClientCertificateAuth = ClientCertificateAuth(path: string, secretName: string, name: string)

  datatype KubernetesAuth = KubernetesAuth(
    path: string,
    role: string,
    secretRef: SecretKeySelector,
    serviceAccountRef: Option<ServiceAccountRef>)

  datatype AwsAuth = AwsAuth(
    mountPath: string,
    role: string,
    region: string,
    iamRoleArn: string,
    vaultHeaderValue: string,
    serviceAccountRef: Option<ServiceAccountRef>)

  datatype VaultAuth = VaultAuth(
    tokenSecretRef: Option<SecretKeySelector>,
    appRole: Option<AppRoleAuth>,
    clientCertificate: Option<ClientCertificateAuth>,
    kubernetes: Option<KubernetesAuth>,
    aws: Option<AwsAuth>)

  datatype VaultIssuer = VaultIssuer(
    auth: VaultAuth,
    server: string,
    serverName: string,
    path: string,
    namespace: string,
    caBundle: string,
    caBundleSecretRef: Option<SecretKeySelector>,
    clientCertSecretRef: Option<SecretKeySelector>,
    clientKeySecretRef: Option<SecretKeySelector>)

  datatype Kind = IssuerKind | ClusterIssuerKind

  /** A cert-manager Issuer or ClusterIssuer; `vault` is None when the issuer belongs to another type. */
  datatype Issuer = Issuer(kind: Kind, namespace: string, name: string, vault: Option<VaultIssuer>)

  /** What the API server guarantees: only an Issuer lives in a namespace. */
  predicate WellFormed(iss: Issuer) {
    iss.kind.ClusterIssuerKind? <==> iss.namespace == ""
  }

  // ---------------------------------------------------------------- choosing an auth method

  datatype Method = TokenMethod | AppRoleMethod | ClientCertificateMethod | KubernetesMethod | AwsMethod

  predicate IsSet(auth: VaultAuth, m: Method) {
    match m
    case TokenMethod => auth.tokenSecretRef.Some?
    case AppRoleMethod => auth.appRole.Some?
    case ClientCertificateMethod => auth.clientCertificate.Some?
    case KubernetesMethod => auth.kubernetes.Some?
    case AwsMethod => auth.aws.Some?
  }

  /** The order in which setToken asks for the methods. */
  const PRECEDENCE: seq<Method> :=
    [TokenMethod, AppRoleMethod, ClientCertificateMethod, KubernetesMethod, AwsMethod]

  /** The branch that an if-chain over `order` takes. */
  function Select(order: seq<Method>, auth: VaultAuth): Option<Method> {
    if order == [] then None
    else if IsSet(auth, order[0]) then Some(order[0])
    else Select(order[1..], auth)
  }

  predicate IsOrder(order: seq<Method>) {
    multiset(order) == multiset(PRECEDENCE)
  }

  predicate AtMostOne(auth: VaultAuth) {
    forall m, n :: IsSet(auth, m) && IsSet(auth, n) ==> m == n
  }

  lemma {:induction false} SelectFinds(order: seq<Method>, auth: VaultAuth)
    ensures Select(order, auth).None? <==> forall m :: m in order ==> !IsSet(auth, m)
    ensures Select(order, auth).Some? ==> IsSet(auth, Select(order, auth).value) && Select(order, auth).value in order
  {
    if order != [] {
      SelectFinds(order[1..], auth);
      assert forall m :: m in order <==> m == order[0] || m in order[1..];
    }
  }

  lemma OrderHasAll(order: seq<Method>, m: Method)
    requires IsOrder(order)
    ensures m in order
  {
    assert PRECEDENCE[0] == TokenMethod && PRECEDENCE[1] == AppRoleMethod && PRECEDENCE[2] == ClientCertificateMethod
        && PRECEDENCE[3] == KubernetesMethod && PRECEDENCE[4] == AwsMethod;
    assert m in PRECEDENCE;
    assert m in multiset(PRECEDENCE);
  }

  /** The if-chain of setToken selects what PRECEDENCE says. */
  lemma SelectIsFirst(auth: VaultAuth)
    ensures Select(PRECEDENCE, auth) ==
            if auth.tokenSecretRef.Some? then Some(TokenMethod)
            else if auth.appRole.Some? then Some(AppRoleMethod)
            else if auth.clientCertificate.Some? then Some(ClientCertificateMethod)
            else if auth.kubernetes.Some? then Some(KubernetesMethod)
            else if auth.aws.Some? then Some(AwsMethod)
            else None
  {
    var q1 := [AppRoleMethod, ClientCertificateMethod, KubernetesMethod, AwsMethod];
    var q2 := [ClientCertificateMethod, KubernetesMethod, AwsMethod];
    var q3 := [KubernetesMethod, AwsMethod];
    var q4 := [AwsMethod];
    assert PRECEDENCE[1..] == q1 && q1[1..] == q2 && q2[1..] == q3 && q3[1..] == q4 && q4[1..] == [];
    assert Select(q4, auth) == if auth.aws.Some? then Some(AwsMethod) else None;
    assert Select(q3, auth) == if auth.kubernetes.Some? then Some(KubernetesMethod) else Select(q4, auth);
    assert Select(q2, auth) == if auth.clientCertificate.Some? then Some(ClientCertificateMethod) else Select(q3, auth);
    assert Select(q1, auth) == if auth.appRole.Some? then Some(AppRoleMethod) else Select(q2, auth);
  }

  /** The order of the branches matters exactly when more than one method is set. */
  lemma OrderIrrelevantIff(auth: VaultAuth)
    ensures AtMostOne(auth) <==>
            forall order | IsOrder(order) :: Select(order, auth) == Select(PRECEDENCE, auth)
  {
    if AtMostOne(auth) {
      forall order | IsOrder(order)
        ensures Select(order, auth) == Select(PRECEDENCE, auth)
      {
        SelectFinds(order, auth);
        SelectFinds(PRECEDENCE, auth);
        forall m: Method ensures m in order && m in PRECEDENCE {
          OrderHasAll(order, m);
          OrderHasAll(PRECEDENCE, m);
        }
      }
    } else {
      var m, n :| IsSet(auth, m) && IsSet(auth, n) && m != n;
      var chosen := Select(PRECEDENCE, auth);
      SelectFinds(PRECEDENCE, auth);
      OrderHasAll(PRECEDENCE, m);
      var other := if chosen.value == m then n else m;
      var order := MoveToFront(PRECEDENCE, other);
      assert Select(order, auth) == Some(other);
    }
  }

  ghost function MoveToFront(order: seq<Method>, m: Method): (r: seq<Method>)
    requires IsOrder(order)
    ensures IsOrder(r) && r[0] == m
  {
    OrderHasAll(order, m);
    var i :| 0 <= i < |order| && order[i] == m;
    assert order == order[..i] + [m] + order[i + 1..];
    [m] + order[..i] + order[i + 1..]
  }
}
