/** What can be said about building a client for every issuer, every Secret store and every outside world. */
module ClientFacts {
  import opened Wrappers
  import opened GoErrors
  import opened VaultSpec
  import opened ClientSpec
  import opened SecretWatch

  // ---------------------------------------------------------------- reads

  /** Both readers answer alike at every read that the log records. */
  ghost predicate AgreeOn(r1: Reader, r2: Reader, log: seq<Effect>) {
    forall i {:trigger log[i]} :: 0 <= i < |log| && log[i].ReadSecret? ==> r1(log[i].slot, log[i].key) == r2(log[i].slot, log[i].key)
  }

  lemma AgreeOnConcat(r1: Reader, r2: Reader, a: seq<Effect>, b: seq<Effect>)
    ensures AgreeOn(r1, r2, a + b) <==> AgreeOn(r1, r2, a) && AgreeOn(r1, r2, b)
  {
    var c := a + b;
    assert forall i :: 0 <= i < |a| ==> c[i] == a[i];
    assert forall i :: 0 <= i < |b| ==> c[|a| + i] == b[i];
    if AgreeOn(r1, r2, a) && AgreeOn(r1, r2, b) {
      forall i | 0 <= i < |c| && c[i].ReadSecret?
        ensures r1(c[i].slot, c[i].key) == r2(c[i].slot, c[i].key)
      {
        assert c[i] == if i < |a| then a[i] else b[i - |a|];
      }
    }
  }

  lemma CaBundleReadsDetermine(r1: Reader, r2: Reader, ns: string, v: VaultIssuer)
    requires AgreeOn(r1, r2, CaBundle(r1, ns, v).log)
    ensures CaBundle(r1, ns, v) == CaBundle(r2, ns, v)
  {
    var log := CaBundle(r1, ns, v).log;
    if log != [] { assert log[0].ReadSecret?; }
  }

  lemma ClientCertificateReadsDetermine(env: Env, r1: Reader, r2: Reader, ns: string, v: VaultIssuer)
    requires AgreeOn(r1, r2, ClientCertificate(env, r1, ns, v).log)
    ensures ClientCertificate(env, r1, ns, v) == ClientCertificate(env, r2, ns, v)
  {
    var log := ClientCertificate(env, r1, ns, v).log;
    if |log| > 0 { assert log[0].ReadSecret?; }
    if |log| > 1 { assert log[1].ReadSecret?; }
  }

  lemma ConfigReadsDetermine(env: Env, r1: Reader, r2: Reader, ns: string, v: VaultIssuer)
    requires AgreeOn(r1, r2, NewConfig(env, r1, ns, v).log)
    ensures NewConfig(env, r1, ns, v) == NewConfig(env, r2, ns, v)
  {
    var ca := CaBundle(r1, ns, v);
    AgreeOnConcat(r1, r2, ca.log, ClientCertificate(env, r1, ns, v).log);
    CaBundleReadsDetermine(r1, r2, ns, v);
    if ca.res.Ok? && (ca.res.value != "" ==> env.poolParses(ca.res.value)) {
      ClientCertificateReadsDetermine(env, r1, r2, ns, v);
    }
  }

  /** The Secret that the selected auth method reads, if it reads one. */
  function AuthKey(order: seq<Method>, ns: string, v: VaultIssuer): Option<ObjectKey> {
    SelectFinds(order, v.auth);
    match Select(order, v.auth)
    case Some(TokenMethod) => Some(ObjectKey(ns, v.auth.tokenSecretRef.value.name))
    case Some(AppRoleMethod) => Some(ObjectKey(ns, v.auth.appRole.value.secretRef.name))
    case Some(ClientCertificateMethod) => KeyUnlessEmpty(ns, v.auth.clientCertificate.value.secretName)
    case Some(KubernetesMethod) => KeyUnlessEmpty(ns, v.auth.kubernetes.value.secretRef.name)
    case _ => None
  }

  function KeyUnlessEmpty(ns: string, name: string): Option<ObjectKey> {
    if name == "" then None else Some(ObjectKey(ns, name))
  }

  /** The log starts with the read of `k`, if there is one, and reads nothing else. */
  ghost predicate ReadsFirst(log: seq<Effect>, k: Option<ObjectKey>) {
    && (k.Some? ==> log != [] && log[0] == ReadSecret(AuthSlot, k.value))
    && (forall i {:trigger log[i]} :: 0 <= i < |log| && log[i].ReadSecret? ==> i == 0 && k.Some?)
  }

  lemma CertificateReads(env: Env, r: Reader, ns: string, conn: Conn, a: ClientCertificateAuth)
    ensures ReadsFirst(WithClientCertificate(env, r, ns, conn, a).log, KeyUnlessEmpty(ns, a.secretName))
  {
  }

  lemma KubernetesReads(env: Env, r: Reader, ns: string, iss: Issuer, v: VaultIssuer, conn: Conn, a: KubernetesAuth)
    ensures ReadsFirst(WithKubernetes(env, r, ns, iss, v, conn, a).log, KeyUnlessEmpty(ns, a.secretRef.name))
  {
  }

  lemma AwsReads(env: Env, ns: string, amb: bool, conn: Conn, a: AwsAuth)
    ensures ReadsFirst(WithAws(env, ns, amb, conn, a).log, None)
  {
  }

  lemma AuthReads(order: seq<Method>, env: Env, r: Reader, ns: string, amb: bool, iss: Issuer, v: VaultIssuer, conn: Conn)
    ensures ReadsFirst(Authenticate(order, env, r, ns, amb, iss, v, conn).log, AuthKey(order, ns, v))
  {
    SelectFinds(order, v.auth);
    match Select(order, v.auth)
    case Some(ClientCertificateMethod) => CertificateReads(env, r, ns, conn, v.auth.clientCertificate.value);
    case Some(KubernetesMethod) => KubernetesReads(env, r, ns, iss, v, conn, v.auth.kubernetes.value);
    case Some(AwsMethod) => AwsReads(env, ns, amb, conn, v.auth.aws.value);
    case _ =>
  }

  /** Only the answer for that one Secret matters to the login. */
  lemma AuthReadsDetermine(order: seq<Method>, env: Env, r1: Reader, r2: Reader, ns: string, amb: bool,
                           iss: Issuer, v: VaultIssuer, conn: Conn)
    requires AuthKey(order, ns, v).Some? ==>
               r1(AuthSlot, AuthKey(order, ns, v).value) == r2(AuthSlot, AuthKey(order, ns, v).value)
    ensures Authenticate(order, env, r1, ns, amb, iss, v, conn) == Authenticate(order, env, r2, ns, amb, iss, v, conn)
  {
    SelectFinds(order, v.auth);
    match Select(order, v.auth)
    case Some(KubernetesMethod) =>
      assert KubernetesJwt(env, r1, ns, iss, v, v.auth.kubernetes.value) == KubernetesJwt(env, r2, ns, iss, v, v.auth.kubernetes.value);
    case Some(ClientCertificateMethod) =>
      assert WithClientCertificate(env, r1, ns, conn, v.auth.clientCertificate.value)
          == WithClientCertificate(env, r2, ns, conn, v.auth.clientCertificate.value);
    case _ =>
  }

  /** The outcome of New depends on a reader only through the reads that New actually makes. */
  lemma ReadsDetermine(order: seq<Method>, env: Env, r1: Reader, r2: Reader, ns: string, amb: bool, iss: Issuer, v: VaultIssuer)
    requires AgreeOn(r1, r2, NewInOrder(order, env, r1, ns, amb, iss, v).log)
    ensures NewInOrder(order, env, r1, ns, amb, iss, v) == NewInOrder(order, env, r2, ns, amb, iss, v)
  {
    var cfg := NewConfig(env, r1, ns, v);
    if cfg.res.Ok? {
      var connected := Connect(order, env, r1, ns, amb, iss, v, cfg.res.value);
      AgreeOnConcat(r1, r2, cfg.log, connected.log);
      if env.newClientError(cfg.res.value).None? {
        var conn := Conn(cfg.res.value, v.namespace, env.startToken);
        AuthReads(order, env, r1, ns, amb, iss, v, conn);
        assert AuthKey(order, ns, v).Some? ==> connected.log[0].ReadSecret?;
        AuthReadsDetermine(order, env, r1, r2, ns, amb, iss, v, conn);
      }
    }
    ConfigReadsDetermine(env, r1, r2, ns, v);
  }

  ghost predicate ReadsOnly(log: seq<Effect>, ns: string, v: VaultIssuer) {
    forall e :: e in log && e.ReadSecret? ==> e.key.namespace == ns && LiveRef(v, e.key.name)
  }

  lemma ConfigReadsIndexed(env: Env, r: Reader, ns: string, v: VaultIssuer)
    ensures ReadsOnly(NewConfig(env, r, ns, v).log, ns, v)
  {
    assert ReadsOnly(CaBundle(r, ns, v).log, ns, v);
    assert ReadsOnly(ClientCertificate(env, r, ns, v).log, ns, v);
  }

  lemma AuthReadsIndexed(order: seq<Method>, env: Env, r: Reader, ns: string, amb: bool, iss: Issuer, v: VaultIssuer, conn: Conn)
    ensures ReadsOnly(Authenticate(order, env, r, ns, amb, iss, v, conn).log, ns, v)
  {
    var log, key := Authenticate(order, env, r, ns, amb, iss, v, conn).log, AuthKey(order, ns, v);
    AuthReads(order, env, r, ns, amb, iss, v, conn);
    AuthKeyIndexed(order, ns, v);
    forall e | e in log && e.ReadSecret?
      ensures e.key.namespace == ns && LiveRef(v, e.key.name)
    {
      var i :| 0 <= i < |log| && log[i] == e;
    }
  }

  lemma AuthKeyIndexed(order: seq<Method>, ns: string, v: VaultIssuer)
    ensures AuthKey(order, ns, v).Some? ==>
              AuthKey(order, ns, v).value.namespace == ns && LiveRef(v, AuthKey(order, ns, v).value.name)
  {
    SelectFinds(order, v.auth);
  }

  /** New reads no Secret but those of live references, so none that the index does not know about. */
  lemma ReadsAreIndexed(order: seq<Method>, env: Env, r: Reader, ns: string, amb: bool, iss: Issuer, v: VaultIssuer)
    ensures ReadsOnly(NewInOrder(order, env, r, ns, amb, iss, v).log, ns, v)
  {
    ConfigReadsIndexed(env, r, ns, v);
    var cfg := NewConfig(env, r, ns, v);
    if cfg.res.Ok? {
      AuthReadsIndexed(order, env, r, ns, amb, iss, v, Conn(cfg.res.value, v.namespace, env.startToken));
    }
  }

  /**
   Non-interference: readers that agree on every Secret which the index maps to the issuer lead to the same
   outcome of New, and even to the same calls in the same order.
   */
  lemma IndexIsComplete(o: Options, env: Env, r1: Reader, r2: Reader, amb: bool, iss: Issuer)
    requires iss.vault.Some?
    requires forall s, k :: Watches(o, iss, k) ==> r1(s, k) == r2(s, k)
    ensures var ns := ResourceNamespace(o, iss);
            New(env, r1, ns, amb, iss, iss.vault.value) == New(env, r2, ns, amb, iss, iss.vault.value)
  {
    var ns, v := ResourceNamespace(o, iss), iss.vault.value;
    var log := New(env, r1, ns, amb, iss, v).log;
    ReadsAreIndexed(PRECEDENCE, env, r1, ns, amb, iss, v);
    forall i | 0 <= i < |log| && log[i].ReadSecret?
      ensures r1(log[i].slot, log[i].key) == r2(log[i].slot, log[i].key)
    {
      assert log[i] in log;
      assert Watches(o, iss, log[i].key);
    }
    ReadsDetermine(PRECEDENCE, env, r1, r2, ns, amb, iss, v);
  }
}
