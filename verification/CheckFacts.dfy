/** Which verdicts of Check may be latched, and why validation makes the choice of auth method unambiguous. */
module CheckFacts {
  import opened Wrappers
  import opened GoErrors
  import opened VaultSpec
  import opened ClientSpec
  import opened SecretWatch
  import opened IssuerCheck
  import opened ClientFacts

  // ---------------------------------------------------------------- errors from outside

  /** No error that the code passes on unflattened holds an error of type `t`. */
  ghost predicate OutsideFreeOf(env: Env, r: Reader, t: Target) {
    && (forall s, k :: r(s, k).Err? ==> !Has(r(s, k).error, t))
    && (forall x :: env.aws.load(x).Err? ==> !Has(env.aws.load(x).error, t))
    && (forall x :: env.aws.ambient(x).Err? ==> !Has(env.aws.ambient(x).error, t))
    && (forall x, y, z :: env.aws.assumeRole(x, y, z).Err? ==> !Has(env.aws.assumeRole(x, y, z).error, t))
    && (forall c, h, x :: env.aws.loginData(c, h, x).Err? ==> !Has(env.aws.loginData(c, h, x).error, t))
    && (forall c :: env.health(c).err.Some? ==> !Has(env.health(c).err.value, t))
  }

  lemma AwsIdentityErrorIsPlain(env: Env, r: Reader, ns: string, a: AwsAuth, t: Target)
    requires OutsideFreeOf(env, r, t)
    ensures var res := Identity(env, ns, a).res; res.Err? ==> !Has(res.error, t)
  {
    var res := Identity(env, ns, a).res;
    if res.Err? && res.error.Wrapped? { WrappedHas(res.error.msg, res.error.err, t); }
  }

  lemma AwsLoginErrorIsPlain(env: Env, r: Reader, conn: Conn, a: AwsAuth, id: AwsIdentity, region: string, t: Target)
    requires OutsideFreeOf(env, r, t)
    ensures var res := AwsLogin(env, conn, a, id, region).res; res.Err? ==> !Has(res.error, t)
  {
    var res := AwsLogin(env, conn, a, id, region).res;
    if res.Err? && res.error.Wrapped? { WrappedHas(res.error.msg, res.error.err, t); }
  }

  lemma AwsErrorIsPlain(env: Env, r: Reader, ns: string, amb: bool, conn: Conn, a: AwsAuth, t: Target)
    requires OutsideFreeOf(env, r, t)
    ensures var res := WithAws(env, ns, amb, conn, a).res; res.Err? ==> !Has(res.error, t)
  {
    AwsIdentityErrorIsPlain(env, r, ns, a, t);
    var id := Identity(env, ns, a).res;
    if id.Ok? {
      var region := SigningRegion(RequestedRegion(env.aws, a), id.value.resolvedRegion);
      AwsLoginErrorIsPlain(env, r, conn, a, id.value, region, t);
    }
  }

  lemma KubernetesErrorIsPlain(env: Env, r: Reader, ns: string, iss: Issuer, v: VaultIssuer, conn: Conn, a: KubernetesAuth, t: Target)
    requires OutsideFreeOf(env, r, t) && !t.AnyIssuerError?
    ensures var res := WithKubernetes(env, r, ns, iss, v, conn, a).res; res.Err? ==> !Has(res.error, t)
  {
    var jwt := KubernetesJwt(env, r, ns, iss, v, a);
    assert jwt.res.Err? ==> !Has(jwt.res.error, t);
  }

  lemma CertificateErrorIsPlain(env: Env, r: Reader, ns: string, conn: Conn, a: ClientCertificateAuth, t: Target)
    requires OutsideFreeOf(env, r, t) && !t.AnyIssuerError?
    ensures var res := WithClientCertificate(env, r, ns, conn, a).res; res.Err? ==> !Has(res.error, t)
  {
  }

  lemma WrappedHas(msg: string, e: GoError, t: Target)
    ensures Has(Wrapped(msg, e), t) <==> Has(e, t)
  {
  }

  lemma ConfigErrorIsPlain(env: Env, r: Reader, ns: string, v: VaultIssuer, t: Target)
    ensures var res := NewConfig(env, r, ns, v).res; res.Err? ==> !Has(res.error, t)
  {
    var ca := CaBundle(r, ns, v).res;
    var cc := ClientCertificate(env, r, ns, v).res;
    if ca.Err? {
      assert !Has(ca.error, t);
      WrappedHas(CA_FAILED, ca.error, t);
    } else if cc.Err? {
      assert !Has(cc.error, t);
      WrappedHas(CERTIFICATE_FAILED, cc.error, t);
    }
  }

  lemma AnnotateHas(msg: string, token: Traced<string>, t: Target)
    ensures var res := Annotate(msg, token).res; res.Err? ==> token.res.Err? && (Has(res.error, t) <==> Has(token.res.error, t))
  {
    if token.res.Err? { WrappedHas(msg, token.res.error, t); }
  }

  lemma AuthErrorIsPlain(m: Option<Method>, env: Env, r: Reader, ns: string, amb: bool, iss: Issuer, v: VaultIssuer, conn: Conn, t: Target)
    requires OutsideFreeOf(env, r, t) && !t.AnyIssuerError?
    requires m.Some? ==> IsSet(v.auth, m.value)
    ensures var res := AuthenticateBy(m, env, r, ns, amb, iss, v, conn).res;
            res.Err? && Has(res.error, t) ==> t.AnyInvalidData? && m.None?
  {
    match m
    case Some(ClientCertificateMethod) => CertificateErrorIsPlain(env, r, ns, conn, v.auth.clientCertificate.value, t);
    case Some(KubernetesMethod) =>
      KubernetesErrorIsPlain(env, r, ns, iss, v, conn, v.auth.kubernetes.value, t);
      AnnotateHas(KUBERNETES_FAILED,
                  WithKubernetes(env, r, ns, iss, v, conn, v.auth.kubernetes.value), t);
    case Some(AwsMethod) =>
      AwsErrorIsPlain(env, r, ns, amb, conn, v.auth.aws.value, t);
      AnnotateHas(AWS_FAILED, WithAws(env, ns, amb, conn, v.auth.aws.value), t);
    case _ =>
  }

  /**
   Whatever goes wrong in New, the error holds no PermanentError and no ResponseError, and it holds an
   invalid-data error only when the spec names no auth method.
   */
  lemma NewErrorIsPlain(env: Env, r: Reader, ns: string, amb: bool, iss: Issuer, v: VaultIssuer, t: Target)
    requires OutsideFreeOf(env, r, t) && !t.AnyIssuerError?
    ensures var res := New(env, r, ns, amb, iss, v).res;
            res.Err? && Has(res.error, t) ==> t.AnyInvalidData? && Select(PRECEDENCE, v.auth).None?
  {
    ConfigErrorIsPlain(env, r, ns, v, t);
    var cfg := NewConfig(env, r, ns, v);
    if cfg.res.Ok? {
      SelectFinds(PRECEDENCE, v.auth);
      AuthErrorIsPlain(Select(PRECEDENCE, v.auth), env, r, ns, amb, iss, v, Conn(cfg.res.value, v.namespace, env.startToken), t);
    }
  }

  lemma HealthErrorIsPlain(env: Env, r: Reader, sys: Conn, t: Target)
    requires OutsideFreeOf(env, r, t)
    ensures var e := HealthError(env, sys); e.Some? ==> !Has(e.value, t)
  {
    var e := env.health(sys).err;
    if e.Some? { WrappedHas("error calling Vault", e.value, t); }
  }

  // ---------------------------------------------------------------- permanent verdicts

  /** Check answers permanently exactly when it never looked outside the issuer. */
  lemma PermanentIffDecidedByObject(o: Options, env: Env, r: Reader, obj: IssuerObject)
    requires OutsideFreeOf(env, r, AnyPermanent)
    ensures IsPermanent(Check(o, env, r, obj)) <==> DecidedByObject(obj)
  {
    if !DecidedByObject(obj) {
      var iss := obj.issuer;
      var ns, amb := ResourceNamespace(o, iss), CanUseAmbientCredentials(o, iss);
      NewErrorIsPlain(env, r, ns, amb, iss, iss.vault.value, AnyPermanent);
      var res := New(env, r, ns, amb, iss, iss.vault.value).res;
      match res {
        case Err(e) => WrappedHas(CLIENT_INIT_FAILED, e, AnyPermanent);
        case Ok(clients) =>
          HealthErrorIsPlain(env, r, clients.clientSys, AnyPermanent);
          var e := HealthError(env, clients.clientSys);
          if e.Some? { WrappedHas(NOT_VERIFIED, e.value, AnyPermanent); }
      }
    }
  }

  /** A permanent verdict is the same whatever the options, the Secrets, Vault and the environment become. */
  lemma PermanentVerdictsNeverExpire(o: Options, env: Env, r: Reader, o': Options, env': Env, r': Reader, obj: IssuerObject)
    requires OutsideFreeOf(env, r, AnyPermanent)
    requires IsPermanent(Check(o, env, r, obj))
    ensures Check(o', env', r', obj) == Check(o, env, r, obj)
  {
    PermanentIffDecidedByObject(o, env, r, obj);
  }

  /** Check only depends on the Secrets that the index maps to the issuer. */
  lemma CheckIsIndexed(o: Options, env: Env, r1: Reader, r2: Reader, iss: Issuer, unwraps: bool)
    requires forall s, k :: Watches(o, iss, k) ==> r1(s, k) == r2(s, k)
    ensures Check(o, env, r1, InTree(iss, unwraps)) == Check(o, env, r2, InTree(iss, unwraps))
  {
    if iss.vault.Some? {
      IndexIsComplete(o, env, r1, r2, CanUseAmbientCredentials(o, iss), iss);
    }
  }

  // ---------------------------------------------------------------- the index as the controller computes it

  /** Whatever set of issuers there is, List can return its part for one Secret. */
  lemma {:induction false} ListingExists(all: set<Issuer>, kind: Kind, secret: ObjectKey) returns (items: seq<Issuer>)
    ensures IsListing(items, all, kind, secret)
  {
    items := [];
    if all != {} {
      var x :| x in all;
      items := ListingExists(all - {x}, kind, secret);
      if x.kind == kind && (kind.IssuerKind? ==> x.namespace == secret.namespace) {
        items := [x] + items;
      }
    }
  }

  /** Some answer of the map function to an event on this Secret requests the issuer. */
  ghost predicate IsRequested(o: Options, all: set<Issuer>, iss: Issuer, k: ObjectKey) {
    exists items :: IsListing(items, all, iss.kind, k) && Request(iss.namespace, iss.name) in RequestsFor(o, iss.kind, k, Ok(items))
  }

  /**
   The promise of the Secret watch: two sets of Secrets that differ only in Secrets for which issuersForSecret does
   not request the issuer give the same verdict, and the same clients or error, down to the calls made.
   */
  lemma UnrequestedSecretsDoNotMatter(o: Options, env: Env, all: set<Issuer>, iss: Issuer, unwraps: bool,
                                      s1: map<ObjectKey, SecretData>, s2: map<ObjectKey, SecretData>)
    requires ValidIssuers(all) && iss in all
    requires forall k: ObjectKey :: k in s1 || k in s2 ==> k.namespace != ""
    requires forall k: ObjectKey :: k.namespace != "" && IsRequested(o, all, iss, k) ==> StoreReader(s1)(AuthSlot, k) == StoreReader(s2)(AuthSlot, k)
    ensures Check(o, env, StoreReader(s1), InTree(iss, unwraps)) == Check(o, env, StoreReader(s2), InTree(iss, unwraps))
    ensures iss.vault.Some? ==>
              var ns, amb := ResourceNamespace(o, iss), CanUseAmbientCredentials(o, iss);
              New(env, StoreReader(s1), ns, amb, iss, iss.vault.value) == New(env, StoreReader(s2), ns, amb, iss, iss.vault.value)
  {
    forall s: Slot, k | Watches(o, iss, k) ensures StoreReader(s1)(s, k) == StoreReader(s2)(s, k) {
      if k.namespace != "" {
        var items := ListingExists(all, iss.kind, k);
        IndexIsWatches(o, all, iss, k, items);
        assert IsRequested(o, all, iss, k);
        assert StoreReader(s1)(AuthSlot, k) == StoreReader(s2)(AuthSlot, k);
        assert StoreReader(s1)(s, k) == StoreReader(s1)(AuthSlot, k);
      }
    }
    CheckIsIndexed(o, env, StoreReader(s1), StoreReader(s2), iss, unwraps);
    if iss.vault.Some? {
      IndexIsComplete(o, env, StoreReader(s1), StoreReader(s2), CanUseAmbientCredentials(o, iss), iss);
    }
  }

  // ---------------------------------------------------------------- order of the auth branches

  lemma AcceptedSelects(order: seq<Method>, v: VaultIssuer)
    requires ValidationError(Some(v)).None? && IsOrder(order)
    ensures Select(order, v.auth).Some? && Select(order, v.auth) == Select(PRECEDENCE, v.auth)
  {
    AcceptedIffUsable(v);
    OrderIrrelevantIff(v.auth);
    var m :| IsSet(v.auth, m);
    OrderHasAll(order, m);
    SelectFinds(order, v.auth);
  }

  /** For an accepted spec every order of the five branches gives the same clients, errors and calls. */
  lemma BranchOrderIsIrrelevant(order: seq<Method>, env: Env, r: Reader, ns: string, amb: bool, iss: Issuer, v: VaultIssuer)
    requires ValidationError(Some(v)).None? && IsOrder(order)
    ensures NewInOrder(order, env, r, ns, amb, iss, v) == New(env, r, ns, amb, iss, v)
  {
    AcceptedSelects(order, v);
    forall conn ensures Authenticate(order, env, r, ns, amb, iss, v, conn) == Authenticate(PRECEDENCE, env, r, ns, amb, iss, v, conn) {
    }
  }

  /** An accepted spec never reaches the invalid-data fallthrough. */
  lemma NoInvalidDataForAcceptedSpec(env: Env, r: Reader, ns: string, amb: bool, iss: Issuer, v: VaultIssuer)
    requires ValidationError(Some(v)).None?
    requires OutsideFreeOf(env, r, AnyInvalidData)
    ensures var res := New(env, r, ns, amb, iss, v).res; res.Err? ==> !Has(res.error, AnyInvalidData)
  {
    NewErrorIsPlain(env, r, ns, amb, iss, v, AnyInvalidData);
    AcceptedSelects(PRECEDENCE, v);
  }

  /** What New answers when the login takes the default branch of its switch. */
  const MISTAKE: GoError := Wrapped(KUBERNETES_FAILED, Plain(PROGRAMMER_MISTAKE))

  lemma KubernetesMistakeIff(env: Env, r: Reader, ns: string, iss: Issuer, v: VaultIssuer, conn: Conn, a: KubernetesAuth)
    requires forall s, k :: r(s, k) != Err(Plain(PROGRAMMER_MISTAKE))
    ensures (WithKubernetes(env, r, ns, iss, v, conn, a).res == Err(Plain(PROGRAMMER_MISTAKE))) <==>
            (a.secretRef.name == "" && a.serviceAccountRef.None?)
  {
    assert |NO_DATA| != |PROGRAMMER_MISTAKE|;
  }

  lemma AuthMistakeIff(m: Option<Method>, env: Env, r: Reader, ns: string, amb: bool, iss: Issuer, v: VaultIssuer, conn: Conn)
    requires forall s, k :: r(s, k) != Err(Plain(PROGRAMMER_MISTAKE)) && r(s, k) != Err(MISTAKE)
    requires m.Some? ==> IsSet(v.auth, m.value)
    ensures AuthenticateBy(m, env, r, ns, amb, iss, v, conn).res == Err(MISTAKE) <==>
            && m == Some(KubernetesMethod)
            && v.auth.kubernetes.value.secretRef.name == "" && v.auth.kubernetes.value.serviceAccountRef.None?
  {
    assert |AWS_FAILED| != |KUBERNETES_FAILED|;
    if m == Some(KubernetesMethod) {
      KubernetesMistakeIff(env, r, ns, iss, v, conn, v.auth.kubernetes.value);
    }
  }

  /**
   The default branch of the Kubernetes login is what New fails with exactly when the login is reached with neither
   source of a JWT named, which validation rules out.
   */
  lemma ProgrammerMistakeIff(env: Env, r: Reader, ns: string, amb: bool, iss: Issuer, v: VaultIssuer)
    requires forall s, k :: r(s, k) != Err(Plain(PROGRAMMER_MISTAKE)) && r(s, k) != Err(MISTAKE)
    ensures New(env, r, ns, amb, iss, v).res == Err(MISTAKE) <==>
            && NewConfig(env, r, ns, v).res.Ok? && env.newClientError(NewConfig(env, r, ns, v).res.value).None?
            && Select(PRECEDENCE, v.auth) == Some(KubernetesMethod)
            && v.auth.kubernetes.Some?
            && v.auth.kubernetes.value.secretRef.name == "" && v.auth.kubernetes.value.serviceAccountRef.None?
    ensures ValidationError(Some(v)).None? ==> New(env, r, ns, amb, iss, v).res != Err(MISTAKE)
  {
    ConfigIsNoMistake(env, r, ns, v);
    SelectFinds(PRECEDENCE, v.auth);
    var cfg := NewConfig(env, r, ns, v).res;
    if cfg.Ok? {
      AuthMistakeIff(Select(PRECEDENCE, v.auth), env, r, ns, amb, iss, v, Conn(cfg.value, v.namespace, env.startToken));
    }
    AcceptedIffUsable(v);
  }

  lemma ConfigIsNoMistake(env: Env, r: Reader, ns: string, v: VaultIssuer)
    ensures NewConfig(env, r, ns, v).res != Err(MISTAKE)
  {
    assert |CA_FAILED| != |KUBERNETES_FAILED| && |CERTIFICATE_FAILED| != |KUBERNETES_FAILED|;
  }
}
