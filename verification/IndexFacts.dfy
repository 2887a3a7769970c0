/** The Secret index is tight, what the login requests of New carry, and what has to go right for Check to pass. */
module IndexFacts {
  import opened Wrappers
  import opened GoErrors
  import opened VaultSpec
  import opened ClientSpec
  import opened SecretWatch
  import opened IssuerCheck
  import opened ClientFacts

  // ---------------------------------------------------------------- tightness

  /** Some set of Secrets makes New read the one called `name`. */
  ghost predicate Readable(env: Env, ns: string, amb: bool, iss: Issuer, v: VaultIssuer, name: string) {
    exists store: map<ObjectKey, SecretData> :: Reads(New(env, StoreReader(store), ns, amb, iss, v).log, ObjectKey(ns, name))
  }

  ghost predicate Reads(log: seq<Effect>, k: ObjectKey) {
    exists e :: e in log && e.ReadSecret? && e.key == k
  }

  /** The libraries can succeed: `pem` is a bundle and a key pair, and clients can be made. */
  ghost predicate LibrariesCanSucceed(env: Env, v: VaultIssuer, pem: string) {
    && env.poolParses(pem)
    && (v.caBundle != "" ==> env.poolParses(v.caBundle))
    && env.keyPairError(KeyPair(pem, pem)).None?
    && (forall d :: env.newClientError(d).None?)
  }

  function RefName(ref: Option<SecretKeySelector>): set<string> {
    if ref.Some? then {ref.value.name} else {}
  }

  function RefKey(ref: Option<SecretKeySelector>): set<string> {
    if ref.Some? then {ref.value.key} else {}
  }

  function ConfigNames(v: VaultIssuer): set<string> {
    RefName(v.caBundleSecretRef) + RefName(v.clientCertSecretRef) + RefName(v.clientKeySecretRef)
  }

  function ConfigKeys(v: VaultIssuer): set<string> {
    RefKey(v.caBundleSecretRef) + RefKey(v.clientCertSecretRef) + RefKey(v.clientKeySecretRef)
    + {"ca.crt", "tls.crt", "tls.key"}
  }

  /** The Secrets of the TLS configuration, each with `pem` under every key that may be asked for. */
  function WitnessStore(ns: string, v: VaultIssuer, pem: string): map<ObjectKey, SecretData> {
    map k | k in KeysIn(ns, ConfigNames(v)) :: WitnessData(v, pem)
  }

  function KeysIn(ns: string, names: set<string>): set<ObjectKey> {
    set n | n in names :: ObjectKey(ns, n)
  }

  function WitnessData(v: VaultIssuer, pem: string): SecretData {
    map d | d in ConfigKeys(v) :: pem
  }

  lemma WitnessConfig(env: Env, ns: string, v: VaultIssuer, pem: string)
    requires LibrariesCanSucceed(env, v, pem)
    ensures var r := StoreReader(WitnessStore(ns, v, pem));
            var cfg := NewConfig(env, r, ns, v);
            && cfg.res.Ok?
            && (v.caBundle == "" && v.caBundleSecretRef.Some? ==> Reads(cfg.log, ObjectKey(ns, v.caBundleSecretRef.value.name)))
            && (v.clientCertSecretRef.Some? && v.clientKeySecretRef.Some? ==>
                  && Reads(cfg.log, ObjectKey(ns, v.clientCertSecretRef.value.name))
                  && Reads(cfg.log, ObjectKey(ns, v.clientKeySecretRef.value.name)))
  {
    var r := StoreReader(WitnessStore(ns, v, pem));
    var ca, cc := CaBundle(r, ns, v), ClientCertificate(env, r, ns, v);
    var log := NewConfig(env, r, ns, v).log;
    if v.caBundle == "" && v.caBundleSecretRef.Some? {
      var k := ObjectKey(ns, v.caBundleSecretRef.value.name);
      assert k in WitnessStore(ns, v, pem);
      assert ca.res == Ok(pem);
      assert ReadSecret(CABundleSlot, k) in ca.log;
    }
    if v.clientCertSecretRef.Some? && v.clientKeySecretRef.Some? {
      var kc, kk := ObjectKey(ns, v.clientCertSecretRef.value.name), ObjectKey(ns, v.clientKeySecretRef.value.name);
      assert kc in WitnessStore(ns, v, pem) && kk in WitnessStore(ns, v, pem);
      assert cc.res == Ok(Some(KeyPair(pem, pem)));
      assert ReadSecret(CertSlot, kc) in cc.log && ReadSecret(KeySlot, kk) in cc.log;
    }
    assert log == ca.log + cc.log;
  }

  /** For an accepted spec, the Secrets that New can be made to read are exactly those of the live references. */
  lemma ReadableIffLive(env: Env, ns: string, amb: bool, iss: Issuer, v: VaultIssuer, name: string, pem: string)
    requires ValidationError(Some(v)).None? && name != ""
    requires LibrariesCanSucceed(env, v, pem)
    ensures Readable(env, ns, amb, iss, v, name) <==> LiveRef(v, name)
  {
    if store: map<ObjectKey, SecretData> :|
      Reads(New(env, StoreReader(store), ns, amb, iss, v).log, ObjectKey(ns, name)) {
      ReadsAreIndexed(PRECEDENCE, env, StoreReader(store), ns, amb, iss, v);
    }
    if LiveRef(v, name) {
      var store := WitnessStore(ns, v, pem);
      var r := StoreReader(store);
      var cfg := NewConfig(env, r, ns, v);
      WitnessConfig(env, ns, v, pem);
      var conn := Conn(cfg.res.value, v.namespace, env.startToken);
      var auth := Authenticate(PRECEDENCE, env, r, ns, amb, iss, v, conn);
      AuthReads(PRECEDENCE, env, r, ns, amb, iss, v, conn);
      var log := New(env, r, ns, amb, iss, v).log;
      assert log == cfg.log + auth.log;
      if Reads(cfg.log, ObjectKey(ns, name)) {
        var e :| e in cfg.log && e.ReadSecret? && e.key == ObjectKey(ns, name);
        assert e in log;
      } else {
        AcceptedSelectsTheOnlyMethod(v, ns, name);
        assert auth.log[0] in log;
      }
      assert Reads(log, ObjectKey(ns, name));
    }
  }

  lemma AcceptedSelectsTheOnlyMethod(v: VaultIssuer, ns: string, name: string)
    requires ValidationError(Some(v)).None? && name != ""
    requires || RefIs(v.auth.tokenSecretRef, name)
             || (v.auth.appRole.Some? && v.auth.appRole.value.secretRef.name == name)
             || (v.auth.clientCertificate.Some? && v.auth.clientCertificate.value.secretName == name)
             || (v.auth.kubernetes.Some? && v.auth.kubernetes.value.secretRef.name == name)
    ensures AuthKey(PRECEDENCE, ns, v) == Some(ObjectKey(ns, name))
  {
    AcceptedIffUsable(v);
    SelectFinds(PRECEDENCE, v.auth);
    var m := if v.auth.tokenSecretRef.Some? then TokenMethod else if v.auth.appRole.Some? then AppRoleMethod
             else if v.auth.clientCertificate.Some? then ClientCertificateMethod else KubernetesMethod;
    OrderHasAll(PRECEDENCE, m);
    assert IsSet(v.auth, m);
    assert Select(PRECEDENCE, v.auth) == Some(m);
    forall n | n != m ensures !IsSet(v.auth, n) {}
    assert m.TokenMethod? || !IsSet(v.auth, TokenMethod);
    assert m.AppRoleMethod? || !IsSet(v.auth, AppRoleMethod);
    assert m.ClientCertificateMethod? || !IsSet(v.auth, ClientCertificateMethod);
    assert m.KubernetesMethod? || !IsSet(v.auth, KubernetesMethod);
  }

  /** Nothing in the spec is set but ignored. */
  predicate NoDeadReference(v: VaultIssuer) {
    && (v.caBundle != "" ==> v.caBundleSecretRef.None?)
    && (v.clientCertSecretRef.Some? <==> v.clientKeySecretRef.Some?)
  }

  /** The index is tight: a Secret is watched exactly when some store makes New read it. */
  lemma IndexIsTight(o: Options, env: Env, amb: bool, iss: Issuer, name: string, pem: string)
    requires iss.vault.Some? && ValidationError(iss.vault).None? && NoDeadReference(iss.vault.value) && name != ""
    requires LibrariesCanSucceed(env, iss.vault.value, pem)
    ensures var ns := ResourceNamespace(o, iss);
            Watches(o, iss, ObjectKey(ns, name)) <==> Readable(env, ns, amb, iss, iss.vault.value, name)
  {
    ReadableIffLive(env, ResourceNamespace(o, iss), amb, iss, iss.vault.value, name, pem);
  }

  // ---------------------------------------------------------------- ambient credentials

  function WithAmbient(env: Env, ambient: string -> Result<Credentials, GoError>): Env {
    env.(aws := env.aws.(ambient := ambient))
  }

  ghost predicate NoAmbient(log: seq<Effect>) {
    forall e :: e in log ==> !e.RetrieveAmbient?
  }

  lemma AwsIgnoresAmbient(env: Env, ns: string, conn: Conn, a: AwsAuth, ambient: string -> Result<Credentials, GoError>)
    ensures WithAws(env, ns, false, conn, a) == WithAws(WithAmbient(env, ambient), ns, false, conn, a)
    ensures NoAmbient(WithAws(env, ns, false, conn, a).log)
  {
    var env' := WithAmbient(env, ambient);
    if a.serviceAccountRef.Some? {
      var sa, requested := a.serviceAccountRef.value, RequestedRegion(env.aws, a);
      var id := FromIrsa(env, ns, a, sa, requested);
      assert id == FromIrsa(env', ns, a, sa, requested) && NoAmbient(id.log);
      if id.res.Ok? {
        var region := SigningRegion(requested, id.res.value.resolvedRegion);
        var login := AwsLogin(env, conn, a, id.res.value, region);
        assert login == AwsLogin(env', conn, a, id.res.value, region) && NoAmbient(login.log);
      }
    }
  }

  lemma CertificateLoginIgnoresAmbient(env: Env, r: Reader, ns: string, conn: Conn, a: ClientCertificateAuth,
                                       ambient: string -> Result<Credentials, GoError>)
    ensures WithClientCertificate(env, r, ns, conn, a) == WithClientCertificate(WithAmbient(env, ambient), r, ns, conn, a)
    ensures NoAmbient(WithClientCertificate(env, r, ns, conn, a).log)
  {
  }

  lemma KubernetesIgnoresAmbient(env: Env, r: Reader, ns: string, iss: Issuer, v: VaultIssuer, conn: Conn, a: KubernetesAuth,
                                 ambient: string -> Result<Credentials, GoError>)
    ensures WithKubernetes(env, r, ns, iss, v, conn, a) == WithKubernetes(WithAmbient(env, ambient), r, ns, iss, v, conn, a)
    ensures NoAmbient(WithKubernetes(env, r, ns, iss, v, conn, a).log)
  {
    var jwt := KubernetesJwt(env, r, ns, iss, v, a);
    assert jwt == KubernetesJwt(WithAmbient(env, ambient), r, ns, iss, v, a) && NoAmbient(jwt.log);
  }

  lemma AuthIgnoresAmbient(order: seq<Method>, env: Env, r: Reader, ns: string, iss: Issuer, v: VaultIssuer, conn: Conn,
                           ambient: string -> Result<Credentials, GoError>)
    ensures Authenticate(order, env, r, ns, false, iss, v, conn)
         == Authenticate(order, WithAmbient(env, ambient), r, ns, false, iss, v, conn)
    ensures NoAmbient(Authenticate(order, env, r, ns, false, iss, v, conn).log)
  {
    SelectFinds(order, v.auth);
    match Select(order, v.auth)
    case Some(ClientCertificateMethod) =>
      CertificateLoginIgnoresAmbient(env, r, ns, conn, v.auth.clientCertificate.value, ambient);
    case Some(KubernetesMethod) => KubernetesIgnoresAmbient(env, r, ns, iss, v, conn, v.auth.kubernetes.value, ambient);
    case Some(AwsMethod) => AwsIgnoresAmbient(env, ns, conn, v.auth.aws.value, ambient);
    case _ =>
  }

  /** Without permission, the ambient credentials are not asked for and cannot influence New in any way. */
  lemma AmbientCredentialsAreGated(order: seq<Method>, env: Env, r: Reader, ns: string, iss: Issuer, v: VaultIssuer,
                                   ambient: string -> Result<Credentials, GoError>)
    ensures NewInOrder(order, env, r, ns, false, iss, v) == NewInOrder(order, WithAmbient(env, ambient), r, ns, false, iss, v)
    ensures NoAmbient(NewInOrder(order, env, r, ns, false, iss, v).log)
  {
    ConfigReads(env, r, ns, v);
    var cfg := NewConfig(env, r, ns, v);
    assert cfg == NewConfig(WithAmbient(env, ambient), r, ns, v);
    if cfg.res.Ok? {
      AuthIgnoresAmbient(order, env, r, ns, iss, v, Conn(cfg.res.value, v.namespace, env.startToken), ambient);
    }
  }

  lemma ConfigReads(env: Env, r: Reader, ns: string, v: VaultIssuer)
    ensures forall e :: e in NewConfig(env, r, ns, v).log ==> e.ReadSecret?
  {
    assert forall e :: e in CaBundle(r, ns, v).log ==> e.ReadSecret?;
    assert forall e :: e in ClientCertificate(env, r, ns, v).log ==> e.ReadSecret?;
  }

  /**
   AWS auth without a service account on an issuer that may not use ambient credentials: the login is refused
   before anything but Secrets has been touched, whatever AWS would have answered.
   */
  lemma AmbientLoginRefused(env: Env, r: Reader, ns: string, iss: Issuer, v: VaultIssuer, aws: AwsEnv)
    requires Select(PRECEDENCE, v.auth) == Some(AwsMethod)
    requires v.auth.aws.Some? && v.auth.aws.value.serviceAccountRef.None?
    ensures var built := New(env, r, ns, false, iss, v);
            && built.res.Err?
            && (forall e :: e in built.log ==> e.ReadSecret?)
            && built == New(env.(aws := aws), r, ns, false, iss, v)
            && (NewConfig(env, r, ns, v).res.Ok? && env.newClientError(NewConfig(env, r, ns, v).res.value).None? ==>
                  built.res.error == Wrapped(AWS_FAILED, Plain(AMBIENT_REFUSED)))
  {
    ConfigReads(env, r, ns, v);
    assert NewConfig(env, r, ns, v) == NewConfig(env.(aws := aws), r, ns, v);
    forall conn: Conn
      ensures Authenticate(PRECEDENCE, env, r, ns, false, iss, v, conn)
           == Traced([], Err(Wrapped(AWS_FAILED, Plain(AMBIENT_REFUSED))))
    {
    }
  }

  // ---------------------------------------------------------------- the AWS region

  /** The AWS SDK honours an explicit region. */
  ghost predicate HonoursRegion(aws: AwsEnv) {
    forall x :: x != "" && aws.load(x).Ok? ==> aws.load(x) == Ok(x)
  }

  /**
   Every request that is signed for AWS uses a region that is not empty and, unless the configuration that gave
   the credentials has none, the region of that configuration.
   */
  lemma SigningRegionIsConsistent(env: Env, ns: string, amb: bool, conn: Conn, a: AwsAuth, e: Effect)
    requires HonoursRegion(env.aws)
    requires e in WithAws(env, ns, amb, conn, a).log && e.SignAws?
    ensures e.region != ""
    ensures var cfg := env.aws.load(RequestedRegion(env.aws, a)); cfg.Ok? && (cfg.value != "" ==> e.region == cfg.value)
    ensures forall f :: f in WithAws(env, ns, amb, conn, a).log ==>
              (f.AssumeRole? || f.RetrieveAmbient?) && f.region != "" ==> f.region == e.region
  {
    var requested := RequestedRegion(env.aws, a);
    var id := Identity(env, ns, a);
    IdentityLog(env, ns, a);
    if id.res.Ok? {
      var region := SigningRegion(requested, id.res.value.resolvedRegion);
      var login := AwsLogin(env, conn, a, id.res.value, region);
      assert forall f :: f in login.log ==> f.Write? || (f.SignAws? && f.region == region);
      assert WithAws(env, ns, amb, conn, a).log == id.log + login.log;
    }
  }

  lemma IdentityLog(env: Env, ns: string, a: AwsAuth)
    ensures var id, cfg := Identity(env, ns, a), env.aws.load(RequestedRegion(env.aws, a));
            && (forall f :: f in id.log ==> f.MintToken? || f.AssumeRole? || f.RetrieveAmbient?)
            && (forall f :: f in id.log && (f.AssumeRole? || f.RetrieveAmbient?) ==> cfg == Ok(f.region))
            && (id.res.Ok? ==> cfg == Ok(id.res.value.resolvedRegion))
  {
  }

  /** With ambient credentials and a region in the environment, the issuer's region field has no effect at all. */
  lemma IssuerRegionIsIgnored(env: Env, ns: string, amb: bool, conn: Conn, a: AwsAuth, region: string)
    requires a.serviceAccountRef.None? && env.aws.envRegion != ""
    ensures WithAws(env, ns, amb, conn, a) == WithAws(env, ns, amb, conn, a.(region := region))
  {
    var requested := RequestedRegion(env.aws, a);
    var id := FromAmbient(env, requested);
    if id.res.Ok? {
      var used := SigningRegion(requested, id.res.value.resolvedRegion);
      assert AwsLogin(env, conn, a, id.res.value, used) == AwsLogin(env, conn, a.(region := region), id.res.value, used);
    }
  }

  /** The region of the configuration that the SDK finds by itself, if it finds one. */
  function RegionFound(aws: AwsEnv): string {
    if aws.load("").Ok? && aws.load("").value != "" then aws.load("").value else "us-east-1"
  }

  /**
   Which region a login is signed for: the issuer's, unless it names none or the environment has one and the ambient
   credentials are used; else the environment's as the SDK resolves it, or us-east-1.
   */
  lemma SignedRegionIs(env: Env, ns: string, amb: bool, conn: Conn, a: AwsAuth, e: Effect)
    requires HonoursRegion(env.aws)
    requires e in WithAws(env, ns, amb, conn, a).log && e.SignAws?
    ensures var ignored := a.serviceAccountRef.None? && env.aws.envRegion != "";
            e.region == if a.region != "" && !ignored then a.region
                        else if env.aws.envRegion != "" then RegionFound(env.aws)
                        else "us-east-1"
  {
    var id := Identity(env, ns, a);
    IdentityLog(env, ns, a);
    if id.res.Ok? {
      var region := SigningRegion(RequestedRegion(env.aws, a), id.res.value.resolvedRegion);
      assert forall f :: f in AwsLogin(env, conn, a, id.res.value, region).log ==> f.Write? || (f.SignAws? && f.region == region);
    }
  }

  /** A region that the issuer names is also the one in which AWS is asked, except in the case above. */
  lemma IssuerRegionIsSigned(env: Env, ns: string, amb: bool, conn: Conn, a: AwsAuth, e: Effect)
    requires HonoursRegion(env.aws)
    requires a.region != "" && !(a.serviceAccountRef.None? && env.aws.envRegion != "")
    requires e in WithAws(env, ns, amb, conn, a).log && (e.SignAws? || e.AssumeRole? || e.RetrieveAmbient?)
    ensures e.region == a.region
  {
    IdentityLog(env, ns, a);
    if e.SignAws? {
      SignedRegionIs(env, ns, amb, conn, a, e);
    } else {
      NoIdentityInLogin(env, ns, amb, conn, a, e);
    }
  }

  lemma NoIdentityInLogin(env: Env, ns: string, amb: bool, conn: Conn, a: AwsAuth, e: Effect)
    requires e in WithAws(env, ns, amb, conn, a).log && (e.AssumeRole? || e.RetrieveAmbient?)
    ensures e in Identity(env, ns, a).log
  {
    var id := Identity(env, ns, a);
    if id.res.Ok? {
      var region := SigningRegion(RequestedRegion(env.aws, a), id.res.value.resolvedRegion);
      assert forall f :: f in AwsLogin(env, conn, a, id.res.value, region).log ==> f.Write? || f.SignAws?;
    }
  }

  // ---------------------------------------------------------------- audiences

  predicate NoSlash(s: string) {
    '/' !in s
  }

  lemma LastSlashSplits(a: string, b: string, c: string, d: string)
    requires a + "/" + b == c + "/" + d && NoSlash(b) && NoSlash(d)
    ensures a == c && b == d
  {
    var s := a + "/" + b;
    assert s[|a|] == '/' && s[|c|] == '/';
    assert forall i :: |a| < i < |s| ==> s[i] == b[i - |a| - 1];
    assert forall i :: |c| < i < |s| ==> s[i] == d[i - |c| - 1];
    assert |a| == |c|;
    assert a == s[..|a|] && c == s[..|a|];
    assert b == s[|a| + 1..] && d == s[|a| + 1..];
  }

  function AudiencePath(iss: Issuer): string {
    if iss.namespace != "" then iss.namespace + "/" + iss.name else iss.name
  }

  /** No two issuers, of either kind, share the audience that is made for them. */
  lemma DefaultAudienceIsInjective(x: Issuer, y: Issuer)
    requires WellFormed(x) && WellFormed(y) && NoSlash(x.name) && NoSlash(y.name)
    requires DefaultAudience(x) == DefaultAudience(y)
    ensures x.kind == y.kind && x.namespace == y.namespace && x.name == y.name
  {
    var p, q := AudiencePath(x), AudiencePath(y);
    assert DefaultAudience(x) == "vault://" + p && DefaultAudience(y) == "vault://" + q;
    assert p == ("vault://" + p)[8..] && q == ("vault://" + q)[8..];
    SlashIffNamespaced(x);
    SlashIffNamespaced(y);
    if x.namespace != "" {
      LastSlashSplits(x.namespace, x.name, y.namespace, y.name);
    }
  }

  lemma SlashIffNamespaced(x: Issuer)
    requires NoSlash(x.name)
    ensures '/' in AudiencePath(x) <==> x.namespace != ""
  {
    if x.namespace != "" {
      assert AudiencePath(x)[|x.namespace|] == '/';
    }
  }

  // ---------------------------------------------------------------- what a login carries

  /** The one login that does not go out through the namespaced client. */
  predicate LoginBypassesNamespace(v: VaultIssuer) {
    && Select(PRECEDENCE, v.auth) == Some(ClientCertificateMethod)
    && v.auth.clientCertificate.Some? && v.auth.clientCertificate.value.secretName != ""
  }

  /**
   Every login is sent to the issuer's server with the issuer's TLS trust. It carries the issuer's Vault
   namespace, except that a certificate login from a Secret carries the namespace of a client fresh from
   NewClient and one certificate more.
   */
  lemma LoginsAreAddressed(env: Env, r: Reader, ns: string, amb: bool, iss: Issuer, v: VaultIssuer, e: Effect)
    requires e in New(env, r, ns, amb, iss, v).log && (e.Login? || e.Write?)
    ensures NewConfig(env, r, ns, v).res.Ok?
    ensures var dial := NewConfig(env, r, ns, v).res.value;
            if LoginBypassesNamespace(v) then
              && e.conn.namespace == env.startNamespace
              && e.conn.dial == dial.(certificates := e.conn.dial.certificates)
              && |e.conn.dial.certificates| == |dial.certificates| + 1
              && e.conn.dial.certificates[..|dial.certificates|] == dial.certificates
            else e.conn == Conn(dial, v.namespace, env.startToken)
  {
    ConfigReads(env, r, ns, v);
    var cfg := NewConfig(env, r, ns, v);
    var conn := Conn(cfg.res.value, v.namespace, env.startToken);
    assert e in Authenticate(PRECEDENCE, env, r, ns, amb, iss, v, conn).log;
    AuthLogins(env, r, ns, amb, iss, v, conn, e);
  }

  lemma AuthLogins(env: Env, r: Reader, ns: string, amb: bool, iss: Issuer, v: VaultIssuer, conn: Conn, e: Effect)
    requires e in Authenticate(PRECEDENCE, env, r, ns, amb, iss, v, conn).log && (e.Login? || e.Write?)
    ensures if LoginBypassesNamespace(v) then exists pair :: e.conn == Intermediary(env, conn, pair) else e.conn == conn
  {
    SelectFinds(PRECEDENCE, v.auth);
    match Select(PRECEDENCE, v.auth)
    case Some(ClientCertificateMethod) => CertificateLogins(env, r, ns, conn, v.auth.clientCertificate.value, e);
    case Some(KubernetesMethod) => KubernetesLogins(env, r, ns, iss, v, conn, v.auth.kubernetes.value, e);
    case Some(AwsMethod) => AwsLogins(env, ns, amb, conn, v.auth.aws.value, e);
    case _ =>
  }

  lemma CertificateLogins(env: Env, r: Reader, ns: string, conn: Conn, a: ClientCertificateAuth, e: Effect)
    requires e in WithClientCertificate(env, r, ns, conn, a).log && (e.Login? || e.Write?)
    ensures if a.secretName == "" then e.conn == conn else exists pair :: e.conn == Intermediary(env, conn, pair)
  {
  }

  lemma KubernetesLogins(env: Env, r: Reader, ns: string, iss: Issuer, v: VaultIssuer, conn: Conn, a: KubernetesAuth, e: Effect)
    requires e in WithKubernetes(env, r, ns, iss, v, conn, a).log && (e.Login? || e.Write?)
    ensures e.conn == conn
  {
    var jwt := KubernetesJwt(env, r, ns, iss, v, a);
    assert forall f :: f in jwt.log ==> f.ReadSecret? || f.MintToken?;
  }

  lemma AwsLogins(env: Env, ns: string, amb: bool, conn: Conn, a: AwsAuth, e: Effect)
    requires e in WithAws(env, ns, amb, conn, a).log && (e.Login? || e.Write?)
    ensures e.conn == conn
  {
    var requested := RequestedRegion(env.aws, a);
    var id := Identity(env, ns, a);
    IdentityLog(env, ns, a);
    if id.res.Ok? {
      var region := SigningRegion(requested, id.res.value.resolvedRegion);
      assert forall f :: f in AwsLogin(env, conn, a, id.res.value, region).log ==> f.SignAws? || (f.Write? && f.conn == conn);
    }
  }

  // ---------------------------------------------------------------- where the token comes from

  /** Vault's answer to the request that the log entry records. */
  predicate Answers(env: Env, e: Effect, token: string) {
    || (e.Login? && env.login(e.conn, e.path, e.body) == Token(token))
    || (e.Write? && env.write(e.conn, e.path, e.body) == WriteToken(token))
  }

  /** The last call of the log was a login, and Vault answered with this token. */
  predicate LastAnswers(env: Env, log: seq<Effect>, token: string) {
    log != [] && Answers(env, log[|log| - 1], token)
  }

  ghost predicate NothingBeforeLogin(log: seq<Effect>) {
    forall i :: 0 <= i < |log| - 1 ==> !log[i].Login? && !log[i].Write?
  }

  /** There is a token exactly if the log ends with a login that was answered with it, and there is no other login. */
  ghost predicate EndsWithLogin(env: Env, t: Traced<string>, mayBeEmpty: bool) {
    && (forall token :: t.res == Ok(token) <==> LastAnswers(env, t.log, token) && (mayBeEmpty || token != ""))
    && NothingBeforeLogin(t.log)
  }

  lemma AppRoleTokenIsAnswer(env: Env, r: Reader, ns: string, conn: Conn, a: AppRoleAuth)
    ensures EndsWithLogin(env, WithAppRole(env, r, ns, conn, a), false)
  {
  }

  lemma CertificateTokenIsAnswer(env: Env, r: Reader, ns: string, conn: Conn, a: ClientCertificateAuth)
    ensures EndsWithLogin(env, WithClientCertificate(env, r, ns, conn, a), true)
  {
  }

  lemma KubernetesTokenIsAnswer(env: Env, r: Reader, ns: string, iss: Issuer, v: VaultIssuer, conn: Conn, a: KubernetesAuth)
    ensures EndsWithLogin(env, WithKubernetes(env, r, ns, iss, v, conn, a), true)
  {
    var jwt := KubernetesJwt(env, r, ns, iss, v, a);
    assert |jwt.log| <= 1 && forall f :: f in jwt.log ==> f.ReadSecret? || f.MintToken?;
  }

  lemma AwsTokenIsAnswer(env: Env, ns: string, amb: bool, conn: Conn, a: AwsAuth)
    ensures EndsWithLogin(env, WithAws(env, ns, amb, conn, a), true)
  {
    var id, t := Identity(env, ns, a), WithAws(env, ns, amb, conn, a);
    IdentityLog(env, ns, a);
    if id.res.Ok? && (a.serviceAccountRef.None? ==> amb) {
      var login := AwsLogin(env, conn, a, id.res.value, SigningRegion(RequestedRegion(env.aws, a), id.res.value.resolvedRegion));
      assert login.log[0].SignAws? && |login.log| <= 2;
      LoginAfter(env, id.log, login, true);
    } else {
      assert forall i :: 0 <= i < |t.log| ==> t.log[i] in id.log;
    }
  }

  /** Calls that are no logins can come first. */
  lemma LoginAfter(env: Env, before: seq<Effect>, login: Traced<string>, mayBeEmpty: bool)
    requires forall e :: e in before ==> !e.Login? && !e.Write?
    requires EndsWithLogin(env, login, mayBeEmpty)
    ensures EndsWithLogin(env, Traced(before + login.log, login.res), mayBeEmpty)
  {
    var log := before + login.log;
    forall i | 0 <= i < |log| - 1 ensures !log[i].Login? && !log[i].Write? {
      assert if i < |before| then log[i] in before else log[i] == login.log[i - |before|];
    }
    if login.log == [] && before != [] {
      assert log[|log| - 1] in before;
    }
    forall token ensures LastAnswers(env, log, token) <==> LastAnswers(env, login.log, token) {
      if login.log != [] { assert log[|log| - 1] == login.log[|login.log| - 1]; }
    }
  }

  predicate MayBeEmpty(v: VaultIssuer) {
    Select(PRECEDENCE, v.auth) != Some(AppRoleMethod)
  }

  lemma AuthTokenIsAnswer(env: Env, r: Reader, ns: string, amb: bool, iss: Issuer, v: VaultIssuer, conn: Conn)
    requires Select(PRECEDENCE, v.auth) != Some(TokenMethod)
    ensures EndsWithLogin(env, Authenticate(PRECEDENCE, env, r, ns, amb, iss, v, conn), MayBeEmpty(v))
  {
    SelectFinds(PRECEDENCE, v.auth);
    match Select(PRECEDENCE, v.auth)
    case Some(AppRoleMethod) => AppRoleTokenIsAnswer(env, r, ns, conn, v.auth.appRole.value);
    case Some(ClientCertificateMethod) => CertificateTokenIsAnswer(env, r, ns, conn, v.auth.clientCertificate.value);
    case Some(KubernetesMethod) =>
      var t := WithKubernetes(env, r, ns, iss, v, conn, v.auth.kubernetes.value);
      KubernetesTokenIsAnswer(env, r, ns, iss, v, conn, v.auth.kubernetes.value);
      AnnotateKeepsToken(KUBERNETES_FAILED, t);
    case Some(AwsMethod) =>
      var t := WithAws(env, ns, amb, conn, v.auth.aws.value);
      AwsTokenIsAnswer(env, ns, amb, conn, v.auth.aws.value);
      AnnotateKeepsToken(AWS_FAILED, t);
    case _ =>
  }

  lemma AnnotateKeepsToken(msg: string, t: Traced<string>)
    ensures Annotate(msg, t).log == t.log && forall token :: Annotate(msg, t).res == Ok(token) <==> t.res == Ok(token)
  {
  }

  /**
   Unless the token comes from a token Secret, New succeeds exactly if its last call is a login that Vault answered
   with a token, which for an AppRole must not be empty. The clients carry that token, and there was no other login.
   */
  lemma TokenIsTheAnswer(env: Env, r: Reader, ns: string, amb: bool, iss: Issuer, v: VaultIssuer)
    requires Select(PRECEDENCE, v.auth) != Some(TokenMethod)
    ensures var built := New(env, r, ns, amb, iss, v);
            && (forall token :: built.res.Ok? && built.res.value.client.token == token <==>
                  LastAnswers(env, built.log, token) && (MayBeEmpty(v) || token != ""))
            && NothingBeforeLogin(built.log)
  {
    ConfigReads(env, r, ns, v);
    var cfg, built := NewConfig(env, r, ns, v), New(env, r, ns, amb, iss, v);
    if cfg.res.Ok? && env.newClientError(cfg.res.value).None? {
      var conn := Conn(cfg.res.value, v.namespace, env.startToken);
      var auth := Authenticate(PRECEDENCE, env, r, ns, amb, iss, v, conn);
      AuthTokenIsAnswer(env, r, ns, amb, iss, v, conn);
      LoginAfter(env, cfg.log, auth, MayBeEmpty(v));
      forall token ensures built.res.Ok? && built.res.value.client.token == token <==> auth.res == Ok(token) {}
    } else {
      assert built.log == cfg.log;
      assert forall i :: 0 <= i < |cfg.log| ==> cfg.log[i] in cfg.log;
    }
  }

  /** The token Secret has a value under the key that is asked for, and the token is that value without outer space. */
  predicate TokenSecretHolds(env: Env, r: Reader, ns: string, ref: SecretKeySelector, token: string) {
    var data, key := r(AuthSlot, ObjectKey(ns, ref.name)), OrElse(ref.key, env.defaultTokenKey);
    data.Ok? && key in data.value && token == TrimSpace(data.value[key])
  }

  /** With a token Secret the clients carry what it holds, and nothing but Secrets is touched. */
  lemma TokenIsTheSecret(env: Env, r: Reader, ns: string, amb: bool, iss: Issuer, v: VaultIssuer)
    requires Select(PRECEDENCE, v.auth) == Some(TokenMethod) && v.auth.tokenSecretRef.Some?
    ensures var built, cfg := New(env, r, ns, amb, iss, v), NewConfig(env, r, ns, v).res;
            && (forall token :: built.res.Ok? && built.res.value.client.token == token <==>
                  cfg.Ok? && env.newClientError(cfg.value).None? && TokenSecretHolds(env, r, ns, v.auth.tokenSecretRef.value, token))
            && (forall e :: e in built.log ==> e.ReadSecret?)
  {
    ConfigReads(env, r, ns, v);
  }

  predicate AllSpace(s: string) {
    forall i :: 0 <= i < |s| ==> IsSpace(s[i])
  }

  /** TrimSpace cuts off space at both ends, and as much of it as there is. */
  lemma TrimSpaceCutsSpace(s: string) returns (before: string, after: string)
    ensures s == before + TrimSpace(s) + after && AllSpace(before) && AllSpace(after)
    ensures var t := TrimSpace(s); t != [] ==> !IsSpace(t[0]) && !IsSpace(t[|t| - 1])
  {
    before := TrimLeftCutsSpace(s);
    after := TrimRightCutsSpace(TrimLeft(s));
    var t := TrimSpace(s);
    if t != [] { assert t[0] == TrimLeft(s)[0]; }
  }

  lemma {:induction false} TrimLeftCutsSpace(s: string) returns (before: string)
    ensures s == before + TrimLeft(s) && AllSpace(before)
    ensures TrimLeft(s) != [] ==> !IsSpace(TrimLeft(s)[0])
  {
    before := [];
    if s != [] && IsSpace(s[0]) {
      var more := TrimLeftCutsSpace(s[1..]);
      before := [s[0]] + more;
    }
  }

  lemma {:induction false} TrimRightCutsSpace(s: string) returns (after: string)
    ensures s == TrimRight(s) + after && AllSpace(after)
    ensures TrimRight(s) != [] ==> !IsSpace(TrimRight(s)[|TrimRight(s)| - 1])
  {
    after := [];
    if s != [] && IsSpace(s[|s| - 1]) {
      var more := TrimRightCutsSpace(s[..|s| - 1]);
      after := more + [s[|s| - 1]];
    }
  }

  // ---------------------------------------------------------------- when Check passes

  /** Vault is reachable, initialized and unsealed, be it active, standby or a secondary. */
  predicate Healthy(reply: HealthReply) {
    reply.err.None? || (reply.status.Some? && reply.status.value in {429, 472, 473})
  }

  /** Where the token comes from: the token Secret, or Vault's answer to the last call that New makes. */
  ghost predicate Obtains(env: Env, r: Reader, ns: string, amb: bool, iss: Issuer, v: VaultIssuer, dial: Dial, token: string) {
    if Select(PRECEDENCE, v.auth) == Some(TokenMethod) && v.auth.tokenSecretRef.Some? then
      env.newClientError(dial).None? && TokenSecretHolds(env, r, ns, v.auth.tokenSecretRef.value, token)
    else
      LastAnswers(env, New(env, r, ns, amb, iss, v).log, token) && (MayBeEmpty(v) || token != "")
  }

  /**
   Check passes exactly for an accepted spec whose TLS settings load, for which there is a token, and whose Vault,
   asked without a namespace but with that token, is healthy.
   */
  lemma CheckPassesIff(o: Options, env: Env, r: Reader, obj: IssuerObject)
    ensures Check(o, env, r, obj).None? <==>
            && !DecidedByObject(obj)
            && var iss := obj.issuer;
               var v, ns, amb := iss.vault.value, ResourceNamespace(o, iss), CanUseAmbientCredentials(o, iss);
               exists dial, token ::
                 && NewConfig(env, r, ns, v).res == Ok(dial)
                 && Obtains(env, r, ns, amb, iss, v, dial, token)
                 && Healthy(env.health(Conn(dial, "", token)))
  {
    if !DecidedByObject(obj) {
      var iss := obj.issuer;
      var v, ns, amb := iss.vault.value, ResourceNamespace(o, iss), CanUseAmbientCredentials(o, iss);
      TokenDecides(env, r, ns, amb, iss, v);
    }
  }

  /** What a verdict has to tell about a Vault that is not healthy. */
  ghost predicate Tells(verdict: GoError, reply: HealthReply)
    requires !Healthy(reply)
  {
    if reply.status == Some(501) then Plain("Vault is not initialized") in Chain(verdict)
    else if reply.status == Some(503) then Plain("Vault is sealed") in Chain(verdict)
    else reply.err.value in Chain(verdict)
  }

  /** A verdict that is not the object's own fault tells what went wrong: the error of New, or what Vault reported. */
  lemma CheckKeepsCause(o: Options, env: Env, r: Reader, obj: IssuerObject)
    requires !DecidedByObject(obj)
    ensures var verdict, iss := Check(o, env, r, obj), obj.issuer;
            match New(env, r, ResourceNamespace(o, iss), CanUseAmbientCredentials(o, iss), iss, iss.vault.value).res
            case Err(e) => verdict.Some? && e in Chain(verdict.value)
            case Ok(clients) =>
              var reply := env.health(clients.clientSys);
              !Healthy(reply) ==> verdict.Some? && Tells(verdict.value, reply)
  {
    var verdict := Check(o, env, r, obj);
    if verdict.Some? {
      var e := verdict.value.err;
      assert Chain(verdict.value) == [verdict.value] + Chain(e);
      assert Chain(e)[0] == e;
      if e.Wrapped? {
        assert Chain(e) == [e] + Chain(e.err);
        assert Chain(e.err)[0] == e.err;
      }
    }
  }

  /** New succeeds exactly with a token, and its clients are then the settings with that token. */
  lemma TokenDecides(env: Env, r: Reader, ns: string, amb: bool, iss: Issuer, v: VaultIssuer)
    ensures forall dial, token :: NewConfig(env, r, ns, v).res == Ok(dial) ==>
              var res := New(env, r, ns, amb, iss, v).res;
              Obtains(env, r, ns, amb, iss, v, dial, token) <==>
                res == Ok(Clients(Conn(dial, v.namespace, token), Conn(dial, "", token)))
    ensures New(env, r, ns, amb, iss, v).res.Ok? ==> NewConfig(env, r, ns, v).res.Ok?
  {
    SelectFinds(PRECEDENCE, v.auth);
    if Select(PRECEDENCE, v.auth) == Some(TokenMethod) {
      TokenIsTheSecret(env, r, ns, amb, iss, v);
    } else {
      TokenIsTheAnswer(env, r, ns, amb, iss, v);
    }
    var res := New(env, r, ns, amb, iss, v).res;
    var dial := NewConfig(env, r, ns, v).res;
    assert res.Ok? ==> var token := res.value.client.token;
                       res.value == Clients(Conn(dial.value, v.namespace, token), Conn(dial.value, "", token));
  }
}
