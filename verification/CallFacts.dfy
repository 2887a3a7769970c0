/** What New sends and to whom, call by call, and which settings its clients have: all in terms of the spec and the Secrets. */
module CallFacts {
  import opened Wrappers
  import opened GoErrors
  import opened VaultSpec
  import opened ClientSpec
  import opened SecretWatch
  import opened IndexFacts

  /** What a Secret holds under a key, as the reader sees it at that place. */
  function SecretValue(r: Reader, slot: Slot, ns: string, name: string, key: string): Option<string> {
    var data := r(slot, ObjectKey(ns, name));
    if data.Ok? && key in data.value then Some(data.value[key]) else None
  }

  // ---------------------------------------------------------------- the TLS settings

  /** The roots are the inline bundle or, without one, the Secret's; an empty bundle means those of the system. */
  predicate Trusts(env: Env, r: Reader, ns: string, v: VaultIssuer, rootCAs: Option<string>) {
    if v.caBundle == "" && v.caBundleSecretRef.None? then rootCAs == None else
    var ref := v.caBundleSecretRef;
    var bundle := if v.caBundle != "" then Some(v.caBundle)
                  else SecretValue(r, CABundleSlot, ns, ref.value.name, if ref.value.key == "" then "ca.crt" else ref.value.key);
    bundle.Some? && if bundle.value == "" then rootCAs == None else rootCAs == bundle && env.poolParses(bundle.value)
  }

  /** The certificate comes from the one Secret and its key from the other; with half of the pair named there is none. */
  predicate Presents(env: Env, r: Reader, ns: string, v: VaultIssuer, certificates: seq<KeyPair>) {
    if v.clientCertSecretRef.None? || v.clientKeySecretRef.None? then certificates == [] else
    var c, k := v.clientCertSecretRef.value, v.clientKeySecretRef.value;
    && |certificates| == 1
    && SecretValue(r, CertSlot, ns, c.name, if c.key == "" then "tls.crt" else c.key) == Some(certificates[0].cert)
    && SecretValue(r, KeySlot, ns, k.name, if k.key == "" then "tls.key" else k.key) == Some(certificates[0].key)
    && env.keyPairError(certificates[0]).None?
  }

  /** newConfig succeeds exactly with the settings that the spec and its Secrets ask for. */
  lemma SettingsAreAsAsked(env: Env, r: Reader, ns: string, v: VaultIssuer, d: Dial)
    ensures NewConfig(env, r, ns, v).res == Ok(d) <==>
            && d.address == v.server && d.serverName == v.serverName
            && Trusts(env, r, ns, v, d.rootCAs) && Presents(env, r, ns, v, d.certificates)
  {
    BundleIsTrusted(env, r, ns, v, d.rootCAs);
    PairIsPresented(env, r, ns, v, d.certificates);
  }

  lemma BundleIsTrusted(env: Env, r: Reader, ns: string, v: VaultIssuer, rootCAs: Option<string>)
    ensures var ca := CaBundle(r, ns, v).res;
            Trusts(env, r, ns, v, rootCAs) <==>
            && ca.Ok? && (ca.value != "" ==> env.poolParses(ca.value))
            && rootCAs == if ca.value != "" then Some(ca.value) else None
  {
  }

  lemma PairIsPresented(env: Env, r: Reader, ns: string, v: VaultIssuer, certificates: seq<KeyPair>)
    ensures var pair := ClientCertificate(env, r, ns, v).res;
            Presents(env, r, ns, v, certificates) <==>
            pair.Ok? && certificates == if pair.value.Some? then [pair.value.value] else []
  {
  }

  /**
   New succeeds exactly with settings and a token, and then with these two clients: both use the settings and carry
   the token, one works in the issuer's Vault namespace and the other in none.
   */
  lemma NewSucceedsIff(env: Env, r: Reader, ns: string, amb: bool, iss: Issuer, v: VaultIssuer, clients: Clients)
    ensures New(env, r, ns, amb, iss, v).res == Ok(clients) <==>
            var d, token := clients.client.dial, clients.client.token;
            && d.address == v.server && d.serverName == v.serverName
            && Trusts(env, r, ns, v, d.rootCAs) && Presents(env, r, ns, v, d.certificates)
            && Obtains(env, r, ns, amb, iss, v, d, token)
            && clients == Clients(Conn(d, v.namespace, token), Conn(d, "", token))
  {
    SettingsAreAsAsked(env, r, ns, v, clients.client.dial);
    TokenDecides(env, r, ns, amb, iss, v);
  }

  // ---------------------------------------------------------------- one call of each login

  predicate IsTokenCall(ns: string, ref: SecretKeySelector, e: Effect) {
    e == ReadSecret(AuthSlot, ObjectKey(ns, ref.name))
  }

  predicate IsAppRoleCall(env: Env, r: Reader, ns: string, conn: Conn, a: AppRoleAuth, e: Effect) {
    match e
    case ReadSecret(slot, k) => slot == AuthSlot && k == ObjectKey(ns, a.secretRef.name)
    case Login(c, path, body) =>
      var secret := SecretValue(r, AuthSlot, ns, a.secretRef.name, a.secretRef.key);
      && c == conn && path == env.joinPath(["/v1", "auth", if a.path == "" then "approle" else a.path, "login"])
      && body.Keys == {"role_id", "secret_id"} && body["role_id"] == TrimSpace(a.roleId)
      && secret.Some? && body["secret_id"] == TrimSpace(secret.value)
    case _ => false
  }

  /** With a Secret, the login goes out over a client of its own that presents the Secret's certificate as well. */
  predicate IsCertificateConn(env: Env, r: Reader, ns: string, conn: Conn, a: ClientCertificateAuth, c: Conn) {
    if a.secretName == "" then c == conn else
    var cert := SecretValue(r, AuthSlot, ns, a.secretName, "tls.crt");
    var key := SecretValue(r, AuthSlot, ns, a.secretName, "tls.key");
    && cert.Some? && key.Some? && env.keyPairError(KeyPair(cert.value, key.value)).None?
    && c.dial == conn.dial.(certificates := conn.dial.certificates + [KeyPair(cert.value, key.value)])
    && c.namespace == env.startNamespace && c.token == env.startToken
  }

  predicate IsCertificateCall(env: Env, r: Reader, ns: string, conn: Conn, a: ClientCertificateAuth, e: Effect) {
    match e
    case ReadSecret(slot, k) => a.secretName != "" && slot == AuthSlot && k == ObjectKey(ns, a.secretName)
    case Login(c, path, body) =>
      && IsCertificateConn(env, r, ns, conn, a, c)
      && path == env.joinPath([if a.path == "" then env.defaultCertificateMount else a.path, "login"])
      && body.Keys == {"name"} && body["name"] == a.name
    case _ => false
  }

  /** The user's audiences in their order, then the one made for the issuer, then the server. */
  predicate AreVaultAudiences(audiences: seq<string>, iss: Issuer, v: VaultIssuer, sa: ServiceAccountRef) {
    var n := |sa.tokenAudiences|;
    && |audiences| == n + 2 && audiences[..n] == sa.tokenAudiences && audiences[n + 1] == v.server
    && audiences[n] == if iss.namespace == "" then "vault://" + iss.name else "vault://" + iss.namespace + "/" + iss.name
  }

  /** The JWT is the Secret's value as it is or, without a Secret, a token minted for the service account. */
  ghost predicate IsJwt(env: Env, r: Reader, ns: string, iss: Issuer, v: VaultIssuer, a: KubernetesAuth, jwt: string) {
    if a.secretRef.name != "" then
      SecretValue(r, AuthSlot, ns, a.secretRef.name, if a.secretRef.key == "" then env.defaultTokenKey else a.secretRef.key)
        == Some(jwt)
    else
      && a.serviceAccountRef.Some?
      && exists audiences :: AreVaultAudiences(audiences, iss, v, a.serviceAccountRef.value)
                             && env.mintToken(ObjectKey(ns, a.serviceAccountRef.value.name), audiences) == Ok(jwt)
  }

  ghost predicate IsKubernetesCall(env: Env, r: Reader, ns: string, iss: Issuer, v: VaultIssuer, conn: Conn, a: KubernetesAuth, e: Effect) {
    match e
    case ReadSecret(slot, k) => a.secretRef.name != "" && slot == AuthSlot && k == ObjectKey(ns, a.secretRef.name)
    case MintToken(account, audiences) =>
      && a.secretRef.name == "" && a.serviceAccountRef.Some?
      && account == ObjectKey(ns, a.serviceAccountRef.value.name)
      && AreVaultAudiences(audiences, iss, v, a.serviceAccountRef.value)
    case Login(c, path, body) =>
      && c == conn && path == env.joinPath([if a.path == "" then env.defaultKubernetesMount else a.path, "login"])
      && body.Keys == {"role", "jwt"} && body["role"] == a.role && IsJwt(env, r, ns, iss, v, a, body["jwt"])
    case _ => false
  }

  predicate AreStsAudiences(audiences: seq<string>, sa: ServiceAccountRef) {
    |audiences| > 0 && audiences[0] == "sts.amazonaws.com" && audiences[1..] == sa.tokenAudiences
  }

  /** The service account's token, asked for with the audience of STS first. */
  ghost predicate IsIrsaJwt(env: Env, ns: string, sa: ServiceAccountRef, jwt: string) {
    exists audiences :: AreStsAudiences(audiences, sa) && env.mintToken(ObjectKey(ns, sa.name), audiences) == Ok(jwt)
  }

  /** The credentials are what AWS gave for the role and that token or, without a service account, the ambient ones. */
  ghost predicate AreCredentials(env: Env, ns: string, amb: bool, a: AwsAuth, c: Credentials) {
    match a.serviceAccountRef
    case Some(sa) =>
      exists region, jwt :: IsIrsaJwt(env, ns, sa, jwt) && env.aws.assumeRole(region, a.iamRoleArn, jwt) == Ok(c)
    case None => amb && exists region :: env.aws.ambient(region) == Ok(c)
  }

  ghost predicate IsAwsCall(env: Env, ns: string, amb: bool, conn: Conn, a: AwsAuth, log: seq<Effect>, e: Effect) {
    match e
    case MintToken(account, audiences) =>
      && a.serviceAccountRef.Some? && account == ObjectKey(ns, a.serviceAccountRef.value.name)
      && AreStsAudiences(audiences, a.serviceAccountRef.value)
    case AssumeRole(_, arn, jwt) =>
      a.serviceAccountRef.Some? && arn == a.iamRoleArn && IsIrsaJwt(env, ns, a.serviceAccountRef.value, jwt)
    case RetrieveAmbient(_) => a.serviceAccountRef.None? && amb
    case SignAws(c, header, _) => header == a.vaultHeaderValue && AreCredentials(env, ns, amb, a, c)
    case Write(c, path, body) =>
      && c == conn && path == env.joinPath([if a.mountPath == "" then "/v1/auth/aws" else a.mountPath, "login"])
      && "role" in body && body["role"] == a.role
      && exists f :: f in log && f.SignAws? && SignedAs(env, f, body)
    case _ => false
  }

  /** Besides the role, the body is what the signing of that request gave. */
  predicate SignedAs(env: Env, f: Effect, body: map<string, string>)
    requires f.SignAws?
  {
    var data := env.aws.loginData(f.credentials, f.header, f.region);
    data.Ok? && body - {"role"} == data.value - {"role"}
  }

  // ---------------------------------------------------------------- all calls of New

  predicate IsConfigRead(ns: string, v: VaultIssuer, e: Effect) {
    || (v.caBundle == "" && v.caBundleSecretRef.Some?
        && e == ReadSecret(CABundleSlot, ObjectKey(ns, v.caBundleSecretRef.value.name)))
    || (v.clientCertSecretRef.Some? && v.clientKeySecretRef.Some?
        && (|| e == ReadSecret(CertSlot, ObjectKey(ns, v.clientCertSecretRef.value.name))
            || e == ReadSecret(KeySlot, ObjectKey(ns, v.clientKeySecretRef.value.name))))
  }

  ghost predicate IsLoginCall(env: Env, r: Reader, ns: string, amb: bool, iss: Issuer, v: VaultIssuer, conn: Conn, log: seq<Effect>, e: Effect) {
    if v.auth.tokenSecretRef.Some? then IsTokenCall(ns, v.auth.tokenSecretRef.value, e)
    else if v.auth.appRole.Some? then IsAppRoleCall(env, r, ns, conn, v.auth.appRole.value, e)
    else if v.auth.clientCertificate.Some? then IsCertificateCall(env, r, ns, conn, v.auth.clientCertificate.value, e)
    else if v.auth.kubernetes.Some? then IsKubernetesCall(env, r, ns, iss, v, conn, v.auth.kubernetes.value, e)
    else v.auth.aws.Some? && IsAwsCall(env, ns, amb, conn, v.auth.aws.value, log, e)
  }

  lemma AppRoleCalls(env: Env, r: Reader, ns: string, conn: Conn, a: AppRoleAuth, e: Effect)
    requires e in WithAppRole(env, r, ns, conn, a).log
    ensures IsAppRoleCall(env, r, ns, conn, a, e)
  {
  }

  lemma CertificateCalls(env: Env, r: Reader, ns: string, conn: Conn, a: ClientCertificateAuth, e: Effect)
    requires e in WithClientCertificate(env, r, ns, conn, a).log
    ensures IsCertificateCall(env, r, ns, conn, a, e)
  {
  }

  lemma VaultAudiences(iss: Issuer, v: VaultIssuer, sa: ServiceAccountRef)
    ensures AreVaultAudiences(KubernetesAudiences(iss, v.server, sa.tokenAudiences), iss, v, sa)
  {
  }

  lemma KubernetesCalls(env: Env, r: Reader, ns: string, iss: Issuer, v: VaultIssuer, conn: Conn, a: KubernetesAuth, e: Effect)
    requires e in WithKubernetes(env, r, ns, iss, v, conn, a).log
    ensures IsKubernetesCall(env, r, ns, iss, v, conn, a, e)
  {
    if a.serviceAccountRef.Some? { VaultAudiences(iss, v, a.serviceAccountRef.value); }
    var jwt := KubernetesJwt(env, r, ns, iss, v, a);
    assert forall f :: f in jwt.log ==> f.ReadSecret? || f.MintToken?;
    assert jwt.res.Ok? ==> IsJwt(env, r, ns, iss, v, a, jwt.res.value);
  }

  /** The identity half of the AWS login. */
  lemma IdentityCalls(env: Env, ns: string, amb: bool, conn: Conn, a: AwsAuth, log: seq<Effect>)
    requires a.serviceAccountRef.None? ==> amb
    ensures var id := Identity(env, ns, a);
            && (forall e :: e in id.log ==> IsAwsCall(env, ns, amb, conn, a, log, e))
            && (id.res.Ok? ==> AreCredentials(env, ns, amb, a, id.res.value.credentials))
  {
    match a.serviceAccountRef
    case None =>
    case Some(sa) =>
      assert AreStsAudiences(IrsaAudiences(sa), sa);
      var jwt := env.mintToken(ObjectKey(ns, sa.name), IrsaAudiences(sa));
      assert jwt.Ok? ==> IsIrsaJwt(env, ns, sa, jwt.value);
  }

  lemma AwsCalls(env: Env, ns: string, amb: bool, conn: Conn, a: AwsAuth, log: seq<Effect>, e: Effect)
    requires e in WithAws(env, ns, amb, conn, a).log && forall f :: f in WithAws(env, ns, amb, conn, a).log ==> f in log
    ensures IsAwsCall(env, ns, amb, conn, a, log, e)
  {
    IdentityCalls(env, ns, amb, conn, a, log);
    var id := Identity(env, ns, a);
    if id.res.Ok? {
      var region := SigningRegion(RequestedRegion(env.aws, a), id.res.value.resolvedRegion);
      var login := AwsLogin(env, conn, a, id.res.value, region);
      assert login.log[0] in WithAws(env, ns, amb, conn, a).log;
      if e in login.log && e.Write? {
        assert SignedAs(env, login.log[0], e.body);
      }
    }
  }

  lemma LoginCalls(env: Env, r: Reader, ns: string, amb: bool, iss: Issuer, v: VaultIssuer, conn: Conn, log: seq<Effect>, e: Effect)
    requires var login := Authenticate(PRECEDENCE, env, r, ns, amb, iss, v, conn).log;
             e in login && forall f :: f in login ==> f in log
    ensures IsLoginCall(env, r, ns, amb, iss, v, conn, log, e)
  {
    SelectIsFirst(v.auth);
    match Select(PRECEDENCE, v.auth)
    case Some(AppRoleMethod) => AppRoleCalls(env, r, ns, conn, v.auth.appRole.value, e);
    case Some(ClientCertificateMethod) => CertificateCalls(env, r, ns, conn, v.auth.clientCertificate.value, e);
    case Some(KubernetesMethod) => KubernetesCalls(env, r, ns, iss, v, conn, v.auth.kubernetes.value, e);
    case Some(AwsMethod) => AwsCalls(env, ns, amb, conn, v.auth.aws.value, log, e);
    case _ =>
  }

  lemma ConfigCalls(env: Env, r: Reader, ns: string, v: VaultIssuer, e: Effect)
    requires e in NewConfig(env, r, ns, v).log
    ensures IsConfigRead(ns, v, e)
  {
    assert forall f :: f in CaBundle(r, ns, v).log ==> IsConfigRead(ns, v, f);
    assert forall f :: f in ClientCertificate(env, r, ns, v).log ==> IsConfigRead(ns, v, f);
  }

  /**
   Everything that New does outside: it reads the Secrets of its TLS settings, and then makes the calls of the one
   login that comes first, with these addressees, paths, bodies, audiences and credentials and no others.
   */
  lemma CallsAreAsAsked(env: Env, r: Reader, ns: string, amb: bool, iss: Issuer, v: VaultIssuer, e: Effect)
    requires e in New(env, r, ns, amb, iss, v).log
    ensures var cfg := NewConfig(env, r, ns, v).res;
            || IsConfigRead(ns, v, e)
            || (cfg.Ok? && IsLoginCall(env, r, ns, amb, iss, v, Conn(cfg.value, v.namespace, env.startToken),
                                       New(env, r, ns, amb, iss, v).log, e))
  {
    var cfg, log := NewConfig(env, r, ns, v), New(env, r, ns, amb, iss, v).log;
    if e in cfg.log {
      ConfigCalls(env, r, ns, v, e);
    } else {
      LoginCalls(env, r, ns, amb, iss, v, Conn(cfg.res.value, v.namespace, env.startToken), log, e);
    }
  }

  // ---------------------------------------------------------------- whether a login is made at all

  ghost predicate LogsIn(log: seq<Effect>) {
    exists e :: e in log && (e.Login? || e.Write?)
  }

  /** The Secret's certificate is there, parses, and a client can be made that presents it. */
  predicate CanPresent(env: Env, r: Reader, ns: string, conn: Conn, a: ClientCertificateAuth) {
    var cert, key := SecretValue(r, AuthSlot, ns, a.secretName, "tls.crt"), SecretValue(r, AuthSlot, ns, a.secretName, "tls.key");
    && cert.Some? && key.Some?
    && var pair := KeyPair(cert.value, key.value);
       && env.keyPairError(pair).None?
       && env.newClientError(conn.dial.(certificates := conn.dial.certificates + [pair])).None?
  }

  /** These credentials are given in the region of the configuration that is loaded for the requested one. */
  ghost predicate IsGiven(env: Env, ns: string, a: AwsAuth, region: string, c: Credentials) {
    match a.serviceAccountRef
    case None => env.aws.ambient(region) == Ok(c)
    case Some(sa) =>
      exists audiences, jwt :: AreStsAudiences(audiences, sa) && env.mintToken(ObjectKey(ns, sa.name), audiences) == Ok(jwt)
                               && env.aws.assumeRole(region, a.iamRoleArn, jwt) == Ok(c)
  }

  /** There are credentials, not ambient ones without permission, and a login request can be signed with them. */
  ghost predicate CanSign(env: Env, ns: string, amb: bool, a: AwsAuth) {
    var requested := RequestedRegion(env.aws, a);
    var cfg := env.aws.load(requested);
    && (a.serviceAccountRef.None? ==> amb) && cfg.Ok?
    && exists c :: IsGiven(env, ns, a, cfg.value, c)
                   && env.aws.loginData(c, a.vaultHeaderValue, SigningRegion(requested, cfg.value)).Ok?
  }

  /** The login that comes first has what it needs. */
  ghost predicate CanLogIn(env: Env, r: Reader, ns: string, amb: bool, iss: Issuer, v: VaultIssuer, conn: Conn) {
    if v.auth.tokenSecretRef.Some? then false
    else if v.auth.appRole.Some? then
      SecretValue(r, AuthSlot, ns, v.auth.appRole.value.secretRef.name, v.auth.appRole.value.secretRef.key).Some?
    else if v.auth.clientCertificate.Some? then
      var a := v.auth.clientCertificate.value; a.secretName == "" || CanPresent(env, r, ns, conn, a)
    else if v.auth.kubernetes.Some? then exists jwt :: IsJwt(env, r, ns, iss, v, v.auth.kubernetes.value, jwt)
    else v.auth.aws.Some? && CanSign(env, ns, amb, v.auth.aws.value)
  }

  lemma AppRoleLogsInIff(env: Env, r: Reader, ns: string, conn: Conn, a: AppRoleAuth)
    ensures LogsIn(WithAppRole(env, r, ns, conn, a).log) <==> SecretValue(r, AuthSlot, ns, a.secretRef.name, a.secretRef.key).Some?
  {
    var log := WithAppRole(env, r, ns, conn, a).log;
    if |log| > 1 { assert log[1] in log && log[1].Login?; }
  }

  lemma CertificateLogsInIff(env: Env, r: Reader, ns: string, conn: Conn, a: ClientCertificateAuth)
    ensures LogsIn(WithClientCertificate(env, r, ns, conn, a).log) <==> a.secretName == "" || CanPresent(env, r, ns, conn, a)
  {
    var log := WithClientCertificate(env, r, ns, conn, a).log;
    if a.secretName == "" { assert log[0] in log && log[0].Login?; }
    if |log| > 1 { assert log[1] in log && log[1].Login?; }
  }

  lemma VaultAudiencesAreUnique(xs: seq<string>, ys: seq<string>, iss: Issuer, v: VaultIssuer, sa: ServiceAccountRef)
    requires AreVaultAudiences(xs, iss, v, sa) && AreVaultAudiences(ys, iss, v, sa)
    ensures xs == ys
  {
    var n := |sa.tokenAudiences|;
    assert xs == xs[..n] + [xs[n], xs[n + 1]];
    assert ys == ys[..n] + [ys[n], ys[n + 1]];
  }

  /** There is one list of audiences to ask with. */
  lemma OnlyVaultAudiences(iss: Issuer, v: VaultIssuer, sa: ServiceAccountRef)
    ensures forall audiences :: AreVaultAudiences(audiences, iss, v, sa) <==>
              audiences == KubernetesAudiences(iss, v.server, sa.tokenAudiences)
  {
    VaultAudiences(iss, v, sa);
    forall audiences | AreVaultAudiences(audiences, iss, v, sa)
      ensures audiences == KubernetesAudiences(iss, v.server, sa.tokenAudiences)
    {
      VaultAudiencesAreUnique(audiences, KubernetesAudiences(iss, v.server, sa.tokenAudiences), iss, v, sa);
    }
  }

  lemma OnlyStsAudiences(sa: ServiceAccountRef)
    ensures forall audiences :: AreStsAudiences(audiences, sa) <==> audiences == IrsaAudiences(sa)
  {
    forall audiences | AreStsAudiences(audiences, sa) ensures audiences == IrsaAudiences(sa) {
      assert audiences == [audiences[0]] + audiences[1..];
    }
    assert IrsaAudiences(sa)[1..] == sa.tokenAudiences;
  }

  lemma KubernetesLogsInIff(env: Env, r: Reader, ns: string, iss: Issuer, v: VaultIssuer, conn: Conn, a: KubernetesAuth)
    ensures LogsIn(WithKubernetes(env, r, ns, iss, v, conn, a).log) <==> exists jwt :: IsJwt(env, r, ns, iss, v, a, jwt)
  {
    if a.serviceAccountRef.Some? { OnlyVaultAudiences(iss, v, a.serviceAccountRef.value); }
    var jwt, log := KubernetesJwt(env, r, ns, iss, v, a), WithKubernetes(env, r, ns, iss, v, conn, a).log;
    assert forall f :: f in jwt.log ==> f.ReadSecret? || f.MintToken?;
    if jwt.res.Ok? {
      assert IsJwt(env, r, ns, iss, v, a, jwt.res.value);
      assert log[|log| - 1] in log && log[|log| - 1].Login?;
    }
  }

  lemma IdentityIsGivenIff(env: Env, ns: string, a: AwsAuth, c: Credentials)
    ensures var id, cfg := Identity(env, ns, a).res, env.aws.load(RequestedRegion(env.aws, a));
            (cfg.Ok? && IsGiven(env, ns, a, cfg.value, c)) <==> cfg.Ok? && id == Ok(AwsIdentity(c, cfg.value))
  {
    if a.serviceAccountRef.Some? {
      var sa := a.serviceAccountRef.value;
      OnlyStsAudiences(sa);
      var jwt := env.mintToken(ObjectKey(ns, sa.name), IrsaAudiences(sa));
      assert jwt.Ok? ==> AreStsAudiences(IrsaAudiences(sa), sa);
    }
  }

  lemma AwsLogsInIff(env: Env, ns: string, amb: bool, conn: Conn, a: AwsAuth)
    ensures LogsIn(WithAws(env, ns, amb, conn, a).log) <==> CanSign(env, ns, amb, a)
  {
    var requested, log := RequestedRegion(env.aws, a), WithAws(env, ns, amb, conn, a).log;
    var id, cfg := Identity(env, ns, a), env.aws.load(requested);
    IdentityLog(env, ns, a);
    forall c ensures (cfg.Ok? && IsGiven(env, ns, a, cfg.value, c)) <==> cfg.Ok? && id.res == Ok(AwsIdentity(c, cfg.value)) {
      IdentityIsGivenIff(env, ns, a, c);
    }
    if id.res.Ok? && (a.serviceAccountRef.None? ==> amb) {
      var region := SigningRegion(requested, id.res.value.resolvedRegion);
      var login := AwsLogin(env, conn, a, id.res.value, region);
      assert IsGiven(env, ns, a, cfg.value, id.res.value.credentials);
      assert log == id.log + login.log;
      assert login.log[0].SignAws? && |login.log| <= 2;
      if |login.log| > 1 { assert login.log[1].Write? && login.log[1] in log; }
    }
  }

  /** New gets as far as a login exactly if its settings load, its client can be made and that login has what it needs. */
  lemma LoginIsMadeIff(env: Env, r: Reader, ns: string, amb: bool, iss: Issuer, v: VaultIssuer)
    ensures var cfg := NewConfig(env, r, ns, v).res;
            LogsIn(New(env, r, ns, amb, iss, v).log) <==>
              && cfg.Ok? && env.newClientError(cfg.value).None?
              && CanLogIn(env, r, ns, amb, iss, v, Conn(cfg.value, v.namespace, env.startToken))
  {
    ConfigReads(env, r, ns, v);
    var cfg, log := NewConfig(env, r, ns, v), New(env, r, ns, amb, iss, v).log;
    if cfg.res.Ok? && env.newClientError(cfg.res.value).None? {
      var conn := Conn(cfg.res.value, v.namespace, env.startToken);
      var auth := Authenticate(PRECEDENCE, env, r, ns, amb, iss, v, conn).log;
      AuthLogsInIff(env, r, ns, amb, iss, v, conn);
      assert log == cfg.log + auth;
      assert forall e :: e in log <==> e in cfg.log || e in auth;
    }
  }

  lemma AuthLogsInIff(env: Env, r: Reader, ns: string, amb: bool, iss: Issuer, v: VaultIssuer, conn: Conn)
    ensures LogsIn(Authenticate(PRECEDENCE, env, r, ns, amb, iss, v, conn).log) <==> CanLogIn(env, r, ns, amb, iss, v, conn)
  {
    SelectIsFirst(v.auth);
    match Select(PRECEDENCE, v.auth)
    case Some(AppRoleMethod) => AppRoleLogsInIff(env, r, ns, conn, v.auth.appRole.value);
    case Some(ClientCertificateMethod) => CertificateLogsInIff(env, r, ns, conn, v.auth.clientCertificate.value);
    case Some(KubernetesMethod) => KubernetesLogsInIff(env, r, ns, iss, v, conn, v.auth.kubernetes.value);
    case Some(AwsMethod) => AwsLogsInIff(env, ns, amb, conn, v.auth.aws.value);
    case _ =>
  }
}
