/**
 What building a Vault client does, as a function of the issuer, the Secrets it reads and the outside world.

 Every call that leaves the process is recorded in a log, in program order, so that a claim such as "this
 Secret is never read" or "no login is sent" is a claim about the log. Each place that reads a Secret is a
 `Slot` of its own: a reader may answer two slots differently for the same Secret, as a live API server does
 when the Secret is written between the two reads.
 */
module ClientSpec {
  import opened Wrappers
  import opened GoErrors
  import opened VaultSpec

  // ---------------------------------------------------------------- the outside world

  datatype ObjectKey = ObjectKey(namespace: string, name: string)

  type SecretData = map<string, string>

  datatype Slot = CABundleSlot | CertSlot | KeySlot | AuthSlot

  type Reader = (Slot, ObjectKey) -> Result<SecretData, GoError>

  /** A reader over one fixed set of Secrets. */
  function StoreReader(store: map<ObjectKey, SecretData>): Reader {
    (slot, k) => if k in store then Ok(store[k]) else Err(Plain("Secret not found"))
  }

  datatype KeyPair = KeyPair(cert: string, key: string)

  /** The TLS side of a client; `rootCAs` is None for the system pool. */
  datatype Dial = Dial(address: string, rootCAs: Option<string>, certificates: seq<KeyPair>, serverName: string)

  /** Everything that a request of a client carries besides its path and body. */
  datatype Conn = Conn(dial: Dial, namespace: string, token: string)

  datatype Credentials = Credentials(accessKeyId: string, secretAccessKey: string, sessionToken: string)

  /** RawRequest, DecodeJSON and TokenID: each may fail. */
  datatype LoginReply = SendFailed(e: GoError) | Undecodable(e: GoError) | TokenUnreadable(e: GoError) | Token(t: string)

  /** Logical().Write and TokenID; Vault may also answer with no Secret at all. */
  datatype WriteReply = WriteFailed(e: GoError) | NoSecret | WriteTokenUnreadable(e: GoError) | WriteToken(t: string)

  /** RawRequest on sys/health: a response and an error may come together. */
  datatype HealthReply = HealthReply(status: Option<int>, err: Option<GoError>)

  datatype AwsEnv = AwsEnv(
    envRegion: string,                                                        // NewEnvConfig; "" on error
    load: string -> Result<string, GoError>,                                  // LoadDefaultConfig: its region
    ambient: string -> Result<Credentials, GoError>,                          // Credentials.Retrieve
    assumeRole: (string, string, string) -> Result<Credentials, GoError>,     // config region, role ARN, JWT
    loginData: (Credentials, string, string) -> Result<map<string, string>, GoError>)

  /** The libraries and servers that the code talks to, each answering as a fixed function. */
  datatype Env = Env(
    poolParses: string -> bool,                                               // AppendCertsFromPEM
    keyPairError: KeyPair -> Option<GoError>,                                 // tls.X509KeyPair
    newClientError: Dial -> Option<GoError>,                                  // vault.NewClient
    startNamespace: string,                                                   // of a client as NewClient makes it
    startToken: string,
    mintToken: (ObjectKey, seq<string>) -> Result<string, GoError>,           // ServiceAccounts(ns).CreateToken
    login: (Conn, string, map<string, string>) -> LoginReply,
    write: (Conn, string, map<string, string>) -> WriteReply,
    health: Conn -> HealthReply,
    joinPath: seq<string> -> string,                                          // path.Join
    defaultTokenKey: string,                                                  // v1.DefaultVaultTokenAuthSecretKey
    defaultCertificateMount: string,
    defaultKubernetesMount: string,
    aws: AwsEnv)

  datatype Effect =
    | ReadSecret(slot: Slot, key: ObjectKey)
    | MintToken(account: ObjectKey, audiences: seq<string>)
    | Login(conn: Conn, path: string, body: map<string, string>)
    | Write(conn: Conn, path: string, body: map<string, string>)
    | AssumeRole(region: string, roleArn: string, jwt: string)
    | RetrieveAmbient(region: string)
    | SignAws(credentials: Credentials, header: string, region: string)

  datatype Traced<T> = Traced(log: seq<Effect>, res: Result<T, GoError>)

  // ---------------------------------------------------------------- text

  /** unicode.IsSpace */
  predicate IsSpace(c: char) {
    || '\t' <= c <= '\r' || c == ' ' || c == '\U{85}' || c == '\U{A0}' || c == '\U{1680}'
    || '\U{2000}' <= c <= '\U{200a}' || c == '\U{2028}' || c == '\U{2029}' || c == '\U{202f}'
    || c == '\U{205f}' || c == '\U{3000}'
  }

  function TrimLeft(s: string): string {
    if s != [] && IsSpace(s[0]) then TrimLeft(s[1..]) else s
  }

  function TrimRight(s: string): string {
    if s != [] && IsSpace(s[|s| - 1]) then TrimRight(s[..|s| - 1]) else s
  }

  function TrimSpace(s: string): string {
    TrimRight(TrimLeft(s))
  }

  function OrElse(s: string, dflt: string): string {
    if s != "" then s else dflt
  }

  // ---------------------------------------------------------------- messages that occur more than once

  const NO_DATA := "no data for key in secret"
  const CALL_FAILED := "error calling Vault server"
  const MINT_FAILED := "while requesting a token for the service account"
  const INIT_FAILED := "error initializing Vault client"
  const INTERMEDIARY_FAILED := "error initializing intermediary Vault client"
  const BAD_CERTIFICATE := "error reading client certificate"
  const AWS_CONFIG_FAILED := "error loading AWS config"
  const NO_ACCESS := "could not access Secret"
  const NO_PEM := "no data for key in Secret"

  // ---------------------------------------------------------------- TLS configuration

  const CA_FAILED := "failed to load vault CA bundle"
  const CERTIFICATE_FAILED := "failed to load vault client certificate"
  const NO_BUNDLES := "no Vault CA bundles loaded, check bundle contents"

  function CaBundle(reader: Reader, ns: string, v: VaultIssuer): Traced<string> {
    if v.caBundle != "" then Traced([], Ok(v.caBundle)) else
    if v.caBundleSecretRef.None? then Traced([], Ok("")) else
    var ref := v.caBundleSecretRef.value;
    var k := ObjectKey(ns, ref.name);
    var log := [ReadSecret(CABundleSlot, k)];
    match reader(CABundleSlot, k)
    case Err(e) => Traced(log, Err(Flattened("could not access secret", e)))
    case Ok(data) =>
      var key := OrElse(ref.key, "ca.crt");
      if key in data then Traced(log, Ok(data[key])) else Traced(log, Err(Plain(NO_DATA)))
  }

  function ClientCertificate(env: Env, reader: Reader, ns: string, v: VaultIssuer): Traced<Option<KeyPair>> {
    if v.clientCertSecretRef.None? || v.clientKeySecretRef.None? then Traced([], Ok(None)) else
    var certRef, keyRef := v.clientCertSecretRef.value, v.clientKeySecretRef.value;
    var kc, kk := ObjectKey(ns, certRef.name), ObjectKey(ns, keyRef.name);
    match reader(CertSlot, kc)
    case Err(e) => Traced([ReadSecret(CertSlot, kc)], Err(Flattened(NO_ACCESS, e)))
    case Ok(certData) =>
      var log := [ReadSecret(CertSlot, kc), ReadSecret(KeySlot, kk)];
      match reader(KeySlot, kk)
      case Err(e) => Traced(log, Err(Flattened(NO_ACCESS, e)))
      case Ok(keyData) =>
        var certKey, privateKey := OrElse(certRef.key, "tls.crt"), OrElse(keyRef.key, "tls.key");
        if certKey !in certData then Traced(log, Err(Plain(NO_PEM))) else
        if privateKey !in keyData then Traced(log, Err(Plain(NO_PEM))) else
        var pair := KeyPair(certData[certKey], keyData[privateKey]);
        match env.keyPairError(pair)
        case Some(e) => Traced(log, Err(Flattened("could not parse the TLS certificate", e)))
        case None => Traced(log, Ok(Some(pair)))
  }

  function NewConfig(env: Env, reader: Reader, ns: string, v: VaultIssuer): Traced<Dial> {
    var ca := CaBundle(reader, ns, v);
    if ca.res.Err? then Traced(ca.log, Err(Wrapped(CA_FAILED, ca.res.error))) else
    if ca.res.value != "" && !env.poolParses(ca.res.value) then
      Traced(ca.log, Err(Plain(NO_BUNDLES)))
    else
    var cc := ClientCertificate(env, reader, ns, v);
    var log := ca.log + cc.log;
    if cc.res.Err? then Traced(log, Err(Wrapped(CERTIFICATE_FAILED, cc.res.error))) else
    Traced(log, Ok(Dial(v.server,
                        if ca.res.value != "" then Some(ca.res.value) else None,
                        if cc.res.value.Some? then [cc.res.value.value] else [],
                        v.serverName)))
  }

  // ---------------------------------------------------------------- the five ways to log in

  function TokenOf(reply: LoginReply, sendMessage: string): Result<string, GoError> {
    match reply
    case SendFailed(e) => Err(Flattened(sendMessage, e))
    case Undecodable(e) => Err(Flattened("unable to decode JSON payload", e))
    case TokenUnreadable(e) => Err(Flattened("unable to read token", e))
    case Token(t) => Ok(t)
  }

  function WithTokenRef(env: Env, reader: Reader, ns: string, ref: SecretKeySelector): Traced<string> {
    var k := ObjectKey(ns, ref.name);
    var log := [ReadSecret(AuthSlot, k)];
    match reader(AuthSlot, k)
    case Err(e) => Traced(log, Err(e))
    case Ok(data) =>
      var key := OrElse(ref.key, env.defaultTokenKey);
      if key in data then Traced(log, Ok(TrimSpace(data[key])))
      else Traced(log, Err(Plain(NO_DATA)))
  }

  function WithAppRole(env: Env, reader: Reader, ns: string, conn: Conn, a: AppRoleAuth): Traced<string> {
    var k := ObjectKey(ns, a.secretRef.name);
    var log := [ReadSecret(AuthSlot, k)];
    match reader(AuthSlot, k)
    case Err(e) => Traced(log, Err(e))
    case Ok(data) =>
      if a.secretRef.key !in data then Traced(log, Err(Plain(NO_DATA))) else
      var body := map["role_id" := TrimSpace(a.roleId), "secret_id" := TrimSpace(data[a.secretRef.key])];
      var url := env.joinPath(["/v1", "auth", OrElse(a.path, "approle"), "login"]);
      var token := TokenOf(env.login(conn, url, body), "error logging in to Vault server");
      Traced(log + [Login(conn, url, body)],
             if token == Ok("") then Err(Plain("no token returned")) else token)
  }

  /** The short-lived client: a new one over the same transport settings plus one certificate. */
  function Intermediary(env: Env, conn: Conn, pair: KeyPair): Conn {
    Conn(conn.dial.(certificates := conn.dial.certificates + [pair]), env.startNamespace, env.startToken)
  }

  function CertificateLogin(env: Env, conn: Conn, a: ClientCertificateAuth): Traced<string> {
    var body := map["name" := a.name];
    var url := env.joinPath([OrElse(a.path, env.defaultCertificateMount), "login"]);
    Traced([Login(conn, url, body)], TokenOf(env.login(conn, url, body), CALL_FAILED))
  }

  function WithClientCertificate(env: Env, reader: Reader, ns: string, conn: Conn, a: ClientCertificateAuth)
    : Traced<string>
  {
    if a.secretName == "" then CertificateLogin(env, conn, a) else
    var k := ObjectKey(ns, a.secretName);
    var log := [ReadSecret(AuthSlot, k)];
    match reader(AuthSlot, k)
    case Err(e) => Traced(log, Err(e))
    case Ok(data) =>
      if "tls.crt" !in data then Traced(log, Err(Plain("no data for tls.crt in secret"))) else
      if "tls.key" !in data then Traced(log, Err(Plain("no data for tls.key in secret"))) else
      var pair := KeyPair(data["tls.crt"], data["tls.key"]);
      match env.keyPairError(pair)
      case Some(e) => Traced(log, Err(Flattened(BAD_CERTIFICATE, e)))
      case None =>
        var tmp := Intermediary(env, conn, pair);
        match env.newClientError(tmp.dial)
        case Some(e) => Traced(log, Err(Flattened(INTERMEDIARY_FAILED, e)))
        case None =>
          var login := CertificateLogin(env, tmp, a);
          Traced(log + login.log, login.res)
  }

  function DefaultAudience(iss: Issuer): string {
    "vault://" + (if iss.namespace != "" then iss.namespace + "/" else "") + iss.name
  }

  function KubernetesAudiences(iss: Issuer, server: string, requested: seq<string>): seq<string> {
    requested + [DefaultAudience(iss), server]
  }

  function KubernetesLogin(env: Env, conn: Conn, a: KubernetesAuth, jwt: string): Traced<string> {
    var body := map["role" := a.role, "jwt" := jwt];
    var url := env.joinPath([OrElse(a.path, env.defaultKubernetesMount), "login"]);
    Traced([Login(conn, url, body)], TokenOf(env.login(conn, url, body), CALL_FAILED))
  }

  /** The JWT for the Kubernetes login, from a Secret or freshly minted. */
  function KubernetesJwt(env: Env, reader: Reader, ns: string, iss: Issuer, v: VaultIssuer, a: KubernetesAuth)
    : Traced<string>
  {
    if a.secretRef.name != "" then
      var k := ObjectKey(ns, a.secretRef.name);
      var log := [ReadSecret(AuthSlot, k)];
      match reader(AuthSlot, k)
      case Err(e) => Traced(log, Err(e))
      case Ok(data) =>
        var key := OrElse(a.secretRef.key, env.defaultTokenKey);
        if key in data then Traced(log, Ok(data[key])) else Traced(log, Err(Plain(NO_DATA)))
    else if a.serviceAccountRef.Some? then
      var sa := a.serviceAccountRef.value;
      var account, audiences := ObjectKey(ns, sa.name), KubernetesAudiences(iss, v.server, sa.tokenAudiences);
      Traced([MintToken(account, audiences)],
             match env.mintToken(account, audiences)
             case Err(e) => Err(Flattened(MINT_FAILED, e))
             case Ok(jwt) => Ok(jwt))
    else
      Traced([], Err(Plain(PROGRAMMER_MISTAKE)))
  }

  const PROGRAMMER_MISTAKE := "programmer mistake: both serviceAccountRef and tokenRef.name are empty"

  function WithKubernetes(env: Env, reader: Reader, ns: string, iss: Issuer, v: VaultIssuer, conn: Conn, a: KubernetesAuth)
    : Traced<string>
  {
    var jwt := KubernetesJwt(env, reader, ns, iss, v, a);
    if jwt.res.Err? then jwt else
    var login := KubernetesLogin(env, conn, a, jwt.res.value);
    Traced(jwt.log + login.log, login.res)
  }

  const AMBIENT_REFUSED := "cannot authenticate to Vault using ambient AWS credentials"

  /** The region handed to LoadDefaultConfig; "" asks for none. */
  function RequestedRegion(env: AwsEnv, a: AwsAuth): string {
    var kept := if a.region != "" && env.envRegion != "" && a.serviceAccountRef.None? then "" else a.region;
    if kept == "" && env.envRegion == "" then "us-east-1" else kept
  }

  function SigningRegion(requested: string, resolved: string): string {
    OrElse(OrElse(requested, resolved), "us-east-1")
  }

  datatype AwsIdentity = AwsIdentity(credentials: Credentials, resolvedRegion: string)

  function IrsaAudiences(sa: ServiceAccountRef): seq<string> {
    ["sts.amazonaws.com"] + sa.tokenAudiences
  }

  function FromIrsa(env: Env, ns: string, a: AwsAuth, sa: ServiceAccountRef, region: string): Traced<AwsIdentity> {
    var account := ObjectKey(ns, sa.name);
    var log := [MintToken(account, IrsaAudiences(sa))];
    match env.mintToken(account, IrsaAudiences(sa))
    case Err(e) => Traced(log, Err(Flattened(MINT_FAILED, e)))
    case Ok(jwt) =>
      match env.aws.load(region)
      case Err(e) => Traced(log, Err(Wrapped(AWS_CONFIG_FAILED, e)))
      case Ok(resolved) =>
        var log' := log + [AssumeRole(resolved, a.iamRoleArn, jwt)];
        match env.aws.assumeRole(resolved, a.iamRoleArn, jwt)
        case Err(e) => Traced(log', Err(Wrapped("error assuming role with web identity", e)))
        case Ok(c) => Traced(log', Ok(AwsIdentity(c, resolved)))
  }

  function FromAmbient(env: Env, region: string): Traced<AwsIdentity> {
    match env.aws.load(region)
    case Err(e) => Traced([], Err(Wrapped(AWS_CONFIG_FAILED, e)))
    case Ok(resolved) =>
      var log := [RetrieveAmbient(resolved)];
      match env.aws.ambient(resolved)
      case Err(e) => Traced(log, Err(Wrapped("error retrieving AWS credentials", e)))
      case Ok(c) => Traced(log, Ok(AwsIdentity(c, resolved)))
  }

  function AwsLogin(env: Env, conn: Conn, a: AwsAuth, id: AwsIdentity, region: string): Traced<string> {
    var log := [SignAws(id.credentials, a.vaultHeaderValue, region)];
    match env.aws.loginData(id.credentials, a.vaultHeaderValue, region)
    case Err(e) => Traced(log, Err(Wrapped("error generating AWS login data", e)))
    case Ok(data) =>
      var body := data["role" := a.role];
      var url := env.joinPath([OrElse(a.mountPath, "/v1/auth/aws"), "login"]);
      Traced(log + [Write(conn, url, body)],
             match env.write(conn, url, body)
             case WriteFailed(e) => Err(Flattened(CALL_FAILED, e))
             case NoSecret => Err(Plain("vault returned empty secret"))
             case WriteTokenUnreadable(e) => Err(Flattened("unable to read token", e))
             case WriteToken(t) => Ok(t))
  }

  /** The credentials to sign with, and the region of the configuration that gave them. */
  function Identity(env: Env, ns: string, a: AwsAuth): Traced<AwsIdentity> {
    match a.serviceAccountRef
    case Some(sa) => FromIrsa(env, ns, a, sa, RequestedRegion(env.aws, a))
    case None => FromAmbient(env, RequestedRegion(env.aws, a))
  }

  function WithAws(env: Env, ns: string, ambientAllowed: bool, conn: Conn, a: AwsAuth): Traced<string> {
    if a.serviceAccountRef.None? && !ambientAllowed then Traced([], Err(Plain(AMBIENT_REFUSED))) else
    var requested := RequestedRegion(env.aws, a);
    var id := Identity(env, ns, a);
    if id.res.Err? then Traced(id.log, Err(id.res.error)) else
    var login := AwsLogin(env, conn, a, id.res.value, SigningRegion(requested, id.res.value.resolvedRegion));
    Traced(id.log + login.log, login.res)
  }

  // ---------------------------------------------------------------- building the pair of clients

  const KUBERNETES_FAILED := "while requesting a Vault token using the Kubernetes auth"
  const AWS_FAILED := "while requesting a Vault token using the AWS auth"
  const NO_METHOD := "error initializing Vault client: unable to load credentials"

  /** The branch of setToken for one auth method, or the fallthrough; the result is the token to set. */
  function AuthenticateBy(m: Option<Method>, env: Env, reader: Reader, ns: string, ambientAllowed: bool,
                          iss: Issuer, v: VaultIssuer, conn: Conn): Traced<string>
    requires m.Some? ==> IsSet(v.auth, m.value)
  {
    match m
    case None => Traced([], Err(InvalidData(NO_METHOD)))
    case Some(TokenMethod) => WithTokenRef(env, reader, ns, v.auth.tokenSecretRef.value)
    case Some(AppRoleMethod) => WithAppRole(env, reader, ns, conn, v.auth.appRole.value)
    case Some(ClientCertificateMethod) => WithClientCertificate(env, reader, ns, conn, v.auth.clientCertificate.value)
    case Some(KubernetesMethod) =>
      Annotate(KUBERNETES_FAILED,
               WithKubernetes(env, reader, ns, iss, v, conn, v.auth.kubernetes.value))
    case Some(AwsMethod) =>
      Annotate(AWS_FAILED,
               WithAws(env, ns, ambientAllowed, conn, v.auth.aws.value))
  }

  /** setToken with its branches in the given order. */
  function Authenticate(order: seq<Method>, env: Env, reader: Reader, ns: string, ambientAllowed: bool,
                        iss: Issuer, v: VaultIssuer, conn: Conn): Traced<string>
  {
    SelectFinds(order, v.auth);
    AuthenticateBy(Select(order, v.auth), env, reader, ns, ambientAllowed, iss, v, conn)
  }

  function Annotate<T>(msg: string, t: Traced<T>): Traced<T> {
    if t.res.Err? then Traced(t.log, Err(Wrapped(msg, t.res.error))) else t
  }

  /** The namespaced client and the one for sys/ paths, as their requests will look. */
  datatype Clients = Clients(client: Conn, clientSys: Conn)

  /** New once the configuration is made. */
  function Connect(order: seq<Method>, env: Env, reader: Reader, ns: string, ambientAllowed: bool,
                   iss: Issuer, v: VaultIssuer, dial: Dial): Traced<Clients>
  {
    match env.newClientError(dial)
    case Some(e) => Traced([], Err(Flattened(INIT_FAILED, e)))
    case None =>
      var conn := Conn(dial, v.namespace, env.startToken);
      var auth := Authenticate(order, env, reader, ns, ambientAllowed, iss, v, conn);
      Traced(auth.log,
             match auth.res
             case Err(e) => Err(e)
             case Ok(token) => Ok(Clients(conn.(token := token), conn.(token := token, namespace := ""))))
  }

  /** New, with the branches of setToken in the given order. */
  function NewInOrder(order: seq<Method>, env: Env, reader: Reader, ns: string, ambientAllowed: bool,
                      iss: Issuer, v: VaultIssuer): Traced<Clients>
  {
    var cfg := NewConfig(env, reader, ns, v);
    if cfg.res.Err? then Traced(cfg.log, Err(cfg.res.error)) else
    var connected := Connect(order, env, reader, ns, ambientAllowed, iss, v, cfg.res.value);
    Traced(cfg.log + connected.log, connected.res)
  }

  function New(env: Env, reader: Reader, ns: string, ambientAllowed: bool, iss: Issuer, v: VaultIssuer): Traced<Clients> {
    NewInOrder(PRECEDENCE, env, reader, ns, ambientAllowed, iss, v)
  }

  /** nil, or the error of IsVaultInitializedAndUnsealed. */
  function HealthError(env: Env, sys: Conn): Option<GoError> {
    var reply := env.health(sys);
    match reply.err
    case None => None
    case Some(e) =>
      match reply.status
      case None => Some(e)
      case Some(s) =>
        if s == 429 || s == 472 || s == 473 then None
        else if s == 501 then Some(Plain("Vault is not initialized"))
        else if s == 503 then Some(Plain("Vault is sealed"))
        else Some(Wrapped("error calling Vault", e))
  }
}
