/**
 The objects that make up a Vault client, and the program that builds them. Clients that are derived from each other
 share their configuration, and clones of a transport share the array behind their certificate slice; what each
 method may write is in its modifies clause, and what it computes is the corresponding function of ClientSpec.
 */
module ClientObjects {
  import opened Wrappers
  import opened GoErrors
  import opened VaultSpec
  import opened GoSlices
  import Spec = ClientSpec

  // ---------------------------------------------------------------- library objects

  /** http.Transport with its tls.Config */
  class Transport {
    var rootCAs: Option<string>
    var certificates: Slice<Spec.KeyPair>
    var serverName: string

    constructor (rootCAs: Option<string>, certificates: Slice<Spec.KeyPair>, serverName: string)
      ensures this.rootCAs == rootCAs && this.certificates == certificates && this.serverName == serverName
    {
      this.rootCAs, this.certificates, this.serverName := rootCAs, certificates, serverName;
    }

    /** Copies the fields; the clone's certificate slice is a window on the same array. */
    method Clone() returns (t: Transport)
      ensures fresh(t) && t.rootCAs == rootCAs && t.certificates == certificates && t.serverName == serverName
    {
      t := new Transport(rootCAs, certificates, serverName);
    }
  }

  class HttpClient {
    var transport: Transport

    constructor (transport: Transport)
      ensures this.transport == transport
    {
      this.transport := transport;
    }
  }

  /** vault.Config */
  class Config {
    var address: string
    var httpClient: HttpClient

    constructor (address: string, httpClient: HttpClient)
      ensures this.address == address && this.httpClient == httpClient
    {
      this.address, this.httpClient := address, httpClient;
    }

    ghost function Objects(): set<object>
      reads this, httpClient, httpClient.transport
    {
      {this, httpClient, httpClient.transport} + Backing(httpClient.transport.certificates)
    }

    ghost predicate Valid()
      reads this, httpClient, httpClient.transport
    {
      httpClient.transport.certificates.Valid()
    }

    /** The certificate slice has no room, so an append to a copy of it cannot write into the shared array. */
    ghost predicate Full()
      reads this, httpClient, httpClient.transport
    {
      Valid() && !httpClient.transport.certificates.HasRoom()
    }

    ghost function Dial(): Spec.Dial
      requires Valid()
      reads this, httpClient, httpClient.transport, Backing(httpClient.transport.certificates)
    {
      var t := httpClient.transport;
      Spec.Dial(address, t.rootCAs, t.certificates.Contents(), t.serverName)
    }
  }

  ghost function Backing(s: Slice<Spec.KeyPair>): set<object> {
    if s.Over? then {s.arr} else {}
  }

  /** vault.Client */
  class Client {
    var config: Config
    var namespace: string
    var token: string

    constructor (config: Config, namespace: string, token: string)
      ensures this.config == config && this.namespace == namespace && this.token == token
    {
      this.config, this.namespace, this.token := config, namespace, token;
    }

    ghost function Conn(): Spec.Conn
      requires config.Valid()
      reads this, config, config.httpClient, config.httpClient.transport
      reads Backing(config.httpClient.transport.certificates)
    {
      Spec.Conn(config.Dial(), namespace, token)
    }

    /** A shallow copy with another namespace: it shares the configuration and takes the token along. */
    method WithNamespace(namespace: string) returns (c: Client)
      ensures fresh(c) && c.config == config && c.token == token && c.namespace == namespace
    {
      c := new Client(config, namespace, token);
    }

    /** A new Config and a new HttpClient, but the same Transport. */
    method CloneConfig() returns (cfg: Config)
      ensures fresh(cfg) && fresh(cfg.httpClient)
      ensures cfg.address == config.address && cfg.httpClient.transport == config.httpClient.transport
    {
      var http := new HttpClient(config.httpClient.transport);
      cfg := new Config(config.address, http);
    }
  }

  /** vault.NewClient: a client over this very configuration. */
  method NewClient(env: Spec.Env, cfg: Config) returns (c: Client?, err: Option<GoError>)
    requires cfg.Valid()
    ensures err == env.newClientError(cfg.Dial())
    ensures c == null <==> err.Some?
    ensures c != null ==> fresh(c) && c.config == cfg && c.namespace == env.startNamespace && c.token == env.startToken
  {
    var t := cfg.httpClient.transport;
    var certificates := [];
    if t.certificates.Over? {
      certificates := t.certificates.arr[..t.certificates.len];
    }
    err := env.newClientError(Spec.Dial(cfg.address, t.rootCAs, certificates, t.serverName));
    c := null;
    if err.None? {
      c := new Client(cfg, env.startNamespace, env.startToken);
    }
  }

  // ---------------------------------------------------------------- building the clients

  /** The Vault struct of one issuer, together with the world it talks to and the calls made so far. */
  class Vault {
    const env: Spec.Env
    const reader: Spec.Reader
    const issuer: Issuer
    const spec: VaultIssuer
    const namespace: string
    const ambientAllowed: bool
    /** The issuer's tokenAudiences of the Kubernetes service account, as they lie in memory. */
    const tokenAudiences: Slice<string>
    var log: seq<Spec.Effect>
    var client: Client?
    var clientSys: Client?

    constructor (env: Spec.Env, reader: Spec.Reader, issuer: Issuer, spec: VaultIssuer, namespace: string,
                 ambientAllowed: bool, tokenAudiences: Slice<string>)
      ensures this.env == env && this.reader == reader && this.issuer == issuer && this.spec == spec
      ensures this.namespace == namespace && this.ambientAllowed == ambientAllowed && this.tokenAudiences == tokenAudiences
      ensures log == [] && client == null && clientSys == null
    {
      this.env, this.reader, this.issuer, this.spec := env, reader, issuer, spec;
      this.namespace, this.ambientAllowed, this.tokenAudiences := namespace, ambientAllowed, tokenAudiences;
      log, client, clientSys := [], null, null;
    }

    /** The slice in memory is the list in the spec. */
    ghost predicate AudiencesMatch()
      reads if tokenAudiences.Over? then {tokenAudiences.arr} else {}
    {
      && tokenAudiences.Valid()
      && (spec.auth.kubernetes.Some? && spec.auth.kubernetes.value.serviceAccountRef.Some? ==>
            tokenAudiences.Contents() == spec.auth.kubernetes.value.serviceAccountRef.value.tokenAudiences)
    }

    /** The trust half of newConfig. */
    method SetTrust(transport: Transport) returns (err: Option<GoError>)
      modifies this`log, transport`rootCAs
      ensures var ca := Spec.CaBundle(reader, namespace, spec);
              && log == old(log) + ca.log
              && err == TrustError(ca.res)
              && transport.rootCAs == if err.None? && ca.res.value != "" then Some(ca.res.value) else old(transport.rootCAs)
    {
      var ca := Spec.CaBundle(reader, namespace, spec);
      log := log + ca.log;
      if ca.res.Err? {
        return Some(Wrapped(Spec.CA_FAILED, ca.res.error));
      }
      if ca.res.value != "" {
        if !env.poolParses(ca.res.value) {
          return Some(Plain(Spec.NO_BUNDLES));
        }
        transport.rootCAs := Some(ca.res.value);
      }
      return None;
    }

    function TrustError(ca: Result<string, GoError>): Option<GoError> {
      if ca.Err? then Some(Wrapped(Spec.CA_FAILED, ca.error))
      else if ca.value != "" && !env.poolParses(ca.value) then
        Some(Plain(Spec.NO_BUNDLES))
      else None
    }

    /** The identity half of newConfig. */
    method SetIdentity(transport: Transport) returns (err: Option<GoError>)
      requires transport.certificates == Nil && transport.serverName == ""
      modifies this`log, transport`certificates, transport`serverName
      ensures var pair := Spec.ClientCertificate(env, reader, namespace, spec);
              && log == old(log) + pair.log
              && (err.Some? <==> pair.res.Err?)
              && (err.Some? ==> err.value == Wrapped(Spec.CERTIFICATE_FAILED, pair.res.error))
              && (err.None? ==>
                    && transport.certificates.Valid() && !transport.certificates.HasRoom()
                    && fresh(Backing(transport.certificates))
                    && transport.certificates.Contents() == (if pair.res.value.Some? then [pair.res.value.value] else [])
                    && transport.serverName == spec.serverName)
    {
      var pair := Spec.ClientCertificate(env, reader, namespace, spec);
      log := log + pair.log;
      if pair.res.Err? {
        return Some(Wrapped(Spec.CERTIFICATE_FAILED, pair.res.error));
      }
      if pair.res.value.Some? {
        var only := new Spec.KeyPair[1](i => pair.res.value.value);
        transport.certificates := Over(only, 1);
      }
      if spec.serverName != "" {
        transport.serverName := spec.serverName;
      }
      return None;
    }

    /** The specification in the two halves in which the methods compute it. */
    lemma ConfigInHalves()
      ensures var ca, pair := Spec.CaBundle(reader, namespace, spec), Spec.ClientCertificate(env, reader, namespace, spec);
              Spec.NewConfig(env, reader, namespace, spec) ==
              if TrustError(ca.res).Some? then Spec.Traced(ca.log, Err(TrustError(ca.res).value))
              else if pair.res.Err? then
                Spec.Traced(ca.log + pair.log, Err(Wrapped(Spec.CERTIFICATE_FAILED, pair.res.error)))
              else
                Spec.Traced(ca.log + pair.log,
                            Ok(Spec.Dial(spec.server, if ca.res.value != "" then Some(ca.res.value) else None,
                                         if pair.res.value.Some? then [pair.res.value.value] else [], spec.serverName)))
    {
    }

    /** newConfig: the default configuration, changed field by field. */
    method NewConfig() returns (cfg: Config?, err: Option<GoError>)
      modifies this`log
      ensures var built := Spec.NewConfig(env, reader, namespace, spec);
              && log == old(log) + built.log
              && (err.None? <==> built.res.Ok?) && (err.None? <==> cfg != null)
              && (err.Some? ==> built.res.error == err.value)
              && (cfg != null ==> cfg.Full() && fresh(cfg.Objects()) && cfg.Dial() == built.res.value)
    {
      ConfigInHalves();
      cfg := null;
      var transport := new Transport(None, Nil, "");
      var http := new HttpClient(transport);
      var c := new Config(spec.server, http);
      err := SetTrust(transport);
      if err.Some? {
        return;
      }
      err := SetIdentity(transport);
      if err.Some? {
        return;
      }
      cfg := c;
    }

    /** Sends a login and notes it in the log. */
    method SendLogin(user: Client, path: string, body: map<string, string>) returns (reply: Spec.LoginReply)
      requires user.config.Valid()
      modifies this`log
      ensures reply == env.login(user.Conn(), path, body) && log == old(log) + [Spec.Login(old(user.Conn()), path, body)]
    {
      var conn := Snapshot(user);
      log := log + [Spec.Login(conn, path, body)];
      reply := env.login(conn, path, body);
    }

    /**
     The certificate login. Only the log is written: neither the given client nor its transport, certificate slice
     or array change, although the intermediary client is built from them.
     */
    method RequestTokenWithClientCertificate(client: Client, a: ClientCertificateAuth) returns (token: Result<string, GoError>)
      requires client.config.Full()
      modifies this`log
      ensures var t := Spec.WithClientCertificate(env, reader, namespace, old(client.Conn()), a);
              token == t.res && log == old(log) + t.log
    {
      var user := client;
      if a.secretName != "" {
        var k := Spec.ObjectKey(namespace, a.secretName);
        log := log + [Spec.ReadSecret(Spec.AuthSlot, k)];
        var secret := reader(Spec.AuthSlot, k);
        if secret.Err? {
          return Err(secret.error);
        }
        if "tls.crt" !in secret.value {
          return Err(Plain("no data for tls.crt in secret"));
        }
        if "tls.key" !in secret.value {
          return Err(Plain("no data for tls.key in secret"));
        }
        var pair := Spec.KeyPair(secret.value["tls.crt"], secret.value["tls.key"]);
        var bad := env.keyPairError(pair);
        if bad.Some? {
          return Err(Flattened(Spec.BAD_CERTIFICATE, bad.value));
        }
        var raw, failed := NewIntermediary(env, client, pair);
        if failed.Some? {
          return Err(Flattened(Spec.INTERMEDIARY_FAILED, failed.value));
        }
        user := raw;
      }
      var body := map["name" := a.name];
      var url := env.joinPath([Spec.OrElse(a.path, env.defaultCertificateMount), "login"]);
      var reply := SendLogin(user, url, body);
      token := Spec.TokenOf(reply, Spec.CALL_FAILED);
    }

    /** The audiences of the minted token, appended to a copy of the issuer's own list. */
    method BuildAudiences() returns (audiences: Slice<string>)
      requires tokenAudiences.Valid()
      ensures audiences.Valid() && audiences.Over? && fresh(audiences.arr)
      ensures audiences.Contents() == Spec.KubernetesAudiences(issuer, spec.server, tokenAudiences.Contents())
    {
      var defaultAudience := "vault://";
      if issuer.namespace != "" {
        defaultAudience := defaultAudience + issuer.namespace + "/";
      }
      defaultAudience := defaultAudience + issuer.name;
      audiences := Copy(tokenAudiences);
      assert defaultAudience == Spec.DefaultAudience(issuer);
      audiences := Append(audiences, defaultAudience);
      audiences := Append(audiences, spec.server);
    }

    /** The Kubernetes login, with a JWT from a Secret or a freshly minted one. */
    method RequestTokenWithKubernetesAuth(client: Client, a: KubernetesAuth) returns (token: Result<string, GoError>)
      requires client.config.Valid() && AudiencesMatch() && spec.auth.kubernetes == Some(a)
      modifies this`log
      ensures var t := Spec.WithKubernetes(env, reader, namespace, issuer, spec, old(client.Conn()), a);
              token == t.res && log == old(log) + t.log
    {
      var jwt := "";
      if a.secretRef.name != "" {
        var k := Spec.ObjectKey(namespace, a.secretRef.name);
        log := log + [Spec.ReadSecret(Spec.AuthSlot, k)];
        var secret := reader(Spec.AuthSlot, k);
        if secret.Err? {
          return Err(secret.error);
        }
        var key := a.secretRef.key;
        if key == "" {
          key := env.defaultTokenKey;
        }
        if key !in secret.value {
          return Err(Plain(Spec.NO_DATA));
        }
        jwt := secret.value[key];
      } else if a.serviceAccountRef.Some? {
        var audiences := BuildAudiences();
        var account := Spec.ObjectKey(namespace, a.serviceAccountRef.value.name);
        var wanted := audiences.arr[..audiences.len];
        log := log + [Spec.MintToken(account, wanted)];
        var minted := env.mintToken(account, wanted);
        if minted.Err? {
          return Err(Flattened(Spec.MINT_FAILED, minted.error));
        }
        jwt := minted.value;
      } else {
        return Err(Plain(Spec.PROGRAMMER_MISTAKE));
      }
      var body := map["role" := a.role, "jwt" := jwt];
      var url := env.joinPath([Spec.OrElse(a.path, env.defaultKubernetesMount), "login"]);
      var reply := SendLogin(client, url, body);
      token := Spec.TokenOf(reply, Spec.CALL_FAILED);
    }

    /** The region to ask the AWS configuration for, as the successive assignments to `region`. */
    method ChooseRegion(a: AwsAuth) returns (region: string)
      ensures region == Spec.RequestedRegion(env.aws, a)
    {
      var useAmbientCredentials := a.serviceAccountRef.None?;
      var envRegionFound := env.aws.envRegion != "";
      region := a.region;
      if region != "" && envRegionFound && useAmbientCredentials {
        region := "";
      }
      if region == "" && !envRegionFound {
        region := "us-east-1";
      }
    }

    /** The AWS login. */
    method RequestTokenWithAwsAuth(client: Client, a: AwsAuth) returns (token: Result<string, GoError>)
      requires client.config.Valid()
      modifies this`log
      ensures var t := Spec.WithAws(env, namespace, ambientAllowed, old(client.Conn()), a);
              token == t.res && log == old(log) + t.log
    {
      if a.serviceAccountRef.None? && !ambientAllowed {
        return Err(Plain(Spec.AMBIENT_REFUSED));
      }
      var region := ChooseRegion(a);
      var id := if a.serviceAccountRef.Some? then Spec.FromIrsa(env, namespace, a, a.serviceAccountRef.value, region)
                else Spec.FromAmbient(env, region);
      log := log + id.log;
      if id.res.Err? {
        return Err(id.res.error);
      }
      if region == "" {
        region := id.res.value.resolvedRegion;
      }
      if region == "" {
        region := "us-east-1";
      }
      var conn := Snapshot(client);
      var login := Spec.AwsLogin(env, conn, a, id.res.value, region);
      log := log + login.log;
      token := login.res;
    }

    /** setToken: the first auth method that is set. The client's token changes exactly when the login succeeds. */
    method SetToken(client: Client) returns (err: Option<GoError>)
      requires client.config.Full() && AudiencesMatch()
      modifies this`log, client`token
      ensures var t := Spec.Authenticate(PRECEDENCE, env, reader, namespace, ambientAllowed, issuer, spec, old(client.Conn()));
              && log == old(log) + t.log
              && client.token == (if t.res.Ok? then t.res.value else old(client.token))
              && err == (if t.res.Ok? then None else Some(t.res.error))
    {
      SelectIsFirst(spec.auth);
      ghost var conn0 := client.Conn();
      ghost var wanted := Spec.Authenticate(PRECEDENCE, env, reader, namespace, ambientAllowed, issuer, spec, conn0);
      if spec.auth.tokenSecretRef.Some? {
        var t := Spec.WithTokenRef(env, reader, namespace, spec.auth.tokenSecretRef.value);
        assert wanted == t;
        log := log + t.log;
        err := Accept(client, t.res);
        return;
      }
      if spec.auth.appRole.Some? {
        var conn := Snapshot(client);
        var t := Spec.WithAppRole(env, reader, namespace, conn, spec.auth.appRole.value);
        assert wanted == t;
        log := log + t.log;
        err := Accept(client, t.res);
        return;
      }
      if spec.auth.clientCertificate.Some? {
        assert wanted == Spec.WithClientCertificate(env, reader, namespace, conn0, spec.auth.clientCertificate.value);
        var token := RequestTokenWithClientCertificate(client, spec.auth.clientCertificate.value);
        err := Accept(client, token);
        return;
      }
      if spec.auth.kubernetes.Some? {
        assert wanted == Spec.Annotate(Spec.KUBERNETES_FAILED,
                                       Spec.WithKubernetes(env, reader, namespace, issuer, spec, conn0, spec.auth.kubernetes.value));
        var token := RequestTokenWithKubernetesAuth(client, spec.auth.kubernetes.value);
        if token.Err? {
          return Some(Wrapped(Spec.KUBERNETES_FAILED, token.error));
        }
        err := Accept(client, token);
        return;
      }
      if spec.auth.aws.Some? {
        assert wanted == Spec.Annotate(Spec.AWS_FAILED,
                                       Spec.WithAws(env, namespace, ambientAllowed, conn0, spec.auth.aws.value));
        var token := RequestTokenWithAwsAuth(client, spec.auth.aws.value);
        if token.Err? {
          return Some(Wrapped(Spec.AWS_FAILED, token.error));
        }
        err := Accept(client, token);
        return;
      }
      return Some(InvalidData(Spec.NO_METHOD));
    }

    /** Either the token is set or the error is passed on. */
    static method Accept(client: Client, token: Result<string, GoError>) returns (err: Option<GoError>)
      modifies client`token
      ensures client.token == (if token.Ok? then token.value else old(client.token))
      ensures err == (if token.Ok? then None else Some(token.error))
    {
      if token.Err? {
        return Some(token.error);
      }
      client.token := token.value;
      return None;
    }

    /** From a configuration to a namespaced client with a token. */
    method LogIn(cfg: Config, base: Client) returns (c: Client?, err: Option<GoError>)
      requires base.config == cfg && base.token == env.startToken && cfg.Full() && AudiencesMatch()
      modifies this`log
      ensures var conn := Spec.Conn(old(cfg.Dial()), spec.namespace, env.startToken);
              var t := Spec.Authenticate(PRECEDENCE, env, reader, namespace, ambientAllowed, issuer, spec, conn);
              && log == old(log) + t.log
              && err == (if t.res.Ok? then None else Some(t.res.error))
              && (c == null <==> err.Some?)
              && (c != null ==> fresh(c) && c.config == cfg && c.namespace == spec.namespace && c.token == t.res.value)
    {
      c := base.WithNamespace(spec.namespace);
      err := SetToken(c);
      if err.Some? {
        c := null;
      }
    }

    /**
     New once the configuration is made. The two clients share one configuration and one token, the second has no
     namespace, and nothing that existed before has changed.
     */
    method Connect(cfg: Config) returns (err: Option<GoError>)
      requires cfg.Full() && AudiencesMatch() && client == null && clientSys == null
      modifies this`log, this`client, this`clientSys
      ensures var built := Spec.Connect(PRECEDENCE, env, reader, namespace, ambientAllowed, issuer, spec, old(cfg.Dial()));
              && log == old(log) + built.log
              && err == (if built.res.Ok? then None else Some(built.res.error))
              && (err.Some? ==> client == null && clientSys == null)
              && (err.None? ==>
                    && client != null && clientSys != null && fresh(client) && fresh(clientSys)
                    && client.config == cfg && clientSys.config == cfg
                    && client.token == clientSys.token && client.namespace == spec.namespace && clientSys.namespace == ""
                    && built.res.value == Spec.Clients(client.Conn(), clientSys.Conn()))
    {
      var base, failed := NewClient(env, cfg);
      if failed.Some? {
        return Some(Flattened(Spec.INIT_FAILED, failed.value));
      }
      var namespaced: Client?;
      namespaced, err := LogIn(cfg, base);
      if err.Some? {
        return;
      }
      var sys := namespaced.WithNamespace("");
      client, clientSys := namespaced, sys;
    }
  }

  lemma NewIsConfigThenConnect(env: Spec.Env, reader: Spec.Reader, ns: string, amb: bool, iss: Issuer, v: VaultIssuer)
    ensures var made, built := Spec.NewConfig(env, reader, ns, v), Spec.New(env, reader, ns, amb, iss, v);
            if made.res.Err? then built == Spec.Traced(made.log, Err(made.res.error))
            else var connected := Spec.Connect(PRECEDENCE, env, reader, ns, amb, iss, v, made.res.value);
                 built == Spec.Traced(made.log + connected.log, connected.res)
  {
  }

  /** New: on success both clients are there, over objects of their own; on failure there is neither. */
  method New(env: Spec.Env, reader: Spec.Reader, issuer: Issuer, spec: VaultIssuer, namespace: string, ambientAllowed: bool,
             tokenAudiences: Slice<string>) returns (v: Vault, err: Option<GoError>)
    requires tokenAudiences.Valid()
    requires spec.auth.kubernetes.Some? && spec.auth.kubernetes.value.serviceAccountRef.Some? ==>
               tokenAudiences.Contents() == spec.auth.kubernetes.value.serviceAccountRef.value.tokenAudiences
    ensures fresh(v)
    ensures err.Some? ==> v.client == null && v.clientSys == null
    ensures err.None? ==>
              && v.client != null && v.clientSys != null && v.client.config == v.clientSys.config
              && v.client.config.Full() && fresh(v.client) && fresh(v.clientSys) && fresh(v.client.config.Objects())
              && v.client.token == v.clientSys.token
              && v.client.namespace == spec.namespace && v.clientSys.namespace == ""
    ensures var built := Spec.New(env, reader, namespace, ambientAllowed, issuer, spec);
            && v.log == built.log
            && err == (if built.res.Ok? then None else Some(built.res.error))
            && (err.None? ==> built.res.value == Spec.Clients(v.client.Conn(), v.clientSys.Conn()))
  {
    v := new Vault(env, reader, issuer, spec, namespace, ambientAllowed, tokenAudiences);
    NewIsConfigThenConnect(env, reader, namespace, ambientAllowed, issuer, spec);
    ghost var made := Spec.NewConfig(env, reader, namespace, spec);
    var cfg: Config?;
    cfg, err := v.NewConfig();
    assert v.log == made.log;
    if err.Some? {
      return;
    }
    ghost var connected := Spec.Connect(PRECEDENCE, env, reader, namespace, ambientAllowed, issuer, spec, made.res.value);
    ghost var objects := cfg.Objects();
    assert fresh(objects) && v !in objects;
    assert v.AudiencesMatch();
    err := v.Connect(cfg);
    assert v.log == made.log + connected.log;
    assert cfg.Objects() == objects && cfg.Full();
    if err.None? {
      assert v.client.config == cfg && v.clientSys.config == cfg;
    }
  }

  /** What the requests of a client look like now. */
  method Snapshot(c: Client) returns (conn: Spec.Conn)
    requires c.config.Valid()
    ensures conn == c.Conn()
  {
    var t := c.config.httpClient.transport;
    var certificates := [];
    if t.certificates.Over? {
      certificates := t.certificates.arr[..t.certificates.len];
    }
    conn := Spec.Conn(Spec.Dial(c.config.address, t.rootCAs, certificates, t.serverName), c.namespace, c.token);
  }

  /** The configuration of the short-lived client: a clone of the transport with one certificate more. */
  method CloneWithCertificate(client: Client, pair: Spec.KeyPair) returns (cfg: Config)
    requires client.config.Full()
    ensures cfg.Valid() && fresh(cfg.Objects())
    ensures var dial := client.config.Dial(); cfg.Dial() == dial.(certificates := dial.certificates + [pair])
  {
    cfg := client.CloneConfig();
    var transport := cfg.httpClient.transport.Clone();
    var certificates := Append(transport.certificates, pair);
    transport.certificates := certificates;
    cfg.httpClient.transport := transport;
  }

  method NewIntermediary(env: Spec.Env, client: Client, pair: Spec.KeyPair) returns (c: Client?, err: Option<GoError>)
    requires client.config.Full()
    ensures var tmp := Spec.Intermediary(env, client.Conn(), pair);
            && err == env.newClientError(tmp.dial)
            && (c == null <==> err.Some?)
            && (c != null ==> c.config.Valid() && fresh(c) && fresh(c.config.Objects()) && c.Conn() == tmp)
  {
    var cfg := CloneWithCertificate(client, pair);
    c, err := NewClient(env, cfg);
  }
}
