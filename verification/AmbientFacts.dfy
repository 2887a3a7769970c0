/** Which of the two flags lets which kind of issuer borrow the controller's own AWS credentials. */
module AmbientFacts {
  import opened Wrappers
  import opened GoErrors
  import opened VaultSpec
  import opened ClientSpec
  import opened SecretWatch
  import opened IssuerCheck
  import opened CheckFacts
  import opened Examples
  import opened IndexFacts
  import opened CallFacts
  import opened Signing

  /** AWS auth that names no service account, so that there is nobody's identity to use but the controller's. */
  predicate WantsAmbient(iss: Issuer) {
    iss.vault.Some? &&
    var a := iss.vault.value.auth;
    && a.tokenSecretRef.None? && a.appRole.None? && a.clientCertificate.None? && a.kubernetes.None?
    && a.aws.Some? && a.aws.value.serviceAccountRef.None?
  }

  /** The flag of the other kind is set some other way. */
  predicate DifferForOtherKind(o: Options, o': Options, kind: Kind) {
    && o'.clusterResourceNamespace == o.clusterResourceNamespace
    && match kind
       case IssuerKind => o'.issuerAmbientCredentials == o.issuerAmbientCredentials
       case ClusterIssuerKind => o'.clusterIssuerAmbientCredentials == o.clusterIssuerAmbientCredentials
  }

  /** The flag for one kind of issuer means nothing to the other kind. */
  lemma OtherFlagIsIrrelevant(o: Options, o': Options, env: Env, r: Reader, iss: Issuer, unwraps: bool,
                              details: Result<Details, GoError>, x: Exchange)
    requires DifferForOtherKind(o, o', iss.kind)
    ensures Check(o, env, r, InTree(iss, unwraps)) == Check(o', env, r, InTree(iss, unwraps))
    ensures !IgnoreIssuer(iss) ==>
              Sign(o, env, r, InTree(iss, unwraps), details, x) == Sign(o', env, r, InTree(iss, unwraps), details, x)
  {
  }

  /** An issuer that has something else to log in with, such as a service account of its own, needs no permission. */
  lemma FlagsMatterOnlyForAmbient(o: Options, o': Options, env: Env, r: Reader, iss: Issuer, unwraps: bool,
                                  details: Result<Details, GoError>, x: Exchange)
    requires !WantsAmbient(iss) && o'.clusterResourceNamespace == o.clusterResourceNamespace
    ensures Check(o, env, r, InTree(iss, unwraps)) == Check(o', env, r, InTree(iss, unwraps))
    ensures !IgnoreIssuer(iss) ==>
              Sign(o, env, r, InTree(iss, unwraps), details, x) == Sign(o', env, r, InTree(iss, unwraps), details, x)
  {
    if !IgnoreIssuer(iss) {
      PermissionMattersOnlyForAmbient(env, r, ResourceNamespace(o, iss), iss);
    }
  }

  lemma PermissionMattersOnlyForAmbient(env: Env, r: Reader, ns: string, iss: Issuer)
    requires !WantsAmbient(iss) && !IgnoreIssuer(iss)
    ensures New(env, r, ns, false, iss, iss.vault.value) == New(env, r, ns, true, iss, iss.vault.value)
  {
    var v := iss.vault.value;
    SelectIsFirst(v.auth);
    forall conn ensures Authenticate(PRECEDENCE, env, r, ns, false, iss, v, conn) == Authenticate(PRECEDENCE, env, r, ns, true, iss, v, conn) {
    }
  }

  /**
   A namespaced Issuer without its flag: whatever the ambient credentials are and whatever is allowed to
   ClusterIssuers, Check and Sign answer the same, and an Issuer that has nothing else to log in with gets nowhere.
   */
  lemma IssuerCannotBorrow(o: Options, o': Options, env: Env, r: Reader, iss: Issuer, unwraps: bool,
                           details: Result<Details, GoError>, x: Exchange, ambient: string -> Result<Credentials, GoError>)
    requires iss.kind.IssuerKind? && !o.issuerAmbientCredentials && DifferForOtherKind(o, o', IssuerKind)
    ensures CannotBorrow(o, o', env, r, InTree(iss, unwraps), details, x, ambient)
  {
    BorrowingIsForbidden(o, o', env, r, iss, unwraps, details, x, ambient);
  }

  /** The same for a ClusterIssuer without its flag, whatever is allowed to Issuers. */
  lemma ClusterIssuerCannotBorrow(o: Options, o': Options, env: Env, r: Reader, iss: Issuer, unwraps: bool,
                                  details: Result<Details, GoError>, x: Exchange, ambient: string -> Result<Credentials, GoError>)
    requires iss.kind.ClusterIssuerKind? && !o.clusterIssuerAmbientCredentials && DifferForOtherKind(o, o', ClusterIssuerKind)
    ensures CannotBorrow(o, o', env, r, InTree(iss, unwraps), details, x, ambient)
  {
    BorrowingIsForbidden(o, o', env, r, iss, unwraps, details, x, ambient);
  }

  predicate CannotBorrow(o: Options, o': Options, env: Env, r: Reader, obj: IssuerObject,
                         details: Result<Details, GoError>, x: Exchange, ambient: string -> Result<Credentials, GoError>)
    requires obj.InTree?
  {
    && Check(o, env, r, obj) == Check(o', WithAmbient(env, ambient), r, obj)
    && (WantsAmbient(obj.issuer) ==> Check(o, env, r, obj).Some?)
    && (!IgnoreIssuer(obj.issuer) ==>
          && Sign(o, env, r, obj, details, x) == Sign(o', WithAmbient(env, ambient), r, obj, details, x)
          && (WantsAmbient(obj.issuer) ==> Sign(o, env, r, obj, details, x).Err?))
  }

  lemma NewCannotBorrow(o: Options, o': Options, env: Env, r: Reader, iss: Issuer, ambient: string -> Result<Credentials, GoError>)
    requires !CanUseAmbientCredentials(o, iss) && DifferForOtherKind(o, o', iss.kind) && !IgnoreIssuer(iss)
    ensures BuildClient(o, env, r, iss) == BuildClient(o', WithAmbient(env, ambient), r, iss)
    ensures WantsAmbient(iss) ==> BuildClient(o, env, r, iss).Err?
  {
    var ns, v := ResourceNamespace(o, iss), iss.vault.value;
    assert ResourceNamespace(o', iss) == ns && !CanUseAmbientCredentials(o', iss);
    AmbientCredentialsAreGated(PRECEDENCE, env, r, ns, iss, v, ambient);
    SelectIsFirst(v.auth);
    if WantsAmbient(iss) { AmbientLoginRefused(env, r, ns, iss, v, env.aws); }
  }

  /** Check and Sign see of an issuer's world what its clients are, Vault's health, and how paths are joined. */
  lemma CheckFollowsNew(o: Options, o': Options, env: Env, r: Reader, iss: Issuer, unwraps: bool,
                        ambient: string -> Result<Credentials, GoError>)
    requires !IgnoreIssuer(iss) ==> BuildClient(o, env, r, iss) == BuildClient(o', WithAmbient(env, ambient), r, iss)
    ensures Check(o, env, r, InTree(iss, unwraps)) == Check(o', WithAmbient(env, ambient), r, InTree(iss, unwraps))
  {
  }

  lemma SignFollowsNew(o: Options, o': Options, env: Env, r: Reader, iss: Issuer, unwraps: bool,
                       details: Result<Details, GoError>, x: Exchange, ambient: string -> Result<Credentials, GoError>)
    requires !IgnoreIssuer(iss) && BuildClient(o, env, r, iss) == BuildClient(o', WithAmbient(env, ambient), r, iss)
    ensures Sign(o, env, r, InTree(iss, unwraps), details, x)
         == Sign(o', WithAmbient(env, ambient), r, InTree(iss, unwraps), details, x)
  {
  }

  lemma BorrowingIsForbidden(o: Options, o': Options, env: Env, r: Reader, iss: Issuer, unwraps: bool,
                             details: Result<Details, GoError>, x: Exchange, ambient: string -> Result<Credentials, GoError>)
    requires !CanUseAmbientCredentials(o, iss) && DifferForOtherKind(o, o', iss.kind)
    ensures CannotBorrow(o, o', env, r, InTree(iss, unwraps), details, x, ambient)
  {
    if !IgnoreIssuer(iss) {
      NewCannotBorrow(o, o', env, r, iss, ambient);
      SignFollowsNew(o, o', env, r, iss, unwraps, details, x, ambient);
    }
    CheckFollowsNew(o, o', env, r, iss, unwraps, ambient);
  }

  // ---------------------------------------------------------------- and with the flag

  const SIGNED: Exchange :=
    Exchange(Ok(Csr("", [], [], [])), None, (conn, path, body) => None, None, None, None, Ok(Certificates("chain", "ca")), true, Ok(true))

  /** With its flag, an accepted issuer that has nothing else to log in with borrows the controller's credentials, and it works. */
  lemma BorrowingIsAllowed(o: Options, iss: Issuer, details: Details) returns (env: Env, r: Reader, region: string)
    requires WantsAmbient(iss) && ValidationError(iss.vault).None?
    requires match iss.kind
             case IssuerKind => o.issuerAmbientCredentials
             case ClusterIssuerKind => o.clusterIssuerAmbientCredentials
    ensures RetrieveAmbient(region) in CheckLog(o, env, r, iss)
    ensures Check(o, env, r, InTree(iss, true)).None?
    ensures Sign(o, env, r, InTree(iss, true), Ok(details), SIGNED) == Ok(Bundle("ca", "chain"))
  {
    env := SUNNY;
    var ns, v := ResourceNamespace(o, iss), iss.vault.value;
    r := StoreReader(WitnessStore(ns, v, "pem"));
    WitnessConfig(env, ns, v, "pem");
    SelectIsFirst(v.auth);
    var cfg := NewConfig(env, r, ns, v);
    var conn := Conn(cfg.res.value, v.namespace, env.startToken);
    var login := WithAws(env, ns, true, conn, v.auth.aws.value);
    region := RequestedRegion(env.aws, v.auth.aws.value);
    assert login.log[0] == RetrieveAmbient(region) && login.res == Ok("t");
    assert New(env, r, ns, true, iss, v).log == cfg.log + login.log;
    assert New(env, r, ns, true, iss, v).res.Ok?;
  }
}
