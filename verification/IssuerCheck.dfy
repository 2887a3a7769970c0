/** Check: is this issuer usable, and if not, can anything but an edit of its spec change that? */
module IssuerCheck {
  import opened Wrappers
  import opened GoErrors
  import opened VaultSpec
  import opened ClientSpec
  import opened SecretWatch

  const CONFIG_REQUIRED := "Vault config cannot be empty"
  const SERVER_AND_PATH_REQUIRED := "Vault server and path are required fields"
  const AUTH_REQUIRED := "Vault tokenSecretRef, appRole, clientCertificate, kubernetes, or aws is required"
  const MULTIPLE_AUTH := "Multiple auth methods cannot be set on the same Vault issuer"
  const TOKEN_NAME_REQUIRED := "Vault Token auth requires tokenSecretRef.name"
  const APP_ROLE_FIELDS_REQUIRED := "Vault AppRole auth requires both roleId and tokenSecretRef.name"
  const APP_ROLE_KEY_REQUIRED := "Vault AppRole auth requires secretRef.key"
  const KUBE_ROLE_REQUIRED := "Vault Kubernetes auth requires a role to be set"
  const KUBE_EITHER_REQUIRED := "Vault Kubernetes auth requires either secretRef.name or serviceAccountRef.name to be set"
  const KUBE_SINGLE_REQUIRED := "Vault Kubernetes auth cannot be used with both secretRef.name and serviceAccountRef.name"

  const CLIENT_INIT_FAILED := "Failed to initialize Vault client"
  const NOT_VERIFIED := "Failed to verify Vault is initialized and unsealed"

  // ---------------------------------------------------------------- validation

  /** A spec that can work: exactly one auth method, and that method is completely filled in. */
  ghost predicate Usable(v: VaultIssuer) {
    && v.server != "" && v.path != ""
    && (exists m :: IsSet(v.auth, m))
    && AtMostOne(v.auth)
    && (v.auth.tokenSecretRef.Some? ==> v.auth.tokenSecretRef.value.name != "")
    && (v.auth.appRole.Some? ==>
          var a := v.auth.appRole.value; a.roleId != "" && a.secretRef.name != "" && a.secretRef.key != "")
    && (v.auth.kubernetes.Some? ==>
          var k := v.auth.kubernetes.value; k.role != "" && (k.secretRef.name != "" <==> k.serviceAccountRef.None?))
  }

  /** The first complaint about the spec, or None; it is the whole of validateVaultSpec but for the counting. */
  function ValidationError(vault: Option<VaultIssuer>): Option<string> {
    if vault.None? then Some(CONFIG_REQUIRED) else
    var v := vault.value;
    var a := v.auth;
    if v.server == "" || v.path == "" then Some(SERVER_AND_PATH_REQUIRED)
    else if Select(PRECEDENCE, a).None? then Some(AUTH_REQUIRED)
    else if exists m, n :: IsSet(a, m) && IsSet(a, n) && m != n then Some(MULTIPLE_AUTH)
    else if a.tokenSecretRef.Some? && a.tokenSecretRef.value.name == "" then Some(TOKEN_NAME_REQUIRED)
    else if a.appRole.Some? && (a.appRole.value.roleId == "" || a.appRole.value.secretRef.name == "") then
      Some(APP_ROLE_FIELDS_REQUIRED)
    else if a.appRole.Some? && a.appRole.value.secretRef.key == "" then Some(APP_ROLE_KEY_REQUIRED)
    else if a.kubernetes.Some? && a.kubernetes.value.role == "" then Some(KUBE_ROLE_REQUIRED)
    else if a.kubernetes.Some? && a.kubernetes.value.secretRef.name == "" && a.kubernetes.value.serviceAccountRef.None? then
      Some(KUBE_EITHER_REQUIRED)
    else if a.kubernetes.Some? && a.kubernetes.value.secretRef.name != "" && a.kubernetes.value.serviceAccountRef.Some? then
      Some(KUBE_SINGLE_REQUIRED)
    else None
  }

  /** validateVaultSpec, with its running count of the auth methods. */
  method ValidateVaultSpec(vault: Option<VaultIssuer>) returns (err: Option<string>)
    ensures err == ValidationError(vault)
  {
    if vault.None? {
      return Some(CONFIG_REQUIRED);
    }
    var v := vault.value;
    SelectFinds(PRECEDENCE, v.auth);
    forall m: Method ensures m in PRECEDENCE { OrderHasAll(PRECEDENCE, m); }
    if v.server == "" || v.path == "" {
      return Some(SERVER_AND_PATH_REQUIRED);
    }
    var tokenAuth, appRoleAuth, clientCertificateAuth, kubeAuth, awsAuth :=
      v.auth.tokenSecretRef, v.auth.appRole, v.auth.clientCertificate, v.auth.kubernetes, v.auth.aws;
    if tokenAuth.None? && appRoleAuth.None? && clientCertificateAuth.None? && kubeAuth.None? && awsAuth.None? {
      assert forall m :: !IsSet(v.auth, m);
      return Some(AUTH_REQUIRED);
    }
    var authCount := 0;
    if tokenAuth.Some? {
      assert IsSet(v.auth, TokenMethod);
      authCount := authCount + 1;
    }
    if appRoleAuth.Some? {
      assert IsSet(v.auth, AppRoleMethod);
      authCount := authCount + 1;
    }
    if clientCertificateAuth.Some? {
      assert IsSet(v.auth, ClientCertificateMethod);
      authCount := authCount + 1;
    }
    if kubeAuth.Some? {
      assert IsSet(v.auth, KubernetesMethod);
      authCount := authCount + 1;
    }
    if awsAuth.Some? {
      assert IsSet(v.auth, AwsMethod);
      authCount := authCount + 1;
    }
    assert authCount > 1 <==> exists m, n :: IsSet(v.auth, m) && IsSet(v.auth, n) && m != n;
    if authCount > 1 {
      return Some(MULTIPLE_AUTH);
    }
    if tokenAuth.Some? && tokenAuth.value.name == "" {
      return Some(TOKEN_NAME_REQUIRED);
    }
    if appRoleAuth.Some? && (appRoleAuth.value.roleId == "" || appRoleAuth.value.secretRef.name == "") {
      return Some(APP_ROLE_FIELDS_REQUIRED);
    }
    if appRoleAuth.Some? && appRoleAuth.value.secretRef.key == "" {
      return Some(APP_ROLE_KEY_REQUIRED);
    }
    if kubeAuth.Some? && kubeAuth.value.role == "" {
      return Some(KUBE_ROLE_REQUIRED);
    }
    if kubeAuth.Some? && kubeAuth.value.secretRef.name == "" && kubeAuth.value.serviceAccountRef.None? {
      return Some(KUBE_EITHER_REQUIRED);
    }
    if kubeAuth.Some? && kubeAuth.value.secretRef.name != "" && kubeAuth.value.serviceAccountRef.Some? {
      return Some(KUBE_SINGLE_REQUIRED);
    }
    return None;
  }

  /** Validation accepts exactly the usable specs. */
  lemma AcceptedIffUsable(v: VaultIssuer)
    ensures ValidationError(Some(v)).None? <==> Usable(v)
  {
    SelectFinds(PRECEDENCE, v.auth);
    forall m: Method ensures m in PRECEDENCE { OrderHasAll(PRECEDENCE, m); }
  }

  datatype Rule = ServerAndPath | SomeAuth | OneAuth | TokenName | AppRoleFields | AppRoleKey | KubeRole | KubeEither | KubeSingle

  /** The rules in the order in which they are checked. */
  const RULES: seq<Rule> :=
    [ServerAndPath, SomeAuth, OneAuth, TokenName, AppRoleFields, AppRoleKey, KubeRole, KubeEither, KubeSingle]

  ghost predicate Obeys(v: VaultIssuer, rule: Rule) {
    match rule
    case ServerAndPath => v.server != "" && v.path != ""
    case SomeAuth => exists m :: IsSet(v.auth, m)
    case OneAuth => AtMostOne(v.auth)
    case TokenName => v.auth.tokenSecretRef.Some? ==> v.auth.tokenSecretRef.value.name != ""
    case AppRoleFields => v.auth.appRole.Some? ==> v.auth.appRole.value.roleId != "" && v.auth.appRole.value.secretRef.name != ""
    case AppRoleKey => v.auth.appRole.Some? ==> v.auth.appRole.value.secretRef.key != ""
    case KubeRole => v.auth.kubernetes.Some? ==> v.auth.kubernetes.value.role != ""
    case KubeEither =>
      v.auth.kubernetes.Some? ==> v.auth.kubernetes.value.secretRef.name != "" || v.auth.kubernetes.value.serviceAccountRef.Some?
    case KubeSingle =>
      v.auth.kubernetes.Some? ==> v.auth.kubernetes.value.secretRef.name == "" || v.auth.kubernetes.value.serviceAccountRef.None?
  }

  function Complaint(rule: Rule): string {
    match rule
    case ServerAndPath => SERVER_AND_PATH_REQUIRED
    case SomeAuth => AUTH_REQUIRED
    case OneAuth => MULTIPLE_AUTH
    case TokenName => TOKEN_NAME_REQUIRED
    case AppRoleFields => APP_ROLE_FIELDS_REQUIRED
    case AppRoleKey => APP_ROLE_KEY_REQUIRED
    case KubeRole => KUBE_ROLE_REQUIRED
    case KubeEither => KUBE_EITHER_REQUIRED
    case KubeSingle => KUBE_SINGLE_REQUIRED
  }

  ghost predicate BreaksFirst(v: VaultIssuer, i: int) {
    0 <= i < |RULES| && !Obeys(v, RULES[i]) && forall j :: 0 <= j < i ==> Obeys(v, RULES[j])
  }

  /** The complaint is about the first rule in the list that the spec breaks, and about nothing else. */
  lemma ComplaintIsFirstBroken(v: VaultIssuer)
    ensures match ValidationError(Some(v))
            case None => forall rule :: Obeys(v, rule)
            case Some(message) => exists i :: BreaksFirst(v, i) && message == Complaint(RULES[i])
  {
    SelectFinds(PRECEDENCE, v.auth);
    forall m: Method ensures m in PRECEDENCE { OrderHasAll(PRECEDENCE, m); }
    match ValidationError(Some(v))
    case None => AcceptedIffUsable(v);
    case Some(_) =>
      var i := if !Obeys(v, ServerAndPath) then 0 else if !Obeys(v, SomeAuth) then 1 else if !Obeys(v, OneAuth) then 2
               else if !Obeys(v, TokenName) then 3 else if !Obeys(v, AppRoleFields) then 4 else if !Obeys(v, AppRoleKey) then 5
               else if !Obeys(v, KubeRole) then 6 else if !Obeys(v, KubeEither) then 7 else 8;
      assert BreaksFirst(v, i);
  }

  // ---------------------------------------------------------------- Check

  /**
   What issuer-lib hands to the controller. `Foreign` is not a cert-manager issuer; `unwraps` says whether
   Unwrap gives a cmapi.GenericIssuer.
   */
  datatype IssuerObject = Foreign(namespace: string) | InTree(issuer: Issuer, unwraps: bool)

  /** nil, or the error that Check returns. */
  function Check(o: Options, env: Env, r: Reader, obj: IssuerObject): Option<GoError> {
    match obj
    case Foreign(_) => Some(PermanentError(Plain("issuer does not implement intree.CMGenericIssuer")))
    case InTree(iss, unwraps) =>
      match ValidationError(iss.vault)
      case Some(message) => Some(PermanentError(Plain(message)))
      case None =>
        if !unwraps then Some(PermanentError(Plain("issuer does not implement cmapi.GenericIssuer"))) else
        var built := New(env, r, ResourceNamespace(o, iss), CanUseAmbientCredentials(o, iss), iss, iss.vault.value);
        match built.res
        case Err(e) => Some(Wrapped(CLIENT_INIT_FAILED, e))
        case Ok(clients) =>
          match HealthError(env, clients.clientSys)
          case Some(e) => Some(Wrapped(NOT_VERIFIED, e))
          case None => None
  }

  /** The calls that Check makes for an issuer that unwraps. */
  function CheckLog(o: Options, env: Env, r: Reader, iss: Issuer): seq<Effect> {
    if ValidationError(iss.vault).Some? then []
    else New(env, r, ResourceNamespace(o, iss), CanUseAmbientCredentials(o, iss), iss, iss.vault.value).log
  }

  /** A verdict that issuer-lib does not revisit until the generation changes. */
  predicate IsPermanent(verdict: Option<GoError>) {
    verdict.Some? && Has(verdict.value, AnyPermanent)
  }

  /** The condition under which Check decides without looking outside the issuer. */
  predicate DecidedByObject(obj: IssuerObject) {
    obj.Foreign? || ValidationError(obj.issuer.vault).Some? || !obj.unwraps
  }
}
