/** Sign: from a certificate request to a bundle or to an error that says whether trying again makes sense. */
module Signing {
  import opened Wrappers
  import opened GoErrors
  import opened VaultSpec
  import opened ClientSpec
  import opened SecretWatch
  import opened IssuerCheck
  import opened CheckFacts
  import opened IndexFacts
  import opened CallFacts

  // ---------------------------------------------------------------- Vault.Sign

  /** What is read from the certificate request, the addresses and URIs as they are printed. */
  datatype Csr = Csr(commonName: string, dnsNames: seq<string>, ipAddresses: seq<string>, uris: seq<string>)

  datatype Details = Details(csrPem: string, duration: string)

  /**
   How each step of one signing exchange with Vault turns out; the first failing step ends the exchange. What becomes
   of the sign request may depend on the client that sends it, on its path and on its body.
   */
  datatype Exchange = Exchange(
    decodeCsr: Result<Csr, GoError>,
    encodeBody: Option<GoError>,
    send: (Conn, string, map<string, string>) -> Option<GoError>,
    decodeReply: Option<GoError>,
    parseMap: Option<GoError>,                      // certutil.ParsePKIMap
    toBundle: Option<GoError>,                      // ToCertBundle
    parseChain: Result<Certificates, GoError>,      // pki.ParseSingleCertificateChainPEM
    hasLeaf: bool,
    keysMatch: Result<bool, GoError>)

  datatype Certificates = Certificates(cert: string, ca: string)

  const WRONG_KEY := "the public key in the certificate returned by Vault does not match the public key in the CSR"

  /** extractCertificatesFromVaultCertificateSecret */
  function Extract(x: Exchange): Result<Certificates, GoError> {
    if x.parseMap.Some? then Err(Flattened("failed to decode response returned by vault", x.parseMap.value))
    else if x.toBundle.Some? then Err(Flattened("unable to convert certificate bundle to PEM bundle", x.toBundle.value))
    else if x.parseChain.Err? then Err(Wrapped("failed to parse certificate chain from vault", x.parseChain.error))
    else if !x.hasLeaf then Err(Plain("no certificate in the response returned by vault"))
    else Ok(x.parseChain.value)
  }

  /** strings.Join with a comma */
  function Join(names: seq<string>): string {
    if names == [] then ""
    else if |names| == 1 then names[0]
    else names[0] + "," + Join(names[1..])
  }

  function SignBody(csr: Csr, d: Details): map<string, string> {
    map["common_name" := csr.commonName,
        "alt_names" := Join(csr.dnsNames),
        "ip_sans" := Join(csr.ipAddresses),
        "uri_sans" := Join(csr.uris),
        "ttl" := d.duration,
        "csr" := d.csrPem,
        "exclude_cn_from_sans" := "true"]
  }

  /** The failure of sending the sign request over this client, if it fails. */
  function SendError(env: Env, client: Conn, path: string, d: Details, x: Exchange): Option<GoError>
    requires x.decodeCsr.Ok?
  {
    x.send(client, env.joinPath(["/v1", path]), SignBody(x.decodeCsr.value, d))
  }

  function VaultSign(env: Env, client: Conn, path: string, d: Details, x: Exchange): Result<Certificates, GoError> {
    if x.decodeCsr.Err? then Err(Wrapped("failed to decode CSR for signing", x.decodeCsr.error)) else
    if x.encodeBody.Some? then Err(Wrapped("failed to build vault request", x.encodeBody.value)) else
    var sent := SendError(env, client, path, d, x);
    if sent.Some? then Err(Wrapped("failed to sign certificate by vault", sent.value))
    else if x.decodeReply.Some? then Err(Wrapped("failed to decode response returned by vault", x.decodeReply.value))
    else if Extract(x).Err? then Err(Extract(x).error)
    else if x.keysMatch.Err? then Err(Wrapped("failed to compare public keys", x.keysMatch.error))
    else if !x.keysMatch.value then Err(Plain(WRONG_KEY))
    else Extract(x)
  }

  // ---------------------------------------------------------------- what is sent, and what it takes to succeed

  /** The names that a joined text stands for can be read back from it. */
  predicate Separable(names: seq<string>) {
    forall i :: 0 <= i < |names| ==> names[i] != "" && ',' !in names[i]
  }

  /** A text up to its first comma. */
  lemma FirstNameIsClear(a: string, b: string, rest: string, rest': string)
    requires ',' !in a && ',' !in b && a + rest == b + rest'
    requires (rest == "" || rest[0] == ',') && (rest' == "" || rest'[0] == ',')
    ensures a == b && rest == rest'
  {
    var s := a + rest;
    assert s == b + rest';
    assert rest != "" ==> s[|a|] == ',';
    assert rest' != "" ==> s[|b|] == ',';
    assert forall i :: 0 <= i < |a| ==> s[i] == a[i];
    assert forall i :: 0 <= i < |b| ==> s[i] == b[i];
    assert |a| == |b|;
    assert a == s[..|a|] && b == s[..|a|] && rest == s[|a|..] && rest' == s[|a|..];
  }

  function Tail(names: seq<string>): string
    requires names != []
  {
    if |names| == 1 then "" else "," + Join(names[1..])
  }

  /** Vault is asked for the names of the request and no others: the joined text determines them, in their order. */
  lemma {:induction false} JoinIsInjective(xs: seq<string>, ys: seq<string>)
    requires Separable(xs) && Separable(ys) && Join(xs) == Join(ys)
    ensures xs == ys
  {
    assert xs != [] ==> Join(xs) == xs[0] + Tail(xs);
    assert ys != [] ==> Join(ys) == ys[0] + Tail(ys);
    if xs != [] && ys != [] {
      FirstNameIsClear(xs[0], ys[0], Tail(xs), Tail(ys));
      if |xs| > 1 && |ys| > 1 {
        assert Join(xs[1..]) == Tail(xs)[1..] && Join(ys[1..]) == Tail(ys)[1..];
        JoinIsInjective(xs[1..], ys[1..]);
      }
      assert xs == [xs[0]] + xs[1..] && ys == [ys[0]] + ys[1..];
    }
  }

  /** A body that asks for just this certificate: the request and its lifetime as given, and only its own names. */
  ghost predicate AsksFor(body: map<string, string>, csr: Csr, d: Details) {
    && body.Keys == {"common_name", "alt_names", "ip_sans", "uri_sans", "ttl", "csr", "exclude_cn_from_sans"}
    && body["common_name"] == csr.commonName && body["csr"] == d.csrPem && body["ttl"] == d.duration
    && body["exclude_cn_from_sans"] == "true"
    && IsListOf(body["alt_names"], csr.dnsNames) && IsListOf(body["ip_sans"], csr.ipAddresses) && IsListOf(body["uri_sans"], csr.uris)
  }

  /** The text is the join of these names, and of no others that can be read back. */
  ghost predicate IsListOf(text: string, names: seq<string>) {
    text == Join(names) && (Separable(names) ==> forall others :: Separable(others) && Join(others) == text ==> others == names)
  }

  lemma OnlySignBodyAsksFor(csr: Csr, d: Details)
    ensures forall body :: AsksFor(body, csr, d) <==> body == SignBody(csr, d)
  {
    forall names ensures IsListOf(Join(names), names) {
      forall others | Separable(names) && Separable(others) && Join(others) == Join(names) ensures others == names {
        JoinIsInjective(others, names);
      }
    }
    forall body | AsksFor(body, csr, d) ensures body == SignBody(csr, d) {
      assert body.Keys == SignBody(csr, d).Keys;
    }
  }

  /** The sign request goes out over this client to the issuer's path, asks for just this certificate, and is granted. */
  ghost predicate IsGranted(env: Env, client: Conn, path: string, d: Details, x: Exchange)
    requires x.decodeCsr.Ok?
  {
    exists body :: AsksFor(body, x.decodeCsr.value, d) && x.send(client, env.joinPath(["/v1", path]), body).None?
  }

  /**
   An exchange succeeds exactly if its request is granted, the reply holds a chain with a leaf, and the leaf's public
   key is the one that was asked for; what comes back is that chain.
   */
  lemma VaultSignSucceedsIff(env: Env, client: Conn, path: string, d: Details, x: Exchange, certs: Certificates)
    ensures VaultSign(env, client, path, d, x) == Ok(certs) <==>
            && x.decodeCsr.Ok? && x.encodeBody.None? && IsGranted(env, client, path, d, x)
            && x.decodeReply.None? && x.parseMap.None? && x.toBundle.None? && x.parseChain == Ok(certs)
            && x.hasLeaf && x.keysMatch == Ok(true)
  {
    if x.decodeCsr.Ok? {
      OnlySignBodyAsksFor(x.decodeCsr.value, d);
    }
  }

  // ---------------------------------------------------------------- classification

  function ClassifySigningError(e: GoError): GoError {
    var found := As(e, AnyResponse);
    AsIsResponse(e);
    if && found.Some?
       && found.value.status != 408
       && found.value.status != 412
       && found.value.status != 429
       && found.value.status < 500
    then PermanentError(Wrapped("vault refused to sign the certificate", e))
    else Wrapped("failed to sign certificate", e)
  }

  lemma AsIsResponse(e: GoError)
    ensures As(e, AnyResponse).Some? ==> As(e, AnyResponse).value.ResponseError?
  {
    if Has(e, AnyResponse) {
      AsFindsMatch(e, AnyResponse);
    }
  }

  /** A request timeout, a failed precondition, too many requests, or a server error. */
  predicate Transient(status: int) {
    status in {408, 412, 429} || status >= 500
  }

  /** The leftmost Vault response in the tree says no. */
  ghost predicate Refused(e: GoError) {
    exists i :: 0 <= i < |Chain(e)| && Chain(e)[i].ResponseError? && !Transient(Chain(e)[i].status)
      && forall j :: 0 <= j < i ==> !Chain(e)[j].ResponseError?
  }

  lemma RefusedIsFirstResponse(e: GoError)
    ensures Refused(e) <==> exists s :: As(e, AnyResponse) == Some(ResponseError(s)) && !Transient(s)
  {
    AsIsFirst(e, AnyResponse);
    FirstMatchPosition(Chain(e), AnyResponse);
    var c, found := Chain(e), As(e, AnyResponse);
    if found.Some? {
      var i :| 0 <= i < |c| && c[i] == found.value && Matches(c[i], AnyResponse)
        && forall j :: 0 <= j < i ==> !Matches(c[j], AnyResponse);
      assert found == Some(ResponseError(c[i].status));
      if k :| 0 <= k < |c| && c[k].ResponseError? && forall j :: 0 <= j < k ==> !c[j].ResponseError? {
        assert k == i by {
          assert Matches(c[k], AnyResponse) && Matches(c[i], AnyResponse);
        }
      }
    } else {
      assert forall i :: 0 <= i < |c| ==> !Matches(c[i], AnyResponse);
    }
  }

  /** The classified error still holds the original, and it is permanent exactly when Vault refused. */
  lemma ClassificationIsExact(e: GoError)
    ensures e in Chain(ClassifySigningError(e))
    ensures Has(ClassifySigningError(e), AnyPermanent) <==> Refused(e) || Has(e, AnyPermanent)
    ensures As(ClassifySigningError(e), AnyResponse) == As(e, AnyResponse)
  {
    RefusedIsFirstResponse(e);
    AsIsResponse(e);
    var c := ClassifySigningError(e);
    assert Chain(e)[0] == e;
    if c.PermanentError? {
      assert Chain(c) == [c] + Chain(c.err) && Chain(c.err) == [c.err] + Chain(e);
      assert As(e, AnyResponse) == Some(ResponseError(As(e, AnyResponse).value.status));
    } else {
      assert Chain(c) == [c] + Chain(e);
    }
  }

  /** No stack of layers that brings neither a response nor a permanent error changes the verdict. */
  lemma LayersKeepVerdict(ls: seq<Layer>, e: GoError)
    requires forall i :: 0 <= i < |ls| ==> Quiet(ls[i], AnyResponse) && Quiet(ls[i], AnyPermanent)
    ensures Has(ClassifySigningError(WrapAll(ls, e)), AnyPermanent) <==> Has(ClassifySigningError(e), AnyPermanent)
  {
    QuietLayersAreInvisible(ls, e, AnyResponse);
    QuietLayersAreInvisible(ls, e, AnyPermanent);
    ClassificationIsExact(e);
    ClassificationIsExact(WrapAll(ls, e));
    RefusedIsFirstResponse(e);
    RefusedIsFirstResponse(WrapAll(ls, e));
  }

  // ---------------------------------------------------------------- the controller's Sign

  datatype Bundle = Bundle(ca: string, chain: string)

  function ClientFailure(e: GoError): GoError {
    var wrapped := Wrapped(CLIENT_INIT_FAILED, e);
    IssuerError(if Has(e, AnyInvalidData) then PermanentError(wrapped) else wrapped)
  }

  function SignWithClient(env: Env, client: Conn, path: string, details: Result<Details, GoError>, x: Exchange): Result<Bundle, GoError> {
    if details.Err? then
      Err(PermanentError(Wrapped("failed to read certificate details from the request", details.error)))
    else
      match VaultSign(env, client, path, details.value, x)
      case Err(e) => Err(ClassifySigningError(e))
      case Ok(certs) => Ok(Bundle(certs.ca, certs.cert))
  }

  function BuildClient(o: Options, env: Env, r: Reader, iss: Issuer): Result<Clients, GoError>
    requires !IgnoreIssuer(iss)
  {
    New(env, r, ResourceNamespace(o, iss), CanUseAmbientCredentials(o, iss), iss, iss.vault.value).res
  }

  /** Sign is only called for issuers that are not ignored. */
  function Sign(o: Options, env: Env, r: Reader, obj: IssuerObject, details: Result<Details, GoError>, x: Exchange)
    : Result<Bundle, GoError>
    requires obj.InTree? ==> !IgnoreIssuer(obj.issuer)
  {
    match obj
    case Foreign(_) => Err(PermanentError(Plain("issuer does not implement CMGenericIssuer")))
    case InTree(iss, unwraps) =>
      if !unwraps then Err(Plain("issuer does not implement cmapi.GenericIssuer")) else
      match BuildClient(o, env, r, iss)
      case Err(e) => Err(ClientFailure(e))
      case Ok(clients) => SignWithClient(env, clients.client, iss.vault.value.path, details, x)
  }

  /**
   Besides the reply to the sign request itself, no step whose error is passed on with `%w` reports a response or a
   permanent error. Nothing is asked of the steps whose errors are only shown.
   */
  ghost predicate OnlySendMayRefuse(x: Exchange) {
    && (x.decodeCsr.Err? ==> Harmless(x.decodeCsr.error))
    && (x.encodeBody.Some? ==> Harmless(x.encodeBody.value))
    && (forall c, path, body :: x.send(c, path, body).Some? ==> !Has(x.send(c, path, body).value, AnyPermanent))
    && (x.decodeReply.Some? ==> Harmless(x.decodeReply.value))
    && (x.parseChain.Err? ==> Harmless(x.parseChain.error))
    && (x.keysMatch.Err? ==> Harmless(x.keysMatch.error))
  }

  predicate Harmless(e: GoError) {
    !Has(e, AnyResponse) && !Has(e, AnyPermanent)
  }

  /** The sign request was sent over this client and Vault refused it. */
  ghost predicate VaultRefused(env: Env, client: Conn, path: string, d: Details, x: Exchange) {
    && x.decodeCsr.Ok? && x.encodeBody.None?
    && exists body :: AsksFor(body, x.decodeCsr.value, d)
         && var sent := x.send(client, env.joinPath(["/v1", path]), body); sent.Some? && Refused(sent.value)
  }

  lemma RefusedIsSendError(env: Env, client: Conn, path: string, d: Details, x: Exchange)
    requires x.decodeCsr.Ok? && x.encodeBody.None?
    ensures var sent := SendError(env, client, path, d, x);
            VaultRefused(env, client, path, d, x) <==> sent.Some? && Refused(sent.value)
  {
    OnlySignBodyAsksFor(x.decodeCsr.value, d);
  }

  lemma ExtractErrorIsHarmless(x: Exchange)
    requires Extract(x).Err? && (x.parseChain.Err? ==> Harmless(x.parseChain.error))
    ensures Harmless(Extract(x).error)
  {
    var e := Extract(x).error;
    if e.Wrapped? {
      WrappedHas(e.msg, e.err, AnyPermanent);
      WrappedHas(e.msg, e.err, AnyResponse);
    }
  }

  /** Of all steps of an exchange only the sign request itself can make its failure a refusal. */
  lemma VaultSignRefusedIff(env: Env, client: Conn, path: string, d: Details, x: Exchange)
    requires OnlySendMayRefuse(x) && VaultSign(env, client, path, d, x).Err?
    ensures var e := VaultSign(env, client, path, d, x).error;
            !Has(e, AnyPermanent) && (Refused(e) <==> VaultRefused(env, client, path, d, x))
  {
    var e := VaultSign(env, client, path, d, x).error;
    RefusedIsFirstResponse(e);
    if Extract(x).Err? { ExtractErrorIsHarmless(x); }
    if e.Wrapped? {
      WrappedHas(e.msg, e.err, AnyPermanent);
      WrappedHas(e.msg, e.err, AnyResponse);
    }
    if x.decodeCsr.Ok? && x.encodeBody.None? {
      RefusedIsSendError(env, client, path, d, x);
      var sent := SendError(env, client, path, d, x);
      if sent.Some? { RefusedIsFirstResponse(sent.value); }
    }
  }

  /** A reply that cannot be turned into a bundle is asked for again, even if the error shown in the text is a refusal. */
  lemma UnreadableReplyIsRetried(env: Env, client: Conn, path: string, d: Details, x: Exchange)
    requires x.decodeCsr.Ok? && x.encodeBody.None? && IsGranted(env, client, path, d, x) && x.decodeReply.None?
    requires x.parseMap.Some? || x.toBundle.Some?
    ensures var res := VaultSign(env, client, path, d, x);
            res.Err? && !Has(ClassifySigningError(res.error), AnyPermanent)
  {
    OnlySignBodyAsksFor(x.decodeCsr.value, d);
    assert SendError(env, client, path, d, x).None?;
    var e := VaultSign(env, client, path, d, x).error;
    assert e.Flattened?;
    WrappedHas("failed to sign certificate", e, AnyPermanent);
  }

  lemma SignWithClientVerdict(env: Env, client: Conn, path: string, details: Result<Details, GoError>, x: Exchange)
    requires OnlySendMayRefuse(x)
    ensures var res := SignWithClient(env, client, path, details, x);
            && (res.Err? ==> !res.error.IssuerError?)
            && (res.Err? && Has(res.error, AnyPermanent) <==>
                  details.Err? || VaultRefused(env, client, path, details.value, x))
  {
    if details.Ok? {
      var signed := VaultSign(env, client, path, details.value, x);
      if signed.Err? {
        VaultSignRefusedIff(env, client, path, details.value, x);
        ClassificationIsExact(signed.error);
      } else {
        VaultSignSucceedsIff(env, client, path, details.value, x, signed.value);
        RefusedIsSendError(env, client, path, details.value, x);
      }
    }
  }

  lemma ClientFailureVerdict(e: GoError)
    requires !Has(e, AnyPermanent)
    ensures ClientFailure(e).IssuerError? && (Has(ClientFailure(e), AnyPermanent) <==> Has(e, AnyInvalidData))
  {
    WrappedHas(CLIENT_INIT_FAILED, e, AnyPermanent);
    var inner := ClientFailure(e).err;
    assert As(ClientFailure(e), AnyPermanent) == As(inner, AnyPermanent);
    assert inner.PermanentError? ==> As(inner, AnyPermanent) == Some(inner);
  }

  /** New gets as far as setToken and finds no auth method there. */
  predicate ReachesNoMethod(o: Options, env: Env, r: Reader, iss: Issuer)
    requires !IgnoreIssuer(iss)
  {
    var v := iss.vault.value;
    var cfg := NewConfig(env, r, ResourceNamespace(o, iss), v).res;
    cfg.Ok? && env.newClientError(cfg.value).None? && Select(PRECEDENCE, v.auth).None?
  }

  lemma BuildErrorIsPlain(o: Options, env: Env, r: Reader, iss: Issuer)
    requires !IgnoreIssuer(iss)
    requires OutsideFreeOf(env, r, AnyPermanent) && OutsideFreeOf(env, r, AnyInvalidData)
    ensures var built := BuildClient(o, env, r, iss);
            && (built.Err? ==> !Has(built.error, AnyPermanent))
            && (built.Err? && Has(built.error, AnyInvalidData) <==> ReachesNoMethod(o, env, r, iss))
  {
    var ns, amb, v := ResourceNamespace(o, iss), CanUseAmbientCredentials(o, iss), iss.vault.value;
    NewErrorIsPlain(env, r, ns, amb, iss, v, AnyPermanent);
    NewErrorIsPlain(env, r, ns, amb, iss, v, AnyInvalidData);
    ConfigErrorIsPlain(env, r, ns, v, AnyInvalidData);
  }

  /**
   End to end: the issuer is blamed exactly when no client could be built, and for good exactly when that is because
   setToken found no auth method, which validation rules out. Otherwise the request fails for good exactly when its
   details cannot be read or Vault refused to sign.
   */
  lemma SignVerdict(o: Options, env: Env, r: Reader, iss: Issuer, details: Result<Details, GoError>, x: Exchange)
    requires !IgnoreIssuer(iss)
    requires OutsideFreeOf(env, r, AnyPermanent) && OutsideFreeOf(env, r, AnyInvalidData)
    requires OnlySendMayRefuse(x)
    ensures var res, built := Sign(o, env, r, InTree(iss, true), details, x), BuildClient(o, env, r, iss);
            && (res.Err? && res.error.IssuerError? <==> built.Err?)
            && (res.Err? && res.error.IssuerError? && Has(res.error, AnyPermanent) <==> ReachesNoMethod(o, env, r, iss))
            && (res.Err? && !res.error.IssuerError? && Has(res.error, AnyPermanent) <==>
                  built.Ok? && (details.Err? || VaultRefused(env, built.value.client, iss.vault.value.path, details.value, x)))
    ensures ValidationError(iss.vault).None? ==> !ReachesNoMethod(o, env, r, iss)
  {
    var built := BuildClient(o, env, r, iss);
    BuildErrorIsPlain(o, env, r, iss);
    if built.Err? {
      ClientFailureVerdict(built.error);
    } else {
      SignWithClientVerdict(env, built.value.client, iss.vault.value.path, details, x);
    }
    if ValidationError(iss.vault).None? {
      AcceptedSelects(PRECEDENCE, iss.vault.value);
    }
  }

  /** The settings of the spec with a token, in the issuer's Vault namespace. */
  ghost predicate IsSigningClient(o: Options, env: Env, r: Reader, iss: Issuer, client: Conn)
    requires !IgnoreIssuer(iss)
  {
    var v, ns, d := iss.vault.value, ResourceNamespace(o, iss), client.dial;
    && d.address == v.server && d.serverName == v.serverName && client.namespace == v.namespace
    && Trusts(env, r, ns, v, d.rootCAs) && Presents(env, r, ns, v, d.certificates)
    && Obtains(env, r, ns, CanUseAmbientCredentials(o, iss), iss, v, d, client.token)
  }

  lemma BuiltClientIs(o: Options, env: Env, r: Reader, iss: Issuer, client: Conn)
    requires !IgnoreIssuer(iss)
    ensures var built := BuildClient(o, env, r, iss);
            built.Ok? && built.value.client == client <==> IsSigningClient(o, env, r, iss, client)
  {
    NewSucceedsIff(env, r, ResourceNamespace(o, iss), CanUseAmbientCredentials(o, iss), iss, iss.vault.value,
                   Clients(client, client.(namespace := "")));
    var built := BuildClient(o, env, r, iss);
    if built.Ok? {
      NewSucceedsIff(env, r, ResourceNamespace(o, iss), CanUseAmbientCredentials(o, iss), iss, iss.vault.value, built.value);
    }
  }

  /**
   A request is signed exactly if there is a client with the issuer's settings, a token and the issuer's Vault
   namespace, the details can be read, that client's request to the issuer's path is granted, and the reply holds a
   chain whose leaf has the public key that was asked for. The bundle is that chain.
   */
  lemma SignSucceedsIff(o: Options, env: Env, r: Reader, obj: IssuerObject, details: Result<Details, GoError>, x: Exchange, b: Bundle)
    requires obj.InTree? ==> !IgnoreIssuer(obj.issuer)
    ensures Sign(o, env, r, obj, details, x) == Ok(b) <==>
            && obj.InTree? && obj.unwraps && details.Ok?
            && x.decodeCsr.Ok? && x.encodeBody.None? && x.decodeReply.None? && x.parseMap.None? && x.toBundle.None?
            && x.parseChain == Ok(Certificates(b.chain, b.ca)) && x.hasLeaf && x.keysMatch == Ok(true)
            && exists client :: IsSigningClient(o, env, r, obj.issuer, client)
                 && IsGranted(env, client, obj.issuer.vault.value.path, details.value, x)
  {
    if obj.InTree? && obj.unwraps {
      var iss := obj.issuer;
      var built := BuildClient(o, env, r, iss);
      forall client ensures built.Ok? && built.value.client == client <==> IsSigningClient(o, env, r, iss, client) {
        BuiltClientIs(o, env, r, iss, client);
      }
      if built.Ok? && details.Ok? {
        VaultSignSucceedsIff(env, built.value.client, iss.vault.value.path, details.value, x, Certificates(b.chain, b.ca));
      }
    }
  }

  /** Nothing else that goes wrong is taken for the issuer's fault; a foreign object is hopeless, one that does not unwrap is not. */
  lemma SignOfOtherObjects(o: Options, env: Env, r: Reader, obj: IssuerObject, details: Result<Details, GoError>, x: Exchange)
    requires obj.InTree? ==> !IgnoreIssuer(obj.issuer) && !obj.unwraps
    ensures var res := Sign(o, env, r, obj, details, x);
            res.Err? && !res.error.IssuerError? && (Has(res.error, AnyPermanent) <==> obj.Foreign?)
  {
  }

  /** Whatever Sign answers, the error that caused it can still be found in it. */
  lemma SignKeepsCause(o: Options, env: Env, r: Reader, iss: Issuer, details: Result<Details, GoError>, x: Exchange)
    requires !IgnoreIssuer(iss)
    ensures var res, built := Sign(o, env, r, InTree(iss, true), details, x), BuildClient(o, env, r, iss);
            if built.Err? then res.Err? && built.error in Chain(res.error)
            else if details.Err? then res.Err? && details.error in Chain(res.error)
            else if x.decodeCsr.Err? then res.Err? && x.decodeCsr.error in Chain(res.error)
            else if x.encodeBody.Some? then res.Err? && x.encodeBody.value in Chain(res.error)
            else var sent := SendError(env, built.value.client, iss.vault.value.path, details.value, x);
                 sent.Some? ==> res.Err? && sent.value in Chain(res.error)
  {
    var built := BuildClient(o, env, r, iss);
    if built.Err? {
      WrapTwiceKeeps("Failed to initialize Vault client", built.error);
    } else if details.Ok? {
      var signed := VaultSign(env, built.value.client, iss.vault.value.path, details.value, x);
      if signed.Err? && signed.error.Wrapped? {
        ClassifyKeeps(signed.error.msg, signed.error.err);
      }
    } else {
      WrapTwiceKeeps("failed to read certificate details from the request", details.error);
    }
  }

  lemma WrapTwiceKeeps(msg: string, e: GoError)
    ensures e in Chain(Wrapped(msg, e)) && e in Chain(PermanentError(Wrapped(msg, e)))
    ensures e in Chain(IssuerError(Wrapped(msg, e))) && e in Chain(IssuerError(PermanentError(Wrapped(msg, e))))
  {
    assert Chain(e)[0] == e;
    var w := Wrapped(msg, e);
    assert Chain(w) == [w] + Chain(e);
    var p := PermanentError(w);
    assert Chain(p) == [p] + Chain(w);
    assert Chain(IssuerError(w)) == [IssuerError(w)] + Chain(w);
    assert Chain(IssuerError(p)) == [IssuerError(p)] + Chain(p);
  }

  lemma ClassifyKeeps(msg: string, e: GoError)
    ensures e in Chain(ClassifySigningError(Wrapped(msg, e)))
  {
    WrapTwiceKeeps(msg, e);
    var w := Wrapped(msg, e);
    var c := ClassifySigningError(w);
    if c.PermanentError? {
      assert Chain(c) == [c] + Chain(c.err) && Chain(c.err) == [c.err] + Chain(w);
    } else {
      assert Chain(c) == [c] + Chain(w);
    }
  }
}
