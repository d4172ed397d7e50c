/**
  A client of the OpenStack Keystone identity service, as one immutable state record and pure
  step functions. What the program gets from outside (the identity service's reply to a POST, the
  wall clock, the RFC 3339 timestamp parser, the files holding TLS material) is passed in, and every
  step returns the new client state together with the request it sent.
 */
module Keystone {
  import opened Options
  import opened Strings
  import GoTime

  /** The configuration fixed when the client is constructed. */
  datatype Credentials = Credentials(
    tenantName: string,
    username: string,
    password: string,
    adminToken: string,
    domainName: string,
    projectName: string,
    projectDomainName: string)

  /**
    The HTTP transport used to reach the identity service, reduced to its TLS behaviour:
    Go's default transport, certificate verification switched off, a private CA pool, or a
    private CA pool plus a client certificate for mutual TLS.
   */
  datatype Transport =
    | DefaultTransport
    | SkipVerify
    | RootCA(caPem: string)
    | RootCAWithCert(caPem: string, keyPair: string)

  /** The state of one `KeystoneClient`. */
  datatype Client = Client(
    authURL: string,
    creds: Credentials,
    transport: Transport,
    tokenID: string,
    issuedAt: string,
    expiresAt: string,
    isV3: bool)

  /** A `KeepaliveKeystoneClient`: the same state, decorated with the proactive refresh check. */
  datatype KeepaliveClient = KeepaliveClient(base: Client)

  /** The JSON body of an authentication POST. */
  datatype RequestBody =
    | TokenRequest(id: string)
    | CredentialsRequest(tenantName: string, username: string, password: string)
    | CredentialsRequestV3(
        methods: seq<string>,
        userDomain: string,
        username: string,
        password: string,
        projectName: string,
        projectDomain: string)

  /** One POST to the identity service: where it went, what it carried and over which transport. */
  datatype Request = Request(url: string, body: RequestBody, transport: Transport)

  /** `access.token` of a v2 reply body. */
  datatype TokenV2 = TokenV2(id: string, issuedAt: string, expires: string)

  /** `token` of a v3 reply body; the v3 token id travels in a header instead. */
  datatype TimesV3 = TimesV3(issuedAt: string, expiresAt: string)

  /**
    What the identity service does with a POST: the call fails, reading the body fails, or a reply
    arrives. `subjectToken` is the `X-Subject-Token` header ("" when absent); `asV2` and `asV3` are
    the outcomes of decoding the body into the v2 and the v3 response schema.
   */
  datatype Response =
    | PostFailed(reason: string)
    | ReadFailed(reason: string)
    | Reply(
        code: int,
        status: string,
        body: string,
        subjectToken: string,
        asV2: Option<TokenV2>,
        asV3: Option<TimesV3>)

  datatype Error =
    | PostError(reason: string)
    | ReadError(reason: string)
    | StatusError(message: string)
    | DecodeError
    | TimeParseError(value: string)

  /** The outcome of one authentication exchange. */
  datatype AuthResult = AuthResult(client: Client, sent: Request, err: Option<Error>)

  /** The outcome of decorating one outbound request. */
  datatype Decorated<C> = Decorated(
    client: C,
    sent: seq<Request>,
    headers: map<string, string>,
    err: Option<Error>)

  /** The answer of the refresh check: Go's `(bool, error)` pair. */
  datatype RefreshCheck = RefreshCheck(needed: bool, err: Option<Error>)

  /** Outcomes of file access: `ioutil.ReadFile` and `tls.LoadX509KeyPair(certFile, keyFile)`. */
  datatype FileSystem = FileSystem(
    readFile: string -> Option<string>,
    loadKeyPair: (string, string) -> Option<string>)

  /** RFC 3339 (section 5.6) date-time parsing, to nanoseconds; undefined on malformed text. */
  type TimeParser = string -> Option<int>

  const AuthHeader: string := "X-Auth-Token"
  const V2Suffix: string := "tokens"
  const V3Suffix: string := "v3/auth/tokens"
  const StatusOK: int := 200
  const StatusCreated: int := 201

  /** A file system on which nothing can be read. */
  const NoFiles: FileSystem := FileSystem((p: string) => None, (c: string, k: string) => None)

  // ---------------------------------------------------------------------------------------------
  // Construction

  /** `NewKeystoneClient`: all eight settings, no token, v2, the default transport. */
  function NewKeystoneClient(
    authURL: string, tenantName: string, username: string, password: string, token: string,
    domainName: string, projectName: string, projectDomainName: string): (c: Client)
    ensures c.authURL == authURL && c.creds.adminToken == token
    ensures c.creds.tenantName == tenantName && c.creds.projectName == projectName
    ensures c.creds.username == username && c.creds.password == password
    ensures c.creds.domainName == domainName && c.creds.projectDomainName == projectDomainName
    ensures c.tokenID == "" && c.issuedAt == "" && c.expiresAt == ""
    ensures !c.isV3 && c.transport == DefaultTransport
  {
    Client(authURL,
      Credentials(tenantName, username, password, token, domainName, projectName, projectDomainName),
      DefaultTransport, "", "", "", false)
  }

  /** `NewKeepaliveKeystoneClient`: takes no project name and no project domain; both stay empty. */
  function NewKeepaliveKeystoneClient(
    authURL: string, tenantName: string, username: string, password: string, token: string,
    domainName: string): (k: KeepaliveClient)
    ensures k.base.authURL == authURL && k.base.creds.adminToken == token
    ensures k.base.creds.tenantName == tenantName && k.base.creds.domainName == domainName
    ensures k.base.creds.username == username && k.base.creds.password == password
    ensures k.base.creds.projectName == "" && k.base.creds.projectDomainName == ""
    ensures k.base.tokenID == "" && k.base.issuedAt == "" && k.base.expiresAt == ""
    ensures !k.base.isV3 && k.base.transport == DefaultTransport
  {
    KeepaliveClient(NewKeystoneClient(authURL, tenantName, username, password, token, domainName, "", ""))
  }

  // ---------------------------------------------------------------------------------------------
  // Authentication

  /**
    The endpoint: `base`, a `/` unless `base` already ends in one, then `suffix`. Go indexes the
    last byte of `base`, so an empty base is a run-time panic there.
   */
  function BuildURL(base: string, suffix: string): (r: string)
    requires |base| > 0
    ensures HasPrefix(r, base)
    ensures |r| >= |suffix| + 1 && r[|r| - |suffix| - 1..] == "/" + suffix
    ensures |r| == |base| + |suffix| + (if base[|base| - 1] == '/' then 0 else 1)
  {
    if base[|base| - 1] != '/' then base + "/" + suffix else base + suffix
  }

  /** The v2 body: the admin token when one is configured, the tenant and password otherwise. */
  function V2Body(creds: Credentials): (b: RequestBody)
    ensures b.TokenRequest? <==> |creds.adminToken| > 0
    ensures b.TokenRequest? ==> b.id == creds.adminToken
    ensures b.CredentialsRequest? ==>
      b.tenantName == creds.tenantName && b.username == creds.username && b.password == creds.password
  {
    if |creds.adminToken| > 0 then TokenRequest(creds.adminToken)
    else CredentialsRequest(creds.tenantName, creds.username, creds.password)
  }

  /** The v3 body: password method, user in its domain, scoped to a project in its domain. */
  function V3Body(creds: Credentials): (b: RequestBody)
    ensures b.CredentialsRequestV3? && b.methods == ["password"]
    ensures b.username == creds.username && b.password == creds.password
    ensures b.userDomain == creds.domainName
    ensures b.projectName == creds.projectName && b.projectDomain == creds.projectDomainName
  {
    CredentialsRequestV3(["password"], creds.domainName, creds.username, creds.password,
      creds.projectName, creds.projectDomainName)
  }

  /** The client with a new token installed: all three token fields together, nothing else. */
  function WithToken(c: Client, id: string, issuedAt: string, expiresAt: string): Client {
    c.(tokenID := id, issuedAt := issuedAt, expiresAt := expiresAt)
  }

  /** A failed exchange leaves the token and both timestamps as they were. */
  predicate TokenUnchanged(c: Client, c': Client) {
    c'.tokenID == c.tokenID && c'.issuedAt == c.issuedAt && c'.expiresAt == c.expiresAt
  }

  /** The error a non-accepted reply yields: Go's `fmt.Errorf("%s: %s", resp.Status, body)`. */
  function StatusMessage(status: string, body: string): (m: string)
    ensures HasPrefix(m, status) && |m| == |status| + 2 + |body|
    ensures m[|status|..|status| + 2] == ": " && m[|status| + 2..] == body
  {
    status + ": " + body
  }

  /** `Authenticate`: one v2 POST to `<base>/tokens`; only 200 with a decodable body succeeds. */
  function Authenticate(c: Client, resp: Response): (r: AuthResult)
    requires |c.authURL| > 0
    ensures r.sent.url == BuildURL(c.authURL, V2Suffix)
    ensures r.sent.body == V2Body(c.creds) && r.sent.transport == c.transport
    ensures r.err.None? <==> resp.Reply? && resp.code == StatusOK && resp.asV2.Some?
    ensures r.err.None? ==>
      r.client == WithToken(c, resp.asV2.value.id, resp.asV2.value.issuedAt, resp.asV2.value.expires)
    ensures r.err.Some? ==> r.client == c
    ensures resp.PostFailed? ==> r.err == Some(PostError(resp.reason))
    ensures resp.ReadFailed? ==> r.err == Some(ReadError(resp.reason))
    ensures resp.Reply? && resp.code != StatusOK ==>
      r.err == Some(StatusError(StatusMessage(resp.status, resp.body)))
    ensures resp.Reply? && resp.code == StatusOK && resp.asV2.None? ==> r.err == Some(DecodeError)
  {
    var req := Request(BuildURL(c.authURL, V2Suffix), V2Body(c.creds), c.transport);
    match resp
    case PostFailed(e) => AuthResult(c, req, Some(PostError(e)))
    case ReadFailed(e) => AuthResult(c, req, Some(ReadError(e)))
    case Reply(code, status, body, _, asV2, _) =>
      if code != StatusOK then AuthResult(c, req, Some(StatusError(StatusMessage(status, body))))
      else match asV2
        case None => AuthResult(c, req, Some(DecodeError))
        case Some(t) => AuthResult(WithToken(c, t.id, t.issuedAt, t.expires), req, None)
  }

  /**
    `AuthenticateV3`: marks the client as v3, fixes the request URL from the auth URL as it is,
    then forces insecure TLS through `AddEncryption` (which also rewrites the auth URL's scheme),
    and sends one POST; 200 or 201 with a decodable body succeeds. The token id comes from the
    `X-Subject-Token` header, the timestamps from the body.
   */
  function AuthenticateV3(c: Client, resp: Response): (r: AuthResult)
    requires |c.authURL| > 0
    ensures r.sent.url == BuildURL(c.authURL, V3Suffix)
    ensures r.sent.body == V3Body(c.creds) && r.sent.transport == SkipVerify
    ensures r.client.isV3 && r.client.transport == SkipVerify
    ensures r.client.authURL == RewriteScheme(c.authURL) && r.client.creds == c.creds
    ensures r.err.None? <==>
      resp.Reply? && (resp.code == StatusOK || resp.code == StatusCreated) && resp.asV3.Some?
    ensures r.err.None? ==>
      r.client.tokenID == resp.subjectToken
      && r.client.issuedAt == resp.asV3.value.issuedAt
      && r.client.expiresAt == resp.asV3.value.expiresAt
    ensures r.err.Some? ==> TokenUnchanged(c, r.client)
    ensures resp.PostFailed? ==> r.err == Some(PostError(resp.reason))
    ensures resp.ReadFailed? ==> r.err == Some(ReadError(resp.reason))
    ensures resp.Reply? && resp.code != StatusOK && resp.code != StatusCreated ==>
      r.err == Some(StatusError(StatusMessage(resp.status, resp.body)))
    ensures resp.Reply? && (resp.code == StatusOK || resp.code == StatusCreated) && resp.asV3.None? ==>
      r.err == Some(DecodeError)
  {
    var c1 := c.(isV3 := true);
    var url := BuildURL(c1.authURL, V3Suffix);
    var c2 := AddEncryption(c1, "", "", "", true, NoFiles);
    var req := Request(url, V3Body(c.creds), c2.transport);
    match resp
    case PostFailed(e) => AuthResult(c2, req, Some(PostError(e)))
    case ReadFailed(e) => AuthResult(c2, req, Some(ReadError(e)))
    case Reply(code, status, body, subject, _, asV3) =>
      if code != StatusOK && code != StatusCreated then
        AuthResult(c2, req, Some(StatusError(StatusMessage(status, body))))
      else match asV3
        case None => AuthResult(c2, req, Some(DecodeError))
        case Some(t) => AuthResult(WithToken(c2, subject, t.issuedAt, t.expiresAt), req, None)
  }

  // ---------------------------------------------------------------------------------------------
  // Half-life refresh policy

  /** The instant after which a token issued at `issued` and expiring at `expires` is stale. */
  function RefreshInstant(issued: int, expires: int): (t: int)
    ensures 0 <= expires - issued <= GoTime.MaxDuration ==> 0 <= (expires - issued) - 2 * (t - issued) <= 1
    ensures GoTime.MinDuration <= expires - issued < 0 ==> -1 <= (expires - issued) - 2 * (t - issued) <= 0
    ensures expires - issued > GoTime.MaxDuration ==> t == issued + GoTime.MaxDuration / 2
    ensures expires - issued < GoTime.MinDuration ==> t == issued + GoTime.MinDuration / 2
  {
    issued + GoTime.Half(GoTime.Sub(expires, issued))
  }

  /**
    `needsRefreshing`: with no token, refresh; otherwise both timestamps must parse, and the token
    is stale once `now` is strictly after `issued + (expires - issued) / 2`.
   */
  function NeedsRefreshing(c: Client, parse: TimeParser, now: int): (r: RefreshCheck)
    ensures c.tokenID == "" ==> r == RefreshCheck(true, None)
    ensures c.tokenID != "" && parse(c.issuedAt).None? ==>
      r == RefreshCheck(false, Some(TimeParseError(c.issuedAt)))
    ensures c.tokenID != "" && parse(c.issuedAt).Some? && parse(c.expiresAt).None? ==>
      r == RefreshCheck(false, Some(TimeParseError(c.expiresAt)))
    ensures r.err.Some? ==> !r.needed
    ensures c.tokenID != "" && parse(c.issuedAt).Some? && parse(c.expiresAt).Some? ==>
      r.err.None? &&
      (r.needed <==> GoTime.After(now, RefreshInstant(parse(c.issuedAt).value, parse(c.expiresAt).value)))
  {
    if c.tokenID == "" then RefreshCheck(true, None)
    else match parse(c.issuedAt)
      case None => RefreshCheck(false, Some(TimeParseError(c.issuedAt)))
      case Some(issued) =>
        match parse(c.expiresAt)
        case None => RefreshCheck(false, Some(TimeParseError(c.expiresAt)))
        case Some(expires) => RefreshCheck(GoTime.After(now, RefreshInstant(issued, expires)), None)
  }

  // ---------------------------------------------------------------------------------------------
  // Decorating outbound requests

  /**
    `KeystoneClient.AddAuthentication`: authenticate only when no token is cached (v3 exactly when
    the client is a v3 client), then set `X-Auth-Token`; an authentication error is returned with
    the headers untouched.
   */
  function AddAuthentication(c: Client, headers: map<string, string>, resp: Response): (d: Decorated<Client>)
    requires c.tokenID == "" ==> |c.authURL| > 0
    ensures c.tokenID != "" ==>
      d == Decorated(c, [], headers[AuthHeader := c.tokenID], None)
    ensures c.tokenID == "" ==>
      |d.sent| == 1 && (d.sent[0].body.CredentialsRequestV3? <==> c.isV3)
    ensures c.tokenID == "" ==>
      var a := if c.isV3 then AuthenticateV3(c, resp) else Authenticate(c, resp);
      d.client == a.client && d.sent == [a.sent] && d.err == a.err
    ensures d.err.Some? ==> d.headers == headers && TokenUnchanged(c, d.client)
    ensures d.err.None? ==> d.headers == headers[AuthHeader := d.client.tokenID]
    ensures d.client.isV3 == c.isV3 && d.client.creds == c.creds
    ensures |d.client.authURL| >= |c.authURL|
  {
    if c.tokenID == "" then
      var a := if c.isV3 then AuthenticateV3(c, resp) else Authenticate(c, resp);
      RewriteSchemeLength(c.authURL);
      if a.err.Some? then Decorated(a.client, [a.sent], headers, a.err)
      else Decorated(a.client, [a.sent], headers[AuthHeader := a.client.tokenID], None)
    else
      Decorated(c, [], headers[AuthHeader := c.tokenID], None)
  }

  /** The refresh check found a cached token that must be replaced, or no token at all. */
  predicate WillAuthenticate(c: Client, parse: TimeParser, now: int) {
    NeedsRefreshing(c, parse, now) == RefreshCheck(true, None)
  }

  /**
    `KeepaliveKeystoneClient.AddAuthentication`: run the refresh check first; a check error is
    returned with nothing changed, a stale token is cleared, then the base decorator runs.
   */
  function KeepaliveAddAuthentication(
    k: KeepaliveClient, headers: map<string, string>, parse: TimeParser, now: int, resp: Response):
    (d: Decorated<KeepaliveClient>)
    requires WillAuthenticate(k.base, parse, now) ==> |k.base.authURL| > 0
    ensures NeedsRefreshing(k.base, parse, now).err.Some? ==>
      d == Decorated(k, [], headers, NeedsRefreshing(k.base, parse, now).err)
    ensures WillAuthenticate(k.base, parse, now) ==>
      |d.sent| == 1 && (d.sent[0].body.CredentialsRequestV3? <==> k.base.isV3)
    ensures WillAuthenticate(k.base, parse, now) ==>
      var b := AddAuthentication(k.base.(tokenID := ""), headers, resp);
      d == Decorated(KeepaliveClient(b.client), b.sent, b.headers, b.err)
    ensures WillAuthenticate(k.base, parse, now) && d.err.Some? ==>
      d.client.base.tokenID == ""
      && d.client.base.issuedAt == k.base.issuedAt && d.client.base.expiresAt == k.base.expiresAt
    ensures NeedsRefreshing(k.base, parse, now) == RefreshCheck(false, None) ==>
      d == Decorated(k, [], headers[AuthHeader := k.base.tokenID], None)
    ensures d.err.Some? ==> d.headers == headers
    ensures d.err.None? ==> d.headers == headers[AuthHeader := d.client.base.tokenID]
    ensures d.client.base.isV3 == k.base.isV3 && d.client.base.creds == k.base.creds
    ensures |d.client.base.authURL| >= |k.base.authURL|
  {
    var check := NeedsRefreshing(k.base, parse, now);
    if check.err.Some? then Decorated(k, [], headers, check.err)
    else
      var c := if check.needed then k.base.(tokenID := "") else k.base;
      var b := AddAuthentication(c, headers, resp);
      Decorated(KeepaliveClient(b.client), b.sent, b.headers, b.err)
  }

  // ---------------------------------------------------------------------------------------------
  // Transport security

  /** The scheme rewrite: a URL not starting with `https` has its first `http` turned into `https`. */
  function RewriteScheme(u: string): (r: string)
    ensures HasPrefix(u, "https") ==> r == u
    ensures (forall j :: !OccursAt(u, "http", j)) ==> r == u
    ensures forall i :: !HasPrefix(u, "https") && IsFirstOccurrence(u, "http", i) ==>
      r == u[..i] + "https" + u[i + 4..]
  {
    if HasPrefix(u, "https") then u else ReplaceFirst(u, "http", "https")
  }

  /** The rewrite never shortens the URL and lengthens it by at most the one `s` it inserts. */
  lemma RewriteSchemeLength(u: string)
    ensures |u| <= |RewriteScheme(u)| <= |u| + 1
  {
  }

  /**
    `AddEncryption`: rewrite the scheme, then build a transport: verification off when `insecure`;
    otherwise, with a CA file, a private CA pool and, with both cert and key files, a client
    certificate. A failed read or key-pair load returns success with the transport not installed;
    the Go function returns no error on any path.
   */
  function AddEncryption(
    c: Client, caFile: string, keyFile: string, certFile: string, insecure: bool, fs: FileSystem):
    (r: Client)
    ensures r.authURL == RewriteScheme(c.authURL)
    ensures r.(authURL := c.authURL, transport := c.transport) == c
    ensures insecure ==> r.transport == SkipVerify
    ensures !insecure && caFile == "" ==> r.transport == DefaultTransport
    ensures r.transport != c.transport && r.transport.RootCAWithCert? ==>
      !insecure && caFile != "" && certFile != "" && keyFile != ""
    ensures !insecure && caFile != "" && fs.readFile(caFile).None? ==> r.transport == c.transport
    ensures (!insecure && caFile != "" && certFile != "" && keyFile != ""
             && fs.loadKeyPair(certFile, keyFile).None?) ==> r.transport == c.transport
    ensures (!insecure && caFile != "" && fs.readFile(caFile).Some? && (certFile == "" || keyFile == "")) ==>
      r.transport == RootCA(fs.readFile(caFile).value)
    ensures (!insecure && caFile != "" && fs.readFile(caFile).Some? && certFile != "" && keyFile != ""
             && fs.loadKeyPair(certFile, keyFile).Some?) ==>
      r.transport == RootCAWithCert(fs.readFile(caFile).value, fs.loadKeyPair(certFile, keyFile).value)
  {
    var c1 := c.(authURL := RewriteScheme(c.authURL));
    if insecure then c1.(transport := SkipVerify)
    else if caFile != "" then
      match fs.readFile(caFile)
      case None => c1
      case Some(pem) =>
        if certFile != "" && keyFile != "" then
          match fs.loadKeyPair(certFile, keyFile)
          case None => c1
          case Some(pair) => c1.(transport := RootCAWithCert(pem, pair))
        else c1.(transport := RootCA(pem))
    else c1.(transport := DefaultTransport)
  }
}
