/** Properties that relate several calls of the Keystone client, or a call to a reference rule. */
module KeystoneProperties {
  import opened Options
  import opened Strings
  import GoTime
  import opened Keystone

  // ---------------------------------------------------------------------------------------------
  // Scheme rewrite

  /** A URL whose scheme is `http` comes out with scheme `https`; the rest of it is kept. */
  lemma RewriteSchemeSecuresHttp(u: string)
    requires HasPrefix(u, "http")
    ensures HasPrefix(RewriteScheme(u), "https")
    ensures !HasPrefix(u, "https") ==> RewriteScheme(u) == "https" + u[4..]
  {
  }

  /** On URLs that start with `http`, rewriting a second time changes nothing. */
  lemma RewriteSchemeIdempotentOnHttp(u: string)
    requires HasPrefix(u, "http")
    ensures RewriteScheme(RewriteScheme(u)) == RewriteScheme(u)
  {
  }

  /** Two occurrences of `http` in one string are at least four characters apart. */
  lemma HttpOccurrencesApart(w: string, j: int, k: int)
    requires OccursAt(w, "http", j) && OccursAt(w, "http", k) && j < k
    ensures j + 4 <= k
  {
    assert w[k] == 'h' by { assert w[k..k + 4][0] == w[k]; }
    forall m | j < m < j + 4
      ensures w[m] != 'h'
    {
      assert w[j..j + 4][m - j] == w[m];
    }
  }

  /** Rewriting the first `http` at `i` leaves `http` first at `i`, with no `https` prefix. */
  lemma RewrittenStillFirstAt(u: string, i: int)
    requires !HasPrefix(u, "http") && IsFirstOccurrence(u, "http", i)
    ensures var v := u[..i] + "https" + u[i + 4..];
      IsFirstOccurrence(v, "http", i) && !HasPrefix(v, "https")
  {
    assert 0 < i;
    var v := u[..i] + "https" + u[i + 4..];
    assert v[i..i + 4] == "http";
    forall j | 0 <= j < i
      ensures !OccursAt(v, "http", j)
    {
      if j + 4 <= i {
        assert v[j..j + 4] == u[j..j + 4];
        assert !OccursAt(u, "http", j);
      } else if OccursAt(v, "http", j) {
        HttpOccurrencesApart(v, j, i);
      }
    }
  }

  /**
    A URL that does not start with `http` but contains it is not rewritten idempotently: the first
    `http`, wherever it stands, becomes `https`, and every further rewrite inserts one more `s`.
   */
  lemma RewriteSchemeNotIdempotent(u: string, i: int)
    requires !HasPrefix(u, "http") && IsFirstOccurrence(u, "http", i)
    ensures RewriteScheme(u) == u[..i] + "https" + u[i + 4..]
    ensures RewriteScheme(RewriteScheme(u)) == u[..i] + "httpss" + u[i + 4..]
    ensures RewriteScheme(RewriteScheme(u)) != RewriteScheme(u)
  {
    var v := u[..i] + "https" + u[i + 4..];
    RewriteOffScheme(u, i);
    RewrittenStillFirstAt(u, i);
    RewriteOffScheme(v, i);
    ReplaceTwice(u, i);
  }

  /** Replacing `http` at `i` by `https`, twice over, leaves `httpss` there. */
  lemma ReplaceTwice(u: string, i: int)
    requires 0 <= i && i + 4 <= |u|
    ensures var v := u[..i] + "https" + u[i + 4..];
      v[..i] + "https" + v[i + 4..] == u[..i] + "httpss" + u[i + 4..]
  {
    var v := u[..i] + "https" + u[i + 4..];
    assert v[..i] == u[..i];
    assert v[i + 4..] == "s" + u[i + 4..];
  }

  /** Off the scheme, the rewrite replaces the first `http` wherever it stands. */
  lemma RewriteOffScheme(u: string, i: int)
    requires !HasPrefix(u, "https") && IsFirstOccurrence(u, "http", i)
    ensures RewriteScheme(u) == u[..i] + "https" + u[i + 4..]
  {
  }

  // ---------------------------------------------------------------------------------------------
  // Half-life refresh policy

  /**
    For a token whose lifetime is non-negative and fits in a Duration, the truncated half-life rule
    is exactly "strictly past the true midpoint": `2 * now > issued + expires`.
   */
  lemma StaleIffPastMidpoint(issued: int, expires: int, now: int)
    requires 0 <= expires - issued <= GoTime.MaxDuration
    ensures GoTime.After(now, RefreshInstant(issued, expires)) <==> 2 * now > issued + expires
  {
  }

  /**
    The refresh check on a cached token whose timestamps parse: never an error, and stale exactly
    when `now` is strictly after the refresh instant. What that instant is depends on the lifetime:
    the true midpoint for a non-negative lifetime that fits in a Duration (so a token is fresh at
    its midpoint), half a Duration range after issue for a longer one, and no later than the issue
    instant for a non-positive one.
   */
  lemma HalfLifeRule(c: Client, parse: TimeParser, now: int, issued: int, expires: int)
    requires c.tokenID != ""
    requires parse(c.issuedAt) == Some(issued) && parse(c.expiresAt) == Some(expires)
    ensures NeedsRefreshing(c, parse, now) ==
      RefreshCheck(GoTime.After(now, RefreshInstant(issued, expires)), None)
    ensures 0 <= expires - issued <= GoTime.MaxDuration ==>
      NeedsRefreshing(c, parse, now) == RefreshCheck(2 * now > issued + expires, None)
    ensures 0 <= expires - issued <= GoTime.MaxDuration && 2 * now == issued + expires ==>
      !NeedsRefreshing(c, parse, now).needed
    ensures expires - issued > GoTime.MaxDuration ==>
      (NeedsRefreshing(c, parse, now).needed <==> now > issued + GoTime.MaxDuration / 2)
    ensures expires <= issued && now > issued ==> NeedsRefreshing(c, parse, now).needed
  {
  }

  /** A token that expires no later than it was issued is stale at every instant after issue. */
  lemma NonPositiveLifetimeStaleAfterIssue(issued: int, expires: int, now: int)
    requires expires <= issued && now > issued
    ensures GoTime.After(now, RefreshInstant(issued, expires))
  {
  }

  /**
    With a negative lifetime the halving truncates toward zero, i.e. toward the issue instant, not
    toward the true midpoint: issued at 0 and expiring at -3 ns, the token is not yet stale at -1 ns
    although -1 is past the midpoint -1.5.
   */
  lemma NegativeLifetimeTruncatesTowardIssue()
    ensures RefreshInstant(0, -3) == -1
    ensures !GoTime.After(-1, RefreshInstant(0, -3)) && 2 * -1 > 0 + -3
  {
  }

  /** For any non-negative lifetime, saturated or not, the refresh instant lies within it. */
  lemma RefreshWithinLifetime(issued: int, expires: int)
    requires issued <= expires
    ensures issued <= RefreshInstant(issued, expires) <= expires
  {
  }

  /**
    `Time.Sub` saturates: for a lifetime beyond the Duration range (about 292 years) the token is
    refreshed a fixed half-range (about 146 years) after issue, not at its midpoint.
   */
  lemma LongLifetimeRefreshCapped(issued: int, expires: int)
    requires expires - issued > GoTime.MaxDuration
    ensures RefreshInstant(issued, expires) == issued + GoTime.MaxDuration / 2
    ensures 2 * (RefreshInstant(issued, expires) - issued) < expires - issued
  {
  }

  /** Once stale, a token stays stale at every later instant. */
  lemma StaleStaysStale(c: Client, parse: TimeParser, now: int, later: int)
    requires now <= later
    requires NeedsRefreshing(c, parse, now) == RefreshCheck(true, None)
    ensures NeedsRefreshing(c, parse, later) == RefreshCheck(true, None)
  {
  }

  // ---------------------------------------------------------------------------------------------
  // Authentication exchanges

  /** 201 Created is a success for v3 and a failure for v2, the body decoding aside. */
  lemma CreatedAcceptedOnlyByV3(c: Client, resp: Response)
    requires |c.authURL| > 0
    requires resp.Reply? && resp.code == StatusCreated && resp.asV2.Some? && resp.asV3.Some?
    ensures Authenticate(c, resp).err == Some(StatusError(StatusMessage(resp.status, resp.body)))
    ensures AuthenticateV3(c, resp).err.None?
  {
  }

  /**
    No partial success: after either exchange the token and both timestamps are all as before, or
    all three come from the reply.
   */
  lemma NoPartialToken(c: Client, resp: Response)
    requires |c.authURL| > 0
    ensures var a := Authenticate(c, resp);
      TokenUnchanged(c, a.client)
      || (resp.Reply? && resp.asV2.Some? && a.client.tokenID == resp.asV2.value.id
          && a.client.issuedAt == resp.asV2.value.issuedAt && a.client.expiresAt == resp.asV2.value.expires)
    ensures var a := AuthenticateV3(c, resp);
      TokenUnchanged(c, a.client)
      || (resp.Reply? && resp.asV3.Some? && a.client.tokenID == resp.subjectToken
          && a.client.issuedAt == resp.asV3.value.issuedAt && a.client.expiresAt == resp.asV3.value.expiresAt)
  {
  }

  /**
    The v3 URL is built before the scheme is rewritten: from an `http` auth URL the first POST goes
    out over `http`, while the client is left holding the `https` URL that later POSTs use.
   */
  lemma V3FirstPostUsesUnrewrittenURL(c: Client, resp: Response, resp2: Response)
    requires HasPrefix(c.authURL, "http") && !HasPrefix(c.authURL, "https")
    ensures var a := AuthenticateV3(c, resp);
      HasPrefix(a.sent.url, "http") && !HasPrefix(a.sent.url, "https")
      && HasPrefix(a.client.authURL, "https")
      && HasPrefix(AuthenticateV3(a.client, resp2).sent.url, "https")
  {
    var u := c.authURL;
    var url := BuildURL(u, V3Suffix);
    assert url[..4] == u[..4];
    if |u| >= 5 {
      assert url[..5] == u[..5];
    } else {
      assert url[4] == '/';
    }
    var a := AuthenticateV3(c, resp);
    RewriteSchemeSecuresHttp(u);
    var u2 := a.client.authURL;
    var url2 := BuildURL(u2, V3Suffix);
    assert url2[..5] == u2[..5];
  }

  /** A keepalive client has no project to scope to: its v3 request names an empty project. */
  lemma KeepaliveV3ScopeIsEmpty(
    authURL: string, tenantName: string, username: string, password: string, token: string,
    domainName: string, resp: Response)
    requires |authURL| > 0
    ensures var k := NewKeepaliveKeystoneClient(authURL, tenantName, username, password, token, domainName);
      var b := AuthenticateV3(k.base, resp).sent.body;
      b.projectName == "" && b.projectDomain == "" && b.username == username && b.methods == ["password"]
  {
  }

  // ---------------------------------------------------------------------------------------------
  // Decorators

  /** A stale cached token is replaced by exactly one exchange, whose token goes into the header. */
  lemma StaleTokenReauthenticatesOnce(
    k: KeepaliveClient, headers: map<string, string>, parse: TimeParser, now: int, resp: Response,
    issued: int, expires: int)
    requires |k.base.authURL| > 0 && k.base.tokenID != ""
    requires parse(k.base.issuedAt) == Some(issued) && parse(k.base.expiresAt) == Some(expires)
    requires GoTime.After(now, RefreshInstant(issued, expires))
    ensures var d := KeepaliveAddAuthentication(k, headers, parse, now, resp);
      |d.sent| == 1
      && (d.err.None? ==> AuthHeader in d.headers && d.headers[AuthHeader] == d.client.base.tokenID)
      && (d.err.None? && !k.base.isV3 ==> d.client.base.tokenID == resp.asV2.value.id)
      && (d.err.None? && k.base.isV3 ==> d.client.base.tokenID == resp.subjectToken)
  {
  }

  /** A fresh cached token means no exchange at all, and the header carries the cached id. */
  lemma FreshTokenNoExchange(
    k: KeepaliveClient, headers: map<string, string>, parse: TimeParser, now: int, resp: Response,
    issued: int, expires: int)
    requires k.base.tokenID != ""
    requires parse(k.base.issuedAt) == Some(issued) && parse(k.base.expiresAt) == Some(expires)
    requires !GoTime.After(now, RefreshInstant(issued, expires))
    ensures var d := KeepaliveAddAuthentication(k, headers, parse, now, resp);
      d.sent == [] && d.client == k && d.err.None? && d.headers[AuthHeader] == k.base.tokenID
  {
  }

  /** A sequence of outbound requests decorated one after another by the base client. */
  function Serve(c: Client, resps: seq<Response>): (r: (Client, seq<Request>))
    requires |c.authURL| > 0
    ensures |r.0.authURL| >= |c.authURL|
    ensures |r.1| <= |resps|
    decreases |resps|
  {
    if resps == [] then (c, [])
    else
      var d := AddAuthentication(c, map[], resps[0]);
      var rest := Serve(d.client, resps[1..]);
      (rest.0, d.sent + rest.1)
  }

  /**
    Decorating never switches protocol: a v2 client sends only v2 requests and stays v2, a v3 client
    only v3 requests and stays v3. Only a direct `AuthenticateV3` call makes a client v3.
   */
  lemma {:induction false} ServeKeepsProtocol(c: Client, resps: seq<Response>)
    requires |c.authURL| > 0
    ensures Serve(c, resps).0.isV3 == c.isV3
    ensures forall i :: 0 <= i < |Serve(c, resps).1| ==>
      (Serve(c, resps).1[i].body.CredentialsRequestV3? <==> c.isV3)
    decreases |resps|
  {
    if resps != [] {
      var d := AddAuthentication(c, map[], resps[0]);
      ServeKeepsProtocol(d.client, resps[1..]);
      var rest := Serve(d.client, resps[1..]);
      assert Serve(c, resps).1 == d.sent + rest.1;
    }
  }

  /** A client fresh from `NewKeystoneClient` only ever speaks v2 through its decorator. */
  lemma NewClientServesV2(
    authURL: string, tenantName: string, username: string, password: string, token: string,
    domainName: string, projectName: string, projectDomainName: string, resps: seq<Response>)
    requires |authURL| > 0
    ensures var c := NewKeystoneClient(authURL, tenantName, username, password, token, domainName,
      projectName, projectDomainName);
      !Serve(c, resps).0.isV3
      && forall i :: 0 <= i < |Serve(c, resps).1| ==> Serve(c, resps).1[i].body.CredentialsRequestV3? == false
  {
    var c := NewKeystoneClient(authURL, tenantName, username, password, token, domainName,
      projectName, projectDomainName);
    ServeKeepsProtocol(c, resps);
  }

  /** One decorated request of a keepalive client: the clock reading and the service's reply. */
  datatype Call = Call(now: int, resp: Response)

  /** A sequence of outbound requests decorated one after another by the keepalive client. */
  function ServeKeepalive(k: KeepaliveClient, parse: TimeParser, calls: seq<Call>): (r: (KeepaliveClient, seq<Request>))
    requires |k.base.authURL| > 0
    ensures |r.0.base.authURL| >= |k.base.authURL|
    ensures |r.1| <= |calls|
    decreases |calls|
  {
    if calls == [] then (k, [])
    else
      var d := KeepaliveAddAuthentication(k, map[], parse, calls[0].now, calls[0].resp);
      var rest := ServeKeepalive(d.client, parse, calls[1..]);
      (rest.0, d.sent + rest.1)
  }

  /** The keepalive decorator never switches protocol either, however often it refreshes. */
  lemma {:induction false} ServeKeepaliveKeepsProtocol(k: KeepaliveClient, parse: TimeParser, calls: seq<Call>)
    requires |k.base.authURL| > 0
    ensures ServeKeepalive(k, parse, calls).0.base.isV3 == k.base.isV3
    ensures forall i :: 0 <= i < |ServeKeepalive(k, parse, calls).1| ==>
      (ServeKeepalive(k, parse, calls).1[i].body.CredentialsRequestV3? <==> k.base.isV3)
    decreases |calls|
  {
    if calls != [] {
      var d := KeepaliveAddAuthentication(k, map[], parse, calls[0].now, calls[0].resp);
      ServeKeepaliveKeepsProtocol(d.client, parse, calls[1..]);
      var rest := ServeKeepalive(d.client, parse, calls[1..]);
      assert ServeKeepalive(k, parse, calls).1 == d.sent + rest.1;
    }
  }

  /** A v3 client stays v3 through any further call, including a direct v2 `Authenticate`. */
  lemma V3IsNeverReset(c: Client, resp: Response, caFile: string, keyFile: string, certFile: string,
    insecure: bool, fs: FileSystem)
    requires c.isV3 && |c.authURL| > 0
    ensures Authenticate(c, resp).client.isV3 && AuthenticateV3(c, resp).client.isV3
    ensures AddAuthentication(c, map[], resp).client.isV3
    ensures AddEncryption(c, caFile, keyFile, certFile, insecure, fs).isV3
  {
  }

  // ---------------------------------------------------------------------------------------------
  // Transport security

  /** With `insecure`, the file names and what the files hold make no difference. */
  lemma InsecureIgnoresFiles(c: Client,
    ca1: string, key1: string, cert1: string, fs1: FileSystem,
    ca2: string, key2: string, cert2: string, fs2: FileSystem)
    ensures AddEncryption(c, ca1, key1, cert1, true, fs1) == AddEncryption(c, ca2, key2, cert2, true, fs2)
    ensures AddEncryption(c, ca1, key1, cert1, true, fs1).transport == SkipVerify
  {
  }

  /** Without a CA file the cert and key files are never consulted. */
  lemma KeyPairNeedsCA(c: Client, key1: string, cert1: string, fs1: FileSystem,
    key2: string, cert2: string, fs2: FileSystem)
    ensures AddEncryption(c, "", key1, cert1, false, fs1) == AddEncryption(c, "", key2, cert2, false, fs2)
  {
  }

  /**
    Configuring twice with the same settings leaves the transport as configuring once; for a URL
    that starts with `http` the whole client is the same.
   */
  lemma AddEncryptionTwice(c: Client, caFile: string, keyFile: string, certFile: string,
    insecure: bool, fs: FileSystem)
    ensures var once := AddEncryption(c, caFile, keyFile, certFile, insecure, fs);
      AddEncryption(once, caFile, keyFile, certFile, insecure, fs).transport == once.transport
    ensures HasPrefix(c.authURL, "http") ==>
      var once := AddEncryption(c, caFile, keyFile, certFile, insecure, fs);
      AddEncryption(once, caFile, keyFile, certFile, insecure, fs) == once
  {
  }
}
