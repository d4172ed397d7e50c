# Keystone authentication client, modelled in Dafny

This project models `keystone.go`, the client of the OpenStack Keystone identity service that
obtains a token, caches it, refreshes it and adds it as the `X-Auth-Token` header to outbound
Contrail API requests. The client is an immutable record (`Keystone.Client`: auth URL,
credentials, transport, `tokenID`, `issuedAt`, `expiresAt`, `isV3`). Each Go method is a pure
step function. It takes the outside world as arguments and returns the new record together
with the POSTs it sent:

- the identity service's answer to a POST is a `Response`: the POST fails, reading the body
  fails, or a reply arrives with a status, an `X-Subject-Token` header and the result of decoding
  the body into the v2 and v3 schemas;
- the wall clock is an integer `now` in nanoseconds;
- RFC 3339 (section 5.6) date-time parsing is an uninterpreted partial function
  `string -> Option<int>`;
- the files holding TLS material are a `FileSystem` of read and key-pair-load outcomes;
- the transport is reduced to its TLS behaviour: default, verification off, private CA pool, or
  CA pool plus client certificate.

Modules:

- `Options`: the option type.
- `Strings`: Go's `strings.HasPrefix` and `strings.Replace(s, old, new, 1)`.
- `GoTime`: the saturating `Time.Sub`, the truncating `Duration / 2` and the strict `After`.
- `Keystone`: the state, both constructors, `Authenticate`, `AuthenticateV3`, `needsRefreshing`,
  both `AddAuthentication` methods and `AddEncryption`.
- `KeystoneProperties`: lemmas that relate several calls to one another or to a reference rule.

Points the model pins down:

- The v3 request URL is built before `AddEncryption` rewrites the auth URL. The first v3 POST
  from an `http` URL therefore goes out over `http`.
- `AuthenticateV3` always forces verification-off TLS. Any CA transport configured earlier is
  discarded.
- Token staleness uses Go's saturating `Sub` and truncating division. For a non-negative
  lifetime that fits in a Duration this is exactly "strictly past the midpoint". A lifetime over
  about 292 years is refreshed about 146 years after issue. A negative lifetime rounds toward the
  issue instant.
- The scheme rewrite is idempotent on URLs that start with `http` and on URLs that contain no
  `http` at all. A URL whose first `http` is not at its start is not: each rewrite inserts one
  more `s` there (`h/http` becomes `h/https`, then `h/httpss`).
- The keepalive constructor leaves the project name and project domain empty.
- The URL gains a `/` only when the base lacks one. A base that already ends in `//` keeps both
  slashes; nothing normalises it to exactly one.
- The client certificate is loaded only inside the CA-file branch. A cert/key pair given without
  a CA file is ignored.
- A failed CA read or key-pair load returns success and leaves the previous transport installed.
  It is not reported as an error.

## Model

| member | source | states |
|---|---|---|
| Strings.ReplaceFirst | keystone.go:319 | Go's single replacement: unchanged when the pattern does not occur, otherwise the leftmost occurrence alone is replaced |
| Strings.Index | keystone.go:319 | the position returned is the leftmost occurrence of the pattern, and none is returned only when it occurs nowhere |
| GoTime.Sub | keystone.go:280 | `expires.Sub(issued)` is the exact difference when it fits in a 64-bit Duration and saturates at the nearer end otherwise |
| GoTime.Half | keystone.go:280 | Duration halving truncates toward zero: the remainder is 0 or 1 for non-negative durations and 0 or -1 for negative ones |
| Keystone.NewKeystoneClient | keystone.go:65-78 | all eight settings are stored; no token, no timestamps, v2, default transport |
| Keystone.NewKeepaliveKeystoneClient | keystone.go:81-94 | six settings are stored and the project name and project domain stay empty; no token, v2, default transport |
| Keystone.BuildURL | keystone.go:209-213 | the endpoint (v2 here, and the same at lines 124-128 for v3) starts with the base, ends with `/` + suffix, and gains a `/` exactly when the base does not end in one; an empty base is excluded, since Go panics on it |
| Keystone.V3Body | keystone.go:132-138 | the v3 body names the password method, the user with its password and domain, and the project with its project domain, each from the matching credential |
| Keystone.StatusMessage | keystone.go:161 | the error text for a non-accepted reply is the status line, then `: `, then the body verbatim (the same format at line 250) |
| Keystone.V2Body | keystone.go:217-229 | the admin-token body is sent iff an admin token is configured, carrying it; otherwise tenant, username and password |
| Keystone.Authenticate | keystone.go:178-263 | one POST to the v2 endpoint over the current transport; success iff the reply is 200 and decodes; on success all three token fields come from `access.token` and nothing else changes; each failure kind (post, read, status with `status: body`, decode) leaves the client unchanged |
| Keystone.AuthenticateV3 | keystone.go:97-175 | sets v3, POSTs the password body to the v3 endpoint built from the un-rewritten URL over a verification-off transport, and leaves the rewritten URL; success iff 200 or 201 and the body decodes; the id comes from `X-Subject-Token` and the timestamps from the body; each failure kind (post, read, status with `status: body`, decode of a 200/201 body) is named; on failure the token fields are unchanged |
| Keystone.RefreshInstant | keystone.go:280 | the refresh instant is issue time plus half the lifetime, truncated toward the issue time, for a lifetime that fits in a Duration, and issue time plus half the saturated bound otherwise |
| Keystone.NeedsRefreshing | keystone.go:265-283 | no token means refresh with no error, timestamps unread; an unparsable issued or expiry time is `(false, error)`; otherwise stale iff now is strictly after issued plus half the saturated lifetime |
| Keystone.AddAuthentication | keystone.go:300-314 | a cached token means no POST, the header is set to it and nothing else changes; no token means exactly one POST, v3 iff the client is v3, and the new state, the POST and the error are exactly those of that `AuthenticateV3` or `Authenticate` exchange; an error leaves the headers and token fields untouched; the protocol flag is never changed |
| Keystone.KeepaliveAddAuthentication | keystone.go:286-297 | a refresh-check error is returned with nothing changed and no POST; stale or absent means the outcome is exactly the base decorator's on the client with its token cleared, so exactly one POST, and on failure the token stays cleared and the timestamps stay as they were; fresh means no POST and the cached id in the header |
| Keystone.AddEncryption | keystone.go:317-344 | the URL gets the scheme rewrite; insecure means verification off whatever the files; no CA file means the default transport; a CA read or key-pair load failure leaves the old transport; a CA alone gives a CA pool; CA, cert and key give pool and client certificate; nothing else changes |
| Strings.HasPrefix | keystone.go:318 | `strings.HasPrefix`: the string is at least as long as the prefix and agrees with it character by character |
| Keystone.RewriteScheme | keystone.go:318-320 | a URL starting with `https` is unchanged, so is one with no `http` anywhere; otherwise its leftmost `http` becomes `https` and the rest is kept |
| Keystone.RewriteSchemeLength | keystone.go:318-320 | the scheme rewrite never shortens the URL and adds at most one character, so a non-empty URL stays non-empty |
| KeystoneProperties.RewriteSchemeSecuresHttp | keystone.go:318-320 | an `http` URL becomes `https` followed by the rest of the original URL |
| KeystoneProperties.RewriteSchemeIdempotentOnHttp | keystone.go:318-320 | for URLs that start with `http`, rewriting twice equals rewriting once |
| KeystoneProperties.RewriteSchemeNotIdempotent | keystone.go:318-320 | for every URL not starting with `http` whose first `http` is at position `i`, the first rewrite puts `https` at `i`, the second puts `httpss` there, so rewriting twice differs from rewriting once |
| KeystoneProperties.StaleIffPastMidpoint | keystone.go:280-282 | for an in-range non-negative lifetime the truncated rule equals `2 * now > issued + expires`, the exact midpoint test |
| KeystoneProperties.HalfLifeRule | keystone.go:265-282 | with a cached token and parsable times, for any lifetime, the refresh check is error-free and says stale iff now is strictly after the refresh instant; for a lifetime with `0 <= expires - issued <= MaxDuration` that is strictly past the midpoint, never at it; for a longer lifetime it is past `issued + MaxDuration / 2`; for `expires <= issued` every instant after issue is stale |
| KeystoneProperties.NonPositiveLifetimeStaleAfterIssue | keystone.go:280-282 | if the expiry is not after the issue time, every instant after issue is stale |
| KeystoneProperties.NegativeLifetimeTruncatesTowardIssue | keystone.go:280 | with a negative lifetime the halving rounds toward the issue instant, so an instant past the true midpoint can still be fresh |
| KeystoneProperties.RefreshWithinLifetime | keystone.go:280 | for a non-negative lifetime, saturated or not, the refresh instant lies between issue and expiry |
| KeystoneProperties.LongLifetimeRefreshCapped | keystone.go:280 | a lifetime beyond the Duration range is refreshed half a Duration range after issue, before its midpoint |
| KeystoneProperties.StaleStaysStale | keystone.go:282 | a token stale at one instant is stale at every later one |
| KeystoneProperties.CreatedAcceptedOnlyByV3 | keystone.go:160-162 | a decodable 201 reply succeeds for v3 and fails with the status error for v2 (lines 249-251) |
| KeystoneProperties.NoPartialToken | keystone.go:259-261 | after either exchange the three token fields are all unchanged or all taken from the reply (v3: lines 170-172) |
| KeystoneProperties.V3FirstPostUsesUnrewrittenURL | keystone.go:124-145 | from an `http` auth URL the first v3 POST goes to an `http` URL, the client keeps the `https` URL, and the next v3 POST goes to `https` |
| KeystoneProperties.KeepaliveV3ScopeIsEmpty | keystone.go:81-94 | a keepalive client's v3 request scopes to an empty project in an empty domain, with the password method |
| KeystoneProperties.StaleTokenReauthenticatesOnce | keystone.go:286-297 | a stale cached token causes exactly one exchange, and on success the header carries the new id, from the body for v2 and from the header for v3 |
| KeystoneProperties.FreshTokenNoExchange | keystone.go:286-297 | a fresh cached token causes no exchange, the client is unchanged and the header carries the cached id |
| KeystoneProperties.Serve | keystone.go:300-314 | decorating a sequence of requests sends at most one POST per request |
| KeystoneProperties.ServeKeepsProtocol | keystone.go:300-311 | over any sequence of decorated requests a v2 client sends only v2 bodies and stays v2; a v3 client sends only v3 bodies and stays v3 |
| KeystoneProperties.NewClientServesV2 | keystone.go:98 | a constructed client never becomes v3 through its decorator; only a direct `AuthenticateV3` sets the flag |
| KeystoneProperties.ServeKeepalive | keystone.go:286-297 | the keepalive decorator sends at most one POST per decorated request over any sequence |
| KeystoneProperties.ServeKeepaliveKeepsProtocol | keystone.go:286-311 | however often the keepalive decorator refreshes, it keeps the protocol and sends only requests of that protocol |
| KeystoneProperties.V3IsNeverReset | keystone.go:98 | once v3, a client stays v3 through v2 authentication, v3 authentication, decoration and transport configuration |
| KeystoneProperties.InsecureIgnoresFiles | keystone.go:323-324 | with `insecure`, the result does not depend on the file names or their contents, and verification is off |
| KeystoneProperties.KeyPairNeedsCA | keystone.go:325-339 | without a CA file, cert and key files and their contents make no difference |
| KeystoneProperties.AddEncryptionTwice | keystone.go:317-344 | configuring twice with the same settings gives the same transport as once, and the same client when the URL starts with `http` |

## Left out

- The HTTP POST, reading and closing the body, and `Header.Get`: network I/O. They are the
  `Response` input.
- JSON encoding of the request bodies (lines 99-122, 180-195) is left out. The bodies are a
  tagged `RequestBody`. `json.Marshal` of these fixed string-only structs cannot fail, so its
  error return is not modelled.
- JSON decoding of the replies (lines 164-169, 253-257) is left out. Each schema's outcome is an
  `Option` in the `Response`. The decoder's error text becomes the single `DecodeError`.
- `time.Parse` with the RFC 3339 layout and `time.Now()` are left out. They are the parse
  function and `now` inputs. The parser's error value becomes `TimeParseError` carrying the text
  that failed.
- Reading the CA file, `x509.NewCertPool`, `AppendCertsFromPEM`, `tls.LoadX509KeyPair` and
  cloning `http.DefaultTransport` are foreign file and crypto calls. File outcomes are the
  `FileSystem` input. Transports are the four-way `Transport` value. Whether the PEM actually
  holds certificates is not modelled.
- The `current` field is only ever set to nil and is never read, so it is not modelled.
- `http.Header` is a map of string to string. `Header.Set` replaces the value. Canonicalising
  multi-valued keys is not modelled.
- Concurrent use of one client is left out: the client has no locking and the model is
  sequential.
- An empty auth URL makes the Go code panic when it indexes the last byte. The model excludes
  it with a precondition on the operations that would index it; the panic is not an outcome.
