# Mazarin gateway core, modelled in Dafny

Mazarin is a reverse-proxy gateway. It forwards raw TCP ports and routes
HTTP(S) requests by host name. With the firewall on, it only lets through
client IPs that are on its whitelist. A successful login on the gateway's own
portal puts the IP on the whitelist. An event stream opened to the portal
puts it there again, and when that stream ends the IP is taken off the
whitelist and its raw connections are closed. This project models the part of
the gateway that decides who gets through and where requests go. It also
proves properties of that model.

- `registry.dfy` (`Registry`) is the shared access registry. It holds the
  IP whitelist and the table of live raw connections per IP. The class
  `AccessRegistry` has one method per critical section:
  - grant;
  - check-and-register;
  - read-only check;
  - revoke-and-evict (`cleanupConnection`);
  - the teardown's unregister.

  Each method is proved against a pure transition on `RegistryState`. A ghost
  set records which connections have been closed. The critical sections of
  other goroutines are a schedule of `Op`s, applied one after the other.
- `validation.dfy` (`Validation`) is `ValidateInput`. The four regular
  expressions are written out as character-class predicates. The host
  grammar is stated as dot-separated labels.
- `config.dfy` (`Config`) holds the configuration records and the two list
  passes:
  - `ParseMulti` expands URLs, then ports, then `a-b` port ranges;
  - `ParseProxies` builds the port-to-listener map and rejects conflicting
    claims.

  Each is a method with the source's loops, proved equal to a recursive
  specification function. The properties are lemmas about that function.
- `router.dfy` (`Router`) holds the route table (`InitRouter`) and the
  per-request decision of `route`. The decision chain is: client address,
  firewall gate, path and host validation, table lookup, hardening headers,
  dispatch.
- `web.dfy` (`Web`) holds the portal's handlers:
  - `AuthHandler`, which whitelists the IP on success;
  - `SseHandler`, which re-grants the IP when the stream opens and runs
    `cleanupConnection` when the stream ends, with other goroutines' critical
    sections in between;
  - the ping and close frames, with a parser that reads them back.
- `hashing.dfy` (`Hashing`) holds `LoadKeys`, `HashKey` and
  `ValidateUserHash`. JSON decoding and bcrypt become parameters.
- `proxy.dfy` (`Proxy`) holds:
  - the registry side of a raw connection's life, namely the dial failure
    and the teardown;
  - the reverse proxy's target normalisation and its certificate-check
    switch.
- `listeners.dfy` (`Listeners`) holds the raw listener's accept loop, the
  network check of `net.Listen` and the order of start-up and shutdown
  around it. Accepts are a sequence of
  outcomes.
- `common.dfy` (`Common`) holds the Go library behaviour the core relies on:
  - `strings.Split` on one character;
  - prefix and substring tests;
  - ASCII lower-casing;
  - `strconv.Itoa` and `strconv.Atoi`.

`net.SplitHostPort` and `json.Decoder` are library calls. Their outcome is a
field of the request, `Option<string>` or `Option<AuthBody>`, where `None`
means the call failed.

## Model

| member | source | states |
|---|---|---|
| Registry.Empty | state/state.go:9-13 | both tables start empty: no IP is whitelisted, no IP has connections |
| Registry.Granted | webserver/web.go:85-87 | afterwards the IP is whitelisted; every other IP's entry, the connection table and the closed set are unchanged |
| Registry.CheckAndRegister | firewall/core.go:9-18 | the answer is the IP's whitelist entry, where a missing key reads false; on true, the connection is appended to the IP's list and nothing else changes; on false, nothing changes |
| Registry.Revoked | webserver/web.go:179-189 | the IP leaves both tables; the closed set grows by exactly the connections that were listed for it; other IPs keep their entries and lists |
| Registry.Unregistered | proxy/proxy.go:33-44 | the IP's list loses the first occurrence of the connection, and the key is dropped when the list ends up empty; the whitelist and other IPs are unchanged |
| Registry.RemoveFirst | proxy/proxy.go:36-41 | one element shorter when the connection is present, unchanged otherwise |
| Registry.RemoveFirstAt | proxy/proxy.go:36-41 | removing the first occurrence is exactly the splice `conns[:i] + conns[i+1:]` at the first index holding it |
| Registry.RemoveFirstMultiset | proxy/proxy.go:36-41 | exactly one copy of the connection goes and every other connection stays |
| Registry.RevokeIdempotent | webserver/web.go:179-189 | revoking twice is revoking once |
| Registry.RevokeAbsent | webserver/web.go:179-189 | revoking an IP in neither table changes nothing |
| Registry.RegisterAfterRevoke | firewall/core.go:9-18 | after a revoke, check-and-register for that IP is refused and registers nothing |
| Registry.UnregisterAfterRevoke | proxy/proxy.go:33-44 | a teardown that runs after a revoke does not bring the IP's list back |
| Registry.RemoveFirstAppended | proxy/proxy.go:36-41 | removing a connection that was appended last, and appears nowhere earlier, restores the list |
| Registry.UnregisterUndoesRegister | proxy/proxy.go:33-44 | unregistering a freshly registered connection gives back the registry as it was before registration |
| Registry.Apply | state/state.go:9-13 | one critical section of any goroutine: it keeps the no-empty-list invariant and never reopens a closed connection |
| Registry.ApplyAll | state/state.go:9-13 | a schedule of critical sections run one after the other keeps the invariant and never reopens a closed connection |
| Registry.WhitelistedAdmitsAll | firewall/core.go:9-18 | while an IP is whitelisted, every connection admitted for it is appended to its list, in order, and the IP stays whitelisted |
| Registry.StaysWhitelisted | firewall/core.go:9-18 | a whitelisted IP stays whitelisted through any schedule of critical sections that does not revoke it |
| Registry.StaysListed | proxy/proxy.go:33-44 | a listed connection stays listed through any schedule that neither revokes its IP nor unregisters that connection |
| Registry.Interleave | state/state.go:9-13 | running each scheduled section through the class's own methods ends in `ApplyAll` of the schedule |
| Registry.AccessRegistry.constructor | state/state.go:9-13 | the registry starts as the empty state, with no empty lists stored |
| Registry.AccessRegistry.Grant | webserver/web.go:85-87 | the new state is `Granted` of the old one |
| Registry.AccessRegistry.CheckWhitelistAddConn | firewall/core.go:9-18 | the answer and the new state are those of `CheckAndRegister`, in one step |
| Registry.AccessRegistry.CheckWhitelist | firewall/core.go:20-30 | the answer is whether the IP is whitelisted; nothing changes |
| Registry.AccessRegistry.CleanupConnection | webserver/web.go:179-189 | the new state is `Revoked` of the old one; the loop closes every listed connection |
| Registry.AccessRegistry.Unregister | proxy/proxy.go:33-44 | the new state is `Unregistered` of the old one; the loop finds the first occurrence |
| Validation.ValidateInput | firewall/validation.go:26-48 | an accepted input holds no NUL and no "..", and its type is one of the four known ones |
| Validation.RejectsNul | firewall/validation.go:28-30 | any input containing a NUL is refused, whatever the type |
| Validation.RejectsDotDot | firewall/validation.go:32-34 | any input containing ".." is refused, whatever the type |
| Validation.RejectsUnknownType | firewall/validation.go:45-46 | a type other than the four known ones refuses every input |
| Validation.UsernameAccepted | firewall/validation.go:20 | a username is accepted iff it has 1 to 64 letters, digits, `_` or `-` |
| Validation.PasswordAccepted | firewall/validation.go:21 | a password is accepted iff it has 12 to 64 characters of the password class and no ".." |
| Validation.PathAccepted | firewall/validation.go:23 | a path is accepted iff every character is in the path class (whitespace included) and it has no ".." |
| Validation.EmptyPathAccepted | firewall/validation.go:23 | the empty path is accepted |
| Validation.PercentPathRejected | firewall/validation.go:23 | a path holding a '%' is refused, so a request whose decoded path still holds one never routes |
| Validation.UrPatternIsGrammar | firewall/validation.go:22 | a host matches iff it is at least two dot-separated labels of 1 to 63 lower-case letters, digits or inner hyphens |
| Validation.UrlAccepted | firewall/validation.go:28-44 | a host passes iff it matches the host pattern; the NUL and ".." checks never reject a string of labels |
| Validation.LabelPlain | firewall/validation.go:22 | a label is 1 to 63 lower-case letters, digits or hyphens, neither starting nor ending with a hyphen |
| Validation.DotlessHostRejected | firewall/validation.go:22 | a host without a dot is refused, so "localhost" never routes |
| Validation.UppercaseHostRejected | firewall/validation.go:22 | a host with an upper-case letter is refused |
| Config.ParseMulti | config/config.go:94-156 | the result is `Expanded` of the input: URL pass, then port pass, then range pass, and the first bad range is the error |
| Config.UrlPass | config/config.go:97-108 | the first loop yields one copy per listen URL, or the entry itself when it has none |
| Config.PortPass | config/config.go:111-122 | the second loop yields one copy per port, or the entry itself when it has none |
| Config.RangePass | config/config.go:125-153 | the third loop stops at the first entry whose range is rejected and otherwise concatenates each entry's expansion |
| Config.AppendRange | config/config.go:144-148 | the innermost loop appends one copy per port from the first bound to the second inclusive, each with port ":" followed by the number |
| Config.RangeErrorPersists | config/config.go:130-142 | once a prefix fails the range pass, the whole list fails with the same error |
| Config.UrlMajorPortMinor | config/config.go:97-122 | an entry with both URLs and ports becomes the URL-major, port-minor grid of copies |
| Config.ExpandedOne | config/config.go:97-153 | an entry without port ranges becomes its URL copies, each split by its ports |
| Config.ExpandUrlsIdentity | config/config.go:105-107 | entries without listen URLs pass the URL pass unchanged |
| Config.ExpandRangesIdentity | config/config.go:150-152 | entries whose port has no '-' pass the range pass unchanged |
| Config.ExpandedAppend | config/config.go:94-156 | each entry expands on its own: expanding a concatenation gives the concatenation of the expansions, in order |
| Config.RangeRejected | config/config.go:127-142 | one entry is rejected iff its port splits on '-' into pieces whose first two are not both integers, or are integers with the first not below the second |
| Config.BadRangeFails | config/config.go:130-142 | a rejected port anywhere after the URL and port passes fails the whole call |
| Config.ParseMultiFailsIff | config/config.go:125-155 | the call fails iff some entry after the URL and port passes has a rejected port range |
| Config.PortRange | config/config.go:127-148 | the port "a-b" expands to the b-a+1 ports a..b when a < b and is refused when a >= b |
| Config.ParseMultiExample | config_test.go:9-148 | the repository's six-entry example expands to its twelve expected entries |
| Config.ParseProxies | config/config.go:211-261 | the map, the routed list and the error are those of `ParseProxiesSpec`, which stops at the first conflict |
| Config.ProxyErrorPersists | config/config.go:219-228 | once a prefix has failed, the whole list fails in the same way, with the same partial map and routed list |
| Config.ParseProxiesMap | config/config.go:234-256 | on success no tcp/udp entry shares a port with another claiming entry, and each claimed port maps to the listener its first claimer opened |
| Config.ParseProxiesTls | config/config.go:223-228 | on success no port carries both an https route and an http route |
| Config.ParseProxiesRouted | config/config.go:217 | on success the routed list is exactly the web entries, in order |
| Config.ParseProxiesPlainHttp | config/config.go:211-261 | a list with no tcp/udp conflicts and no web route on a TLS domain always parses |
| Router.RouteTable.constructor | router/router.go:15 | the table starts empty |
| Router.RouteTable.InitRouter | router/router.go:17-21 | the table is the old one with every configuration stored under its listen URL, in order |
| Router.InitRouterLastWins | router/router.go:17-21 | the last configuration naming a host is the one the table keeps |
| Router.InitRouterUntouched | router/router.go:17-21 | a host that no configuration names keeps its old entry, or stays absent |
| Router.HostKey | router/router.go:30 | the key is the lower-cased host up to its first ':', or all of it when it has none; it never holds a ':' |
| Router.Route | router/router.go:29-111 | a rejection is 500, 407 or 400; a routed request has a parsed address, a host with a route and a path with no NUL and no ".."; a proxied request goes to its host's route |
| Router.RouteAdmission | router/router.go:29-69 | a request is routed iff its address parses, it passes the firewall gate, path and host are valid, and the host has a route |
| Router.RouteStatusOrder | router/router.go:33-69 | an unparsable address gives 500 before any other check, the firewall's 407 comes before every 400, and every other rejection is 400 |
| Router.PortalAlwaysReachable | router/router.go:43 | a request for the portal host gets the same answer whatever the whitelist holds |
| Router.RouteHeaders | router/router.go:71-83 | hardening headers are set iff the route does not opt out; HSTS only over TLS; the four fixed headers always otherwise |
| Router.RouteDispatch | router/router.go:86-110 | proxy routes go to the reverse proxy with their own configuration; static and redirect routes do nothing; portal routes act only with the web server enabled |
| Router.FuncPaths | router/router.go:97-108 | the portal serves exactly six paths, with /auth and /sse only as themselves |
| Router.HostKeyStripsPort | router/router.go:30 | the routing key of "host:port" is the lower-cased host |
| Hashing.LoadKeys | webserver/hashing.go:23-49 | nil iff the file could not be read or decoded or two users share a name; otherwise its keys are exactly the names, each mapped to its user |
| Hashing.HashKey | webserver/hashing.go:51-57 | a hash is returned only for a key of 12 to 64 password characters without ".."; the only other outcome is the format error |
| Hashing.HashKeyRefuses | webserver/hashing.go:51-54 | every key the password check refuses (wrong length, a character outside the class, or "..") gets the format error and is never hashed |
| Hashing.HashKeyRefusesBadCharacter | webserver/hashing.go:51-54 | a key with any character outside the password class gets the format error |
| Hashing.HashKeyAccepts | webserver/hashing.go:51-56 | a key of 12 to 64 password characters without ".." gets bcrypt's outcome |
| Hashing.ValidateUserHash | webserver/hashing.go:59-65 | reports a match iff there is no error, and passes bcrypt's error through |
| Web.FirstUser | webserver/web.go:58-59 | the index of the first user with the name, or none when no user has it |
| Web.AuthOutcome | webserver/web.go:23-96 | the status is 200, 400, 401, 405 or 500; a 200 needs a POST with a parsed address and body and a user of that name |
| Web.AuthHandler | webserver/web.go:23-96 | the status is `AuthOutcome`; on 200 the registry is the old one with the IP granted, and otherwise unchanged |
| Web.AuthSucceedsIff | webserver/web.go:23-87 | authentication succeeds iff the request is a POST with a parsable address and body, a valid username and key, and a key matched by the first user of that name |
| Web.FirstMatchDecides | webserver/web.go:58-75 | only the first user with the name decides; later users with that name play no part |
| Web.UnknownUserUnauthorized | webserver/web.go:77-81 | a name that no user has gets 401, whatever the key |
| Web.WrongKeyIsBadRequest | webserver/hashing.go:59-65 | with ValidateUserHash as the comparison, a wrong key for an existing user gets 400, not 401 |
| Web.SseOutcome | webserver/web.go:98-126 | the status is 200, 401, 405 or 500, and 200 exactly for a GET with a parsed address, a whitelisted client and a flushable writer |
| Web.SseHandler | webserver/web.go:98-167 | the status is `SseOutcome`; on 200 the headers are set, the writes are the opening comment plus the close frame on shutdown, and the registry ends as: the sections raced in before the grant, the grant, the sections run during the stream, then the revoke; otherwise nothing is written and nothing changes |
| Web.StreamLease | webserver/web.go:136-140 | under any schedule of other critical sections in which no other stream of the IP ends, the IP is whitelisted after every one of them; when the stream ends the IP is off both tables and every connection then listed for it is closed |
| Web.StreamAdmissionsClosed | webserver/web.go:136-140 | under such a schedule, every connection a listener checks for the IP during the stream is admitted, and unless its own teardown unregisters it later in the stream it is closed when the stream ends |
| Web.OtherStreamEndEndsLease | webserver/web.go:140 | the lease is per IP, not per stream: when another stream of the same IP ends during this one, the IP leaves the whitelist, its listed connections are closed and the next check for it fails |
| Web.RegrantRestoresLease | webserver/web.go:136-138 | when another stream of the same IP revokes it between the check and the grant, the grant still gets a connection admitted during the stream closed at its end; without the grant the registry never closes it |
| Web.SseRefusals | webserver/web.go:99-120 | a non-GET gets 405, a non-whitelisted client gets 401, and an open stream implies the client was whitelisted |
| Web.PingRoundTrip | webserver/web.go:191-198 | a ping frame parses back as the 64-bit time it carries |
| Web.PingFrame | webserver/web.go:191-192 | a ping frame is the ping prefix, then one data line with no newline, then the blank line that ends an event |
| Web.CloseRoundTrip | webserver/web.go:169-177 | the close frame parses back as the close event and ends with the blank line that ends an event |
| Proxy.HandleProxyConnection | proxy/proxy.go:20-46 | as written: a dial failure only closes the client connection; otherwise the teardown closes it and unregisters it |
| Proxy.DialFailureLeavesClosedEntry | proxy/proxy.go:21-26 | as written: after admission and a dial failure, the closed connection is still listed under its IP |
| Proxy.HandleProxyConnectionUnregistering | proxy/proxy.go:20-46 | corrected: both paths close the client connection and unregister it |
| Proxy.DialFailureRestoresTables | proxy/proxy.go:21-46 | corrected: admission then a dial failure leaves both tables as they were, and the connection closed |
| Proxy.NormaliseTarget | proxy/proxy.go:77-83 | the result always starts with a scheme; a target with a scheme is unchanged; any other gets https:// when insecure targets are allowed and http:// otherwise, followed by the target |
| Proxy.NormaliseIdempotent | proxy/proxy.go:77-83 | normalising twice is normalising once |
| Proxy.SkipVerify | proxy/proxy.go:95-99 | certificate checks are skipped iff insecure targets are allowed and the target does not ask for http:// |
| Listeners.ClosedError | listeners/listenServers.go:38-42 | the error shutdown causes is the closed-listener error |
| Listeners.Step | listeners/listenServers.go:34-76 | one accept outcome: a stopped loop does nothing; a running one stops, or appends at most one connection to one list, and never reopens a closed connection |
| Listeners.Run | listeners/listenServers.go:34-76 | over any outcomes a stopped loop stays stopped, the lists only grow, by at most one connection per outcome, and closed connections stay closed |
| Listeners.AcceptLoop | listeners/listenServers.go:32-77 | the registry, the dispatched and refused connections, and whether the loop exited are those of `Run` over the accept outcomes |
| Listeners.ListenProxy | listeners/listenServers.go:18-83 | it fails iff the protocol is not a stream network or the address is taken, and then returns before any accept and changes nothing; otherwise the loop processes the accepts and then the closed-listener error, and has stopped |
| Listeners.UdpNeverListens | listeners/listenServers.go:21 | a udp route never gets a listener, and a tcp route gets one exactly when its address is free |
| Listeners.RunAppend | listeners/listenServers.go:34-76 | the loop processes a concatenation one part after the other |
| Listeners.ExitOnClosedListener | listeners/listenServers.go:38-42 | the closed-listener error stops the loop, and nothing after it is processed |
| Listeners.ClosingEndsLoop | listeners/listenServers.go:79-81 | once shutdown has closed the listener the loop has stopped, so waiting for it returns |
| Listeners.SkippedEventsIgnored | listeners/listenServers.go:36-52 | other accept errors and unsplittable peer addresses are skipped as if they had not happened |
| Listeners.AdmissionRule | listeners/listenServers.go:61-67 | everything is admitted with the firewall off or default-allow on; otherwise the whitelist decides and what it admits is registered |
| Listeners.OpenLoopTouchesNothing | listeners/listenServers.go:61-67 | without the whitelist check nothing is refused and neither table changes |
| Listeners.RefusedAreClosed | listeners/listenServers.go:72-75 | every refused connection is closed, and closed connections stay closed |
| Listeners.DispatchedAreRegistered | listeners/listenServers.go:61-71 | with the whitelist check on, every dispatched connection is registered under its IP |
| Common.SplitSpec | router/router.go:30 | no piece of a split holds the separator, and joining the pieces with it gives back the string |
| Common.SplitHead | router/router.go:30 | the first piece of a split is the text before the first separator |
| Common.DigitsValue | config/config.go:130-136 | a digit string reads as a number iff it is non-empty and all digits, and the number is its decimal value |
| Common.AtoiItoa | config/config.go:130-146 | every 64-bit integer written by Itoa is read back by Atoi |
| Common.DecimalRoundTrip | config/config.go:146 | the decimal form of a natural number reads back as that number |

## Left out

- Concurrency is not modelled. The process-wide lock makes every critical
  section one atomic `AccessRegistry` method. Goroutines, the wait groups and
  the `io.Copy` splice between client and target become the order of
  registry transitions they produce.
- Sockets are not modelled:
  - `net.Listen` becomes its network check plus the `addressFree` flag;
  - `net.Dial` becomes the `dialed` flag;
  - the accepts become a finite sequence of outcomes.
- Listeners.AcceptLoop: the accept loop runs over a finite sequence of
  accept outcomes. It does not model a loop that never meets the
  closed-listener error.
- Library calls are parameters or fields rather than code:
  - `net.SplitHostPort` becomes the request's parsed IP;
  - JSON decoding of requests and of keys.json becomes `Option` inputs;
  - bcrypt's hashing and comparison become outcomes passed in;
  - the file read of `LoadKeys` is folded into its `None` input.
- Logging, HTTP error bodies and the JSON success body of `AuthHandler` are
  not modelled, nor are the headers that `http.Error` sets on a refusal
  (`Content-Type` and `X-Content-Type-Options`).
- Web.SseHandler: a refused request reports no headers, although
  `http.Error` (webserver/web.go:100, 108, 118, 124) sets the two error
  headers above.
- The HTTP servers are not modelled: `ListenWeb`, `ListenWebTLS`,
  `listenForExit`, `stopWebListener`, TLS settings and timeouts.
- Static serving is not modelled. A route of type "static" does nothing in
  `route` (its case is empty), so it becomes `NoAction`. `HandleStaticServe`,
  `serveFile` and `serveFolder` (proxy/proxy.go:126-175) are never called by
  `route` and are not modelled. Only the portal's own `http.ServeFile` calls
  are modelled, as `ServeFile(path)` actions; the file serving itself is not.
- The reverse proxy itself is not modelled: `httputil.ReverseProxy`, its
  director and error handler. Only the target normalisation and the
  certificate-check decision are.
- `url.Parse` failing on a normalised target is not modelled.
- Web.SseHandler: the 30-second ping ticker and the pings written during the
  stream are not modelled. The session end is a parameter. The 100 ms sleep
  after the close frame is not modelled. The critical sections that other
  goroutines run before the grant and during the stream are fixed schedules
  (`raced`, `during`) passed in, not a scheduler.
- UDP forwarding: main.go:78-81 hands both tcp and udp routes to
  `ListenProxy`, whose `net.Listen` (listeners/listenServers.go:21) accepts
  stream networks only. A udp route therefore never binds, and main.go:81-84
  then shuts the whole gateway down. `Listeners.ListenProxy` models the
  failure; there is no UDP forwarding to model.
- Web.PingRoundTrip: the clock is not modelled; the ping's time is a
  parameter.
- Web.AuthHandler: webserver/web.go and webserver/hashing.go come from
  different revisions. AuthHandler calls a `validateUserHash` that reports a
  plain mismatch separately from an error, so the model takes that three-way
  comparison as a parameter. hashing.go's `ValidateUserHash` reports every
  mismatch as an error; `Web.WrongKeyIsBadRequest` states what the two give
  together.
- Common.ToLower: lower-casing covers ASCII letters only. Hosts that pass
  validation are ASCII.
- Common.AtoiItoa: `Atoi` refuses values outside the 64-bit range. Integers
  are otherwise unbounded, so a port range past 2^63 is not modelled.
- Config.PortRange: it is stated for bounds up to 2^63-1.
- The loop `for i := fromInt; i <= untilInt; i++` would wrap at the maximum
  64-bit integer. This is not modelled.
- Several parts of the repository are not part of this model:
  - `main.go`, apart from the UDP note above;
  - `LoadConfig` and the logging configuration in config/config.go;
  - database/db.go;
  - sessions/tokens.go;
  - webserver/static.
- The `ListenAddr` field and the `RoutesConfig` type appear in
  listeners/listenServers.go but not in config/config.go.
- Router.Route: the request's path, host and TLS state are plain fields.
  `http.Request` parsing is not modelled.

## Findings

| source | as written | input that shows it | evidently intended | confidence | as-written member | corrected member |
|---|---|---|---|---|---|---|
| proxy/proxy.go:21-26 | when the target cannot be dialled, the client connection is closed and the function returns before the deferred teardown is installed, so the connection that `CheckWhitelistAddConn` registered stays in `ActiveConns` | whitelisted IP, a connection admitted by the listener, and `net.Dial` failing for its target; afterwards the closed connection is still listed under the IP until `cleanupConnection` runs for it | the dial-failure path unregisters the client connection like the teardown does, so the tables return to their state before admission | medium, not executed | Proxy.DialFailureLeavesClosedEntry | Proxy.DialFailureRestoresTables |
