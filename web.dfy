/** The portal's handlers (webserver/web.go): authentication, which whitelists
    the client's IP; the server-sent-events endpoint, which keeps the IP
    whitelisted for as long as the stream lasts and revokes it when the
    stream ends; and the two event frames the stream writes. */
module Web {
  import opened Common
  import opened Validation
  import opened Registry
  import opened Hashing

  // ---------------------------------------------------------------------------
  // Authentication

  /** The decoded JSON body of an authentication request. */
  datatype AuthBody = AuthBody(username: string, key: string)

  /** The parts of a request AuthHandler reads: `remoteIP` is the outcome of
      splitting RemoteAddr, `body` the outcome of decoding the JSON body
      (None when either fails). */
  datatype AuthRequest = AuthRequest(httpMethod: string, remoteIP: Option<string>, body: Option<AuthBody>)

  /** The outcome of comparing a key with a stored hash. */
  datatype HashCheck = Match | NoMatch | CompareError(message: string)

  const StatusOK: nat := 200
  const StatusBadRequest: nat := 400
  const StatusUnauthorized: nat := 401
  const StatusMethodNotAllowed: nat := 405
  const StatusInternalServerError: nat := 500

  /** The index of the first user with the given name, if any. */
  function FirstUser(users: seq<User>, name: string): (r: Option<nat>)
    ensures r.Some? ==> r.value < |users| && users[r.value].name == name
    ensures r.Some? ==> forall k :: 0 <= k < r.value ==> users[k].name != name
    ensures r.None? ==> forall k :: 0 <= k < |users| ==> users[k].name != name
  {
    if users == [] then None
    else if users[0].name == name then Some(0)
    else match FirstUser(users[1..], name)
      case None => None
      case Some(i) => Some(i + 1)
  }

  /** The status AuthHandler answers with (200 on success). */
  function AuthOutcome(req: AuthRequest, users: seq<User>, check: (string, string) -> HashCheck): (status: nat)
    ensures status in {StatusOK, StatusBadRequest, StatusUnauthorized, StatusMethodNotAllowed, StatusInternalServerError}
    ensures status == StatusOK ==>
      && req.httpMethod == "POST" && req.remoteIP.Some? && req.body.Some?
      && FirstUser(users, req.body.value.username).Some?
  {
    if req.httpMethod != "POST" then StatusMethodNotAllowed
    else if req.remoteIP.None? then StatusInternalServerError
    else if req.body.None? then StatusBadRequest
    else
      var b := req.body.value;
      if !ValidateInput(b.username, TypeUsername) || !ValidateInput(b.key, TypePassword) then StatusBadRequest
      else match FirstUser(users, b.username)
        case None => StatusUnauthorized
        case Some(i) =>
          match check(b.key, users[i].hash)
          case Match => StatusOK
          case NoMatch => StatusUnauthorized
          case CompareError(_) => StatusBadRequest
  }

  /** AuthHandler: method, address and body checks, input validation, the
      scan for the first user of that name, and on success the grant. */
  method AuthHandler(reg: AccessRegistry, req: AuthRequest, users: seq<User>, check: (string, string) -> HashCheck)
    returns (status: nat)
    requires reg.Valid()
    modifies reg
    ensures reg.Valid()
    ensures status == AuthOutcome(req, users, check)
    ensures status == StatusOK ==> reg.Snapshot() == Granted(old(reg.Snapshot()), req.remoteIP.value)
    ensures status != StatusOK ==> reg.Snapshot() == old(reg.Snapshot())
  {
    if req.httpMethod != "POST" {
      return StatusMethodNotAllowed;
    }
    if req.remoteIP.None? {
      return StatusInternalServerError;
    }
    var clientIP := req.remoteIP.value;
    if req.body.None? {
      return StatusBadRequest;
    }
    var authReq := req.body.value;
    if !ValidateInput(authReq.username, TypeUsername) {
      return StatusBadRequest;
    }
    if !ValidateInput(authReq.key, TypePassword) {
      return StatusBadRequest;
    }
    var authenticated := false;
    var i := 0;
    while i < |users|
      invariant 0 <= i <= |users|
      invariant forall k :: 0 <= k < i ==> users[k].name != authReq.username
      invariant !authenticated
    {
      if authReq.username == users[i].name {
        assert FirstUser(users, authReq.username) == Some(i);
        var auth := check(authReq.key, users[i].hash);
        if auth.CompareError? {
          return StatusBadRequest;
        }
        if auth == Match {
          authenticated := true;
          break;
        } else {
          return StatusUnauthorized;
        }
      }
      i := i + 1;
    }
    if !authenticated {
      return StatusUnauthorized;
    }
    reg.Grant(clientIP);
    return StatusOK;
  }

  /** Authentication succeeds exactly for a POST with a parsable address and
      body, a valid username and key, and a key the first user of that name
      matches. */
  lemma AuthSucceedsIff(req: AuthRequest, users: seq<User>, check: (string, string) -> HashCheck)
    ensures AuthOutcome(req, users, check) == StatusOK <==>
      && req.httpMethod == "POST" && req.remoteIP.Some? && req.body.Some?
      && UsernamePattern(req.body.value.username)
      && PasswordPattern(req.body.value.key) && !HasDotDot(req.body.value.key)
      && FirstUser(users, req.body.value.username).Some?
      && check(req.body.value.key, users[FirstUser(users, req.body.value.username).value].hash) == Match
  {
    if req.body.Some? {
      UsernameAccepted(req.body.value.username);
      PasswordAccepted(req.body.value.key);
    }
  }

  /** Only the first user with the name decides: users after it, even with the
      same name and a matching hash, play no part. */
  lemma {:induction false} FirstMatchDecides(req: AuthRequest, pre: seq<User>, u: User, post: seq<User>, check: (string, string) -> HashCheck)
    requires req.body.Some? && u.name == req.body.value.username
    requires forall k :: 0 <= k < |pre| ==> pre[k].name != u.name
    ensures AuthOutcome(req, pre + [u] + post, check) == AuthOutcome(req, [u], check)
  {
    FirstUserAfter(pre, u, post);
  }

  lemma {:induction false} FirstUserAfter(pre: seq<User>, u: User, post: seq<User>)
    requires forall k :: 0 <= k < |pre| ==> pre[k].name != u.name
    ensures FirstUser(pre + [u] + post, u.name) == Some(|pre|)
    decreases |pre|
  {
    var users := pre + [u] + post;
    if pre == [] {
      assert users[0] == u;
    } else {
      assert users[0] == pre[0] && users[1..] == pre[1..] + [u] + post;
      FirstUserAfter(pre[1..], u, post);
    }
  }

  /** A name no user has is refused with 401, whatever the key. */
  lemma UnknownUserUnauthorized(req: AuthRequest, users: seq<User>, check: (string, string) -> HashCheck)
    requires req.httpMethod == "POST" && req.remoteIP.Some? && req.body.Some?
    requires ValidateInput(req.body.value.username, TypeUsername) && ValidateInput(req.body.value.key, TypePassword)
    requires forall k :: 0 <= k < |users| ==> users[k].name != req.body.value.username
    ensures AuthOutcome(req, users, check) == StatusUnauthorized
  {
  }

  /** The comparison AuthHandler gets from hashing.go's ValidateUserHash: bcrypt
      reports every failed comparison as an error, so a mismatch is always a
      CompareError and never a NoMatch. */
  function CheckViaValidateUserHash(compare: (string, string) -> Option<string>): (string, string) -> HashCheck {
    (key: string, hash: string) =>
      var r := ValidateUserHash(compare(key, hash));
      if r.0 then Match else if r.1.Some? then CompareError(r.1.value) else NoMatch
  }

  /** With ValidateUserHash as the comparison, a wrong key for an existing user
      is answered 400, not 401. */
  lemma WrongKeyIsBadRequest(req: AuthRequest, users: seq<User>, compare: (string, string) -> Option<string>)
    requires req.httpMethod == "POST" && req.remoteIP.Some? && req.body.Some?
    requires ValidateInput(req.body.value.username, TypeUsername) && ValidateInput(req.body.value.key, TypePassword)
    requires FirstUser(users, req.body.value.username).Some?
    requires compare(req.body.value.key, users[FirstUser(users, req.body.value.username).value].hash).Some?
    ensures AuthOutcome(req, users, CheckViaValidateUserHash(compare)) == StatusBadRequest
  {
  }

  // ---------------------------------------------------------------------------
  // The event stream

  datatype SseRequest = SseRequest(httpMethod: string, remoteIP: Option<string>)

  /** Why a stream ended: server shutdown, the client going away, or a ping
      that could not be written. */
  datatype SessionEnd = Shutdown | ClientGone | PingFailed

  /** The comment line that flushes the headers when the stream opens. */
  const OpenComment: string := ":ok\n\n"

  /** The status SseHandler answers with (200 when the stream opens). */
  function SseOutcome(req: SseRequest, reg: RegistryState, canFlush: bool): (status: nat)
    ensures status in {StatusOK, StatusUnauthorized, StatusMethodNotAllowed, StatusInternalServerError}
    ensures status == StatusOK <==> req.httpMethod == "GET" && req.remoteIP.Some? && Whitelisted(reg, req.remoteIP.value) && canFlush
  {
    if req.httpMethod != "GET" then StatusMethodNotAllowed
    else if req.remoteIP.None? then StatusInternalServerError
    else if !Whitelisted(reg, req.remoteIP.value) then StatusUnauthorized
    else if !canFlush then StatusInternalServerError
    else StatusOK
  }

  /** The headers of an open stream. */
  function StreamHeaders(portal: string): map<string, string> {
    map["Content-Type" := "text/event-stream", "Cache-Control" := "no-cache",
        "Connection" := "keep-alive", "Access-Control-Allow-Origin" := portal]
  }

  /** The registry when a stream of `ip` has ended: the critical sections
      `raced` ran between the whitelist check and the re-grant, the stream held
      the grant while `during` ran, and the deferred cleanupConnection revoked
      the IP. */
  function StreamSession(s: RegistryState, ip: string, raced: seq<Op>, during: seq<Op>): RegistryState {
    Revoked(ApplyAll(Granted(ApplyAll(s, raced), ip), during), ip)
  }

  /** SseHandler: method, address and whitelist checks; on an open stream the
      headers, the opening comment and the re-grant (a critical section of its
      own, after whatever other goroutines ran since the check); while the
      stream is open other goroutines run their critical sections; when it
      ends, the close frame on shutdown, then the deferred cleanupConnection.
      The pings written in between are not modelled. */
  method SseHandler(reg: AccessRegistry, req: SseRequest, canFlush: bool, portal: string,
                    raced: seq<Op>, during: seq<Op>, end: SessionEnd)
    returns (status: nat, headers: map<string, string>, written: seq<string>)
    requires reg.Valid()
    modifies reg
    ensures reg.Valid()
    ensures status == SseOutcome(req, old(reg.Snapshot()), canFlush)
    ensures status != StatusOK ==> reg.Snapshot() == old(reg.Snapshot()) && headers == map[] && written == []
    ensures status == StatusOK ==>
      && headers == StreamHeaders(portal)
      && written == [OpenComment] + (if end == Shutdown then [CloseFrame] else [])
      && reg.Snapshot() == StreamSession(old(reg.Snapshot()), req.remoteIP.value, raced, during)
  {
    headers, written := map[], [];
    if req.httpMethod != "GET" {
      return StatusMethodNotAllowed, headers, written;
    }
    if req.remoteIP.None? {
      return StatusInternalServerError, headers, written;
    }
    var clientIP := req.remoteIP.value;
    var allowed := reg.CheckWhitelist(clientIP);
    if !allowed {
      return StatusUnauthorized, headers, written;
    }
    if !canFlush {
      return StatusInternalServerError, headers, written;
    }
    headers := StreamHeaders(portal);
    written := [OpenComment];
    Interleave(reg, raced);
    reg.Grant(clientIP);
    Interleave(reg, during);
    if end == Shutdown {
      written := written + [CloseFrame];
    }
    reg.CleanupConnection(clientIP);
    status := StatusOK;
  }

  /** No critical section in `ops` revokes `ip`: no other stream of the same
      IP ends while this one is open. */
  predicate NoRevokeOf(ops: seq<Op>, ip: string) {
    forall k :: 0 <= k < |ops| ==> ops[k] != RevokeOp(ip)
  }

  /** The stream is a lease: once it has opened, and as long as no other
      stream of the IP ends, the IP is whitelisted after every critical
      section the other goroutines run; when it ends, the IP is off both
      tables and every connection then listed for it is closed. */
  lemma StreamLease(s: RegistryState, ip: string, raced: seq<Op>, during: seq<Op>)
    requires NoRevokeOf(during, ip)
    ensures var open := Granted(ApplyAll(s, raced), ip);
      forall n :: 0 <= n <= |during| ==> Whitelisted(ApplyAll(open, during[..n]), ip)
    ensures var t := StreamSession(s, ip, raced, during);
      && !Whitelisted(t, ip) && ip !in t.active
      && Elements(ConnsOf(ApplyAll(Granted(ApplyAll(s, raced), ip), during).active, ip)) <= t.closed
  {
    var open := Granted(ApplyAll(s, raced), ip);
    forall n | 0 <= n <= |during|
      ensures Whitelisted(ApplyAll(open, during[..n]), ip)
    {
      StaysWhitelisted(open, ip, during[..n]);
    }
  }

  /** Every connection a listener checks for the IP while the stream is open
      (and no other stream of the IP ends) is admitted, and unless its own
      teardown unregisters it later in the stream, it is closed when the
      stream ends. */
  lemma StreamAdmissionsClosed(s: RegistryState, ip: string, raced: seq<Op>, during: seq<Op>, k: nat)
    requires NoRevokeOf(during, ip)
    requires k < |during| && during[k].RegisterOp? && during[k].ip == ip
    requires forall j :: k < j < |during| ==> during[j] != UnregisterOp(ip, during[k].conn)
    ensures CheckAndRegister(ApplyAll(Granted(ApplyAll(s, raced), ip), during[..k]), ip, during[k].conn).0
    ensures during[k].conn in StreamSession(s, ip, raced, during).closed
  {
    var open := Granted(ApplyAll(s, raced), ip);
    var c := during[k].conn;
    StaysWhitelisted(open, ip, during[..k]);
    var admitted := ApplyAll(open, during[..k + 1]);
    assert during[..k + 1][..k] == during[..k];
    assert c in ConnsOf(admitted.active, ip);
    var rest := during[k + 1..];
    assert during == during[..k + 1] + rest;
    ApplyAllAppend(open, during[..k + 1], rest);
    assert forall j :: 0 <= j < |rest| ==> rest[j] == during[k + 1 + j];
    StaysListed(admitted, ip, c, rest);
  }

  /** The lease is per IP, not per stream: when another stream of the same IP
      ends while this one is open, its deferred cleanupConnection takes the IP
      off the whitelist, closes its listed connections and makes the next
      check for the IP fail, though this stream is still open. */
  lemma OtherStreamEndEndsLease(s: RegistryState, ip: string, raced: seq<Op>, pre: seq<Op>, c: Conn)
    ensures var mid := ApplyAll(Granted(ApplyAll(s, raced), ip), pre + [RevokeOp(ip)]);
      && !Whitelisted(mid, ip)
      && !CheckAndRegister(mid, ip, c).0
      && Elements(ConnsOf(ApplyAll(Granted(ApplyAll(s, raced), ip), pre).active, ip)) <= mid.closed
  {
    assert (pre + [RevokeOp(ip)])[..|pre|] == pre;
  }

  /** The re-grant matters: when another stream of the same IP ends between
      this stream's whitelist check and its grant, the grant restores the
      lease, so a connection admitted during the stream is closed at its end;
      without the grant that connection would have been refused and left
      open by the registry. */
  lemma RegrantRestoresLease(s: RegistryState, ip: string, c: Conn)
    requires c !in s.closed && c !in ConnsOf(s.active, ip)
    ensures c in StreamSession(s, ip, [RevokeOp(ip)], [RegisterOp(ip, c)]).closed
    ensures c !in Revoked(ApplyAll(ApplyAll(s, [RevokeOp(ip)]), [RegisterOp(ip, c)]), ip).closed
  {
    StreamAdmissionsClosed(s, ip, [RevokeOp(ip)], [RegisterOp(ip, c)], 0);
    var r := ApplyAll(s, [RevokeOp(ip)]);
    assert [RevokeOp(ip)][..0] == [] && [RegisterOp(ip, c)][..0] == [];
    assert r == Revoked(s, ip);
    assert ApplyAll(r, [RegisterOp(ip, c)]) == r;
  }

  /** A stream is refused, with the registry untouched, for a non-GET or a
      client that is not whitelisted. */
  lemma SseRefusals(req: SseRequest, s: RegistryState, canFlush: bool)
    ensures req.httpMethod != "GET" ==> SseOutcome(req, s, canFlush) == StatusMethodNotAllowed
    ensures req.httpMethod == "GET" && req.remoteIP.Some? && !Whitelisted(s, req.remoteIP.value) ==>
      SseOutcome(req, s, canFlush) == StatusUnauthorized
    ensures SseOutcome(req, s, canFlush) == StatusOK ==> req.remoteIP.Some? && Whitelisted(s, req.remoteIP.value)
  {
  }

  // ---------------------------------------------------------------------------
  // Frames

  const PingPrefix: string := "event: ping\ndata: "
  const FrameEnd: string := "\n\n"

  /** The close frame written on server shutdown. */
  const CloseFrame: string := "event: close\ndata: {\"reason\":\"server shutdown\"}\n\n"

  /** sendPing's frame: the current Unix time in milliseconds, in decimal, as
      a single data line closed by the blank line that ends an event. */
  function PingFrame(ms: int): (f: string)
    ensures |f| > |PingPrefix| + |FrameEnd|
    ensures f[..|PingPrefix|] == PingPrefix && f[|f| - |FrameEnd|..] == FrameEnd
    ensures forall i :: |PingPrefix| <= i < |f| - |FrameEnd| ==> f[i] != '\n'
  {
    ItoaChars(ms);
    var f := PingPrefix + Itoa(ms) + FrameEnd;
    assert forall i :: |PingPrefix| <= i < |f| - |FrameEnd| ==> f[i] == Itoa(ms)[i - |PingPrefix|];
    f
  }

  datatype Frame = Ping(ms: int) | Close

  /** Reads a frame back: the close frame, or a ping whose data is a number. */
  function ParseFrame(f: string): Option<Frame> {
    if f == CloseFrame then Some(Close)
    else if |f| >= |PingPrefix| + |FrameEnd| && f[..|PingPrefix|] == PingPrefix && f[|f| - |FrameEnd|..] == FrameEnd then
      match Atoi(f[|PingPrefix|..|f| - |FrameEnd|])
      case None => None
      case Some(ms) => Some(Ping(ms))
    else None
  }

  /** A ping frame reads back as the time it carries, for every 64-bit time. */
  lemma PingRoundTrip(ms: int)
    requires MinInt64 <= ms <= MaxInt64
    ensures ParseFrame(PingFrame(ms)) == Some(Ping(ms))
  {
    var f := PingFrame(ms);
    assert f[7] == 'p' && CloseFrame[7] == 'c';
    assert f[..|PingPrefix|] == PingPrefix;
    assert f[|f| - |FrameEnd|..] == FrameEnd;
    assert f[|PingPrefix|..|f| - |FrameEnd|] == Itoa(ms);
    AtoiItoa(ms);
  }

  /** The close frame reads back as itself, never as a ping, and ends with
      the blank line that terminates an event. */
  lemma CloseRoundTrip()
    ensures ParseFrame(CloseFrame) == Some(Close)
    ensures CloseFrame[|CloseFrame| - |FrameEnd|..] == FrameEnd
  {
  }
}
