/** The raw TCP listener (listeners/listenServers.go, ListenProxy): the
    accept loop, which classifies accept errors, skips peers whose address
    cannot be split, applies the firewall's admission rule and either
    dispatches the connection to the proxy or closes it; and the ordering of
    start-up and shutdown around it. The socket calls are replaced by a
    sequence of accept outcomes. */
module Listeners {
  import opened Common
  import opened Config
  import opened Registry

  /** What one call to Accept produced. `remoteIP` is the outcome of splitting
      the peer address (None when it fails). */
  datatype AcceptEvent =
    | AcceptFailed(isOpError: bool, op: string, message: string)
    | Accepted(conn: Conn, remoteIP: Option<string>)

  const ClosedConnText: string := "use of closed network connection"

  /** The accept error that means the listener has been closed. */
  predicate ListenerClosed(e: AcceptEvent) {
    e.AcceptFailed? && e.isOpError && e.op == "accept" && Contains(e.message, ClosedConnText)
  }

  /** The error the loop sees once shutdown has closed the listener. */
  function ClosedError(): (e: AcceptEvent)
    ensures ListenerClosed(e)
  {
    var msg := "accept tcp: " + ClosedConnText;
    assert OccursAt(msg, ClosedConnText, 12) by { assert msg[12..12 + |ClosedConnText|] == ClosedConnText; }
    AcceptFailed(true, "accept", msg)
  }

  /** The admission rule: everything is admitted with the firewall off or
      default-allow on; otherwise check-and-register decides, and registers
      what it admits. */
  function Admit(fw: FirewallConfig, s: RegistryState, ip: string, c: Conn): (bool, RegistryState) {
    if !fw.enableFirewall || fw.defaultAllow then (true, s) else CheckAndRegister(s, ip, c)
  }

  /** The accept loop's state: the registry, the connections handed to the
      proxy (with their client IP) and those refused, and whether it runs. */
  datatype LoopState = LoopState(reg: RegistryState, dispatched: seq<(Conn, string)>, refused: seq<Conn>, running: bool)

  function Start(s: RegistryState): LoopState {
    LoopState(s, [], [], true)
  }

  /** One iteration of the loop: a stopped loop does nothing; a running one
      only stops, or appends at most one connection to one of its lists, and
      never reopens a closed connection. */
  function Step(st: LoopState, fw: FirewallConfig, e: AcceptEvent): (r: LoopState)
    ensures !st.running ==> r == st
    ensures r.running ==> st.running
    ensures st.dispatched <= r.dispatched && st.refused <= r.refused
    ensures |r.dispatched| + |r.refused| <= |st.dispatched| + |st.refused| + 1
    ensures st.reg.closed <= r.reg.closed
  {
    if !st.running then st
    else match e
      case AcceptFailed(_, _, _) => if ListenerClosed(e) then st.(running := false) else st
      case Accepted(c, None) => st
      case Accepted(c, Some(ip)) =>
        var (allowed, s') := Admit(fw, st.reg, ip, c);
        if allowed then st.(reg := s', dispatched := st.dispatched + [(c, ip)])
        else st.(reg := s'.(closed := s'.closed + {c}), refused := st.refused + [c])
  }

  /** The loop over a sequence of accept outcomes: once stopped it stays
      stopped, its lists only grow, by at most one connection per outcome, and
      closed connections stay closed. */
  function Run(st: LoopState, fw: FirewallConfig, es: seq<AcceptEvent>): (r: LoopState)
    ensures r.running ==> st.running
    ensures st.dispatched <= r.dispatched && st.refused <= r.refused
    ensures |r.dispatched| + |r.refused| <= |st.dispatched| + |st.refused| + |es|
    ensures st.reg.closed <= r.reg.closed
  {
    if es == [] then st else Step(Run(st, fw, es[..|es| - 1]), fw, es[|es| - 1])
  }

  /** The accept loop, over the accept outcomes it sees. */
  method AcceptLoop(reg: AccessRegistry, fw: FirewallConfig, events: seq<AcceptEvent>)
    returns (dispatched: seq<(Conn, string)>, refused: seq<Conn>, exited: bool)
    requires reg.Valid()
    modifies reg
    ensures reg.Valid()
    ensures LoopState(reg.Snapshot(), dispatched, refused, !exited) == Run(Start(old(reg.Snapshot())), fw, events)
  {
    ghost var start := Start(reg.Snapshot());
    dispatched, refused, exited := [], [], false;
    var i := 0;
    while i < |events|
      invariant 0 <= i <= |events|
      invariant reg.Valid()
      invariant LoopState(reg.Snapshot(), dispatched, refused, true) == Run(start, fw, events[..i])
    {
      assert events[..i + 1][..i] == events[..i];
      var e := events[i];
      if e.AcceptFailed? {
        if e.isOpError && e.op == "accept" && Contains(e.message, ClosedConnText) {
          exited := true;
          StoppedStays(start, fw, events, i + 1);
          return;
        }
        i := i + 1;
        continue;
      }
      if e.remoteIP.None? {
        i := i + 1;
        continue;
      }
      var clientIP := e.remoteIP.value;
      var allowed := true;
      if fw.enableFirewall {
        allowed := fw.defaultAllow;
        if !allowed {
          allowed := reg.CheckWhitelistAddConn(clientIP, e.conn);
        }
      }
      if allowed {
        dispatched := dispatched + [(e.conn, clientIP)];
      } else {
        reg.MarkClosed(e.conn);
        refused := refused + [e.conn];
      }
      i := i + 1;
    }
    assert events[..|events|] == events;
  }

  /** The networks net.Listen accepts: stream networks only. */
  const StreamNetworks: set<string> := {"tcp", "tcp4", "tcp6", "unix", "unixpacket"}

  /** Whether the listener comes up: the route's protocol must be a stream
      network and the address must be free (`addressFree` stands for what the
      operating system answers). */
  predicate Binds(protocol: string, addressFree: bool) {
    protocol in StreamNetworks && addressFree
  }

  /** ListenProxy: a listen failure returns the error before any accept;
      otherwise the loop runs until shutdown, shutdown closes the listener,
      which makes the loop's next Accept fail, and only then is the loop
      waited for. `events` are the accepts before shutdown. */
  method ListenProxy(reg: AccessRegistry, fw: FirewallConfig, protocol: string, addressFree: bool, events: seq<AcceptEvent>)
    returns (failed: bool, dispatched: seq<(Conn, string)>, refused: seq<Conn>)
    requires reg.Valid()
    modifies reg
    ensures reg.Valid()
    ensures failed <==> !Binds(protocol, addressFree)
    ensures failed ==> dispatched == [] && refused == [] && reg.Snapshot() == old(reg.Snapshot())
    ensures !failed ==> LoopState(reg.Snapshot(), dispatched, refused, false) == Run(Start(old(reg.Snapshot())), fw, events + [ClosedError()])
  {
    dispatched, refused := [], [];
    if !(protocol in StreamNetworks && addressFree) {
      return true, dispatched, refused;
    }
    var exited;
    dispatched, refused, exited := AcceptLoop(reg, fw, events + [ClosedError()]);
    ClosingEndsLoop(Start(old(reg.Snapshot())), fw, events);
    failed := false;
  }

  /** A udp route never gets a listener, whatever the address: net.Listen
      refuses packet networks, so ListenProxy always returns an error for it. */
  lemma UdpNeverListens(addressFree: bool)
    ensures !Binds("udp", addressFree)
    ensures Binds("tcp", addressFree) <==> addressFree
  {
  }

  // ---------------------------------------------------------------------------
  // Properties of the loop

  /** The loop processes a concatenation one part after the other. */
  lemma {:induction false} RunAppend(st: LoopState, fw: FirewallConfig, a: seq<AcceptEvent>, b: seq<AcceptEvent>)
    ensures Run(st, fw, a + b) == Run(Run(st, fw, a), fw, b)
    decreases |b|
  {
    if b == [] {
      assert a + b == a;
    } else {
      assert (a + b)[..|a + b| - 1] == a + b[..|b| - 1];
      RunAppend(st, fw, a, b[..|b| - 1]);
    }
  }

  /** A stopped loop ignores everything after. */
  lemma {:induction false} RunStopped(st: LoopState, fw: FirewallConfig, es: seq<AcceptEvent>)
    requires !st.running
    ensures Run(st, fw, es) == st
    decreases |es|
  {
    if es != [] {
      RunStopped(st, fw, es[..|es| - 1]);
    }
  }

  lemma StoppedStays(st: LoopState, fw: FirewallConfig, es: seq<AcceptEvent>, n: nat)
    requires n <= |es| && !Run(st, fw, es[..n]).running
    ensures Run(st, fw, es) == Run(st, fw, es[..n])
  {
    assert es == es[..n] + es[n..];
    RunAppend(st, fw, es[..n], es[n..]);
    RunStopped(Run(st, fw, es[..n]), fw, es[n..]);
  }

  /** The loop exits on the closed-listener error and on nothing else: what
      follows that error is never processed. */
  lemma ExitOnClosedListener(st: LoopState, fw: FirewallConfig, pre: seq<AcceptEvent>, e: AcceptEvent, post: seq<AcceptEvent>)
    requires ListenerClosed(e)
    ensures !Run(st, fw, pre + [e] + post).running
    ensures Run(st, fw, pre + [e] + post) == Run(st, fw, pre + [e])
  {
    RunAppend(st, fw, pre + [e], post);
    assert (pre + [e])[..|pre|] == pre;
    RunStopped(Run(st, fw, pre + [e]), fw, post);
  }

  /** Once shutdown has closed the listener, the loop has stopped, so waiting
      for it returns. */
  lemma ClosingEndsLoop(st: LoopState, fw: FirewallConfig, es: seq<AcceptEvent>)
    ensures !Run(st, fw, es + [ClosedError()]).running
  {
    assert (es + [ClosedError()])[..|es|] == es;
  }

  /** Accept errors other than the closed listener, and peers whose address
      cannot be split, are skipped: the loop goes on as if they had not
      happened, without closing or registering anything. */
  predicate Skipped(e: AcceptEvent) {
    (e.AcceptFailed? && !ListenerClosed(e)) || (e.Accepted? && e.remoteIP.None?)
  }

  lemma SkippedEventsIgnored(st: LoopState, fw: FirewallConfig, pre: seq<AcceptEvent>, e: AcceptEvent, post: seq<AcceptEvent>)
    requires Skipped(e)
    ensures Run(st, fw, pre + [e] + post) == Run(st, fw, pre + post)
  {
    RunAppend(st, fw, pre + [e], post);
    RunAppend(st, fw, pre, post);
    assert (pre + [e])[..|pre|] == pre;
  }

  /** The admission rule, case by case. */
  lemma AdmissionRule(fw: FirewallConfig, s: RegistryState, ip: string, c: Conn)
    ensures !fw.enableFirewall ==> Admit(fw, s, ip, c) == (true, s)
    ensures fw.enableFirewall && fw.defaultAllow ==> Admit(fw, s, ip, c) == (true, s)
    ensures fw.enableFirewall && !fw.defaultAllow ==>
      && Admit(fw, s, ip, c).0 == Whitelisted(s, ip)
      && (Admit(fw, s, ip, c).0 ==> ConnsOf(Admit(fw, s, ip, c).1.active, ip) == ConnsOf(s.active, ip) + [c])
      && (!Admit(fw, s, ip, c).0 ==> Admit(fw, s, ip, c).1 == s)
  {
  }

  /** Without the whitelist check (firewall off or default-allow on) nothing
      is refused and neither table is touched. */
  lemma {:induction false} OpenLoopTouchesNothing(st: LoopState, fw: FirewallConfig, es: seq<AcceptEvent>)
    requires !fw.enableFirewall || fw.defaultAllow
    ensures Run(st, fw, es).reg == st.reg
    ensures Run(st, fw, es).refused == st.refused
    decreases |es|
  {
    if es != [] {
      OpenLoopTouchesNothing(st, fw, es[..|es| - 1]);
    }
  }

  /** Every refused connection is closed, and closed connections stay closed. */
  lemma {:induction false} RefusedAreClosed(st: LoopState, fw: FirewallConfig, es: seq<AcceptEvent>)
    requires forall c :: c in st.refused ==> c in st.reg.closed
    ensures forall c :: c in Run(st, fw, es).refused ==> c in Run(st, fw, es).reg.closed
    ensures st.reg.closed <= Run(st, fw, es).reg.closed
    decreases |es|
  {
    if es != [] {
      RefusedAreClosed(st, fw, es[..|es| - 1]);
    }
  }

  /** With the whitelist check on, every dispatched connection is registered
      under its IP (the loop itself only ever appends to the lists). */
  lemma {:induction false} DispatchedAreRegistered(st: LoopState, fw: FirewallConfig, es: seq<AcceptEvent>)
    requires fw.enableFirewall && !fw.defaultAllow
    requires forall d :: d in st.dispatched ==> d.0 in ConnsOf(st.reg.active, d.1)
    ensures forall d :: d in Run(st, fw, es).dispatched ==> d.0 in ConnsOf(Run(st, fw, es).reg.active, d.1)
    decreases |es|
  {
    if es != [] {
      var mid := Run(st, fw, es[..|es| - 1]);
      DispatchedAreRegistered(st, fw, es[..|es| - 1]);
      var e := es[|es| - 1];
      if mid.running && e.Accepted? && e.remoteIP.Some? {
        var ip := e.remoteIP.value;
        var r := CheckAndRegister(mid.reg, ip, e.conn);
        if r.0 {
          forall d | d in mid.dispatched + [(e.conn, ip)]
            ensures d.0 in ConnsOf(r.1.active, d.1)
          {
            if d in mid.dispatched && d.1 == ip {
              assert d.0 in ConnsOf(mid.reg.active, ip) + [e.conn];
            }
          }
        }
      }
    }
  }
}
