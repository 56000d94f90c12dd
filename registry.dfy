/** The process-wide access registry: the whitelist (IP -> allowed) and the
    table of live raw connections per IP, guarded together by one lock.

    Every critical section of the gateway that touches the two tables is one
    method of `AccessRegistry`, so each is one atomic transition; each method
    is specified by a pure transition on `RegistryState`, and the properties
    of the registry are lemmas about those transitions. */
module Registry {

  /** A raw network connection, identified by a stable id. */
  type Conn = nat

  /** The abstract value of the registry: the two tables, plus the set of
      connections that have been closed (closing a connection is the only
      effect of the registry on connections). */
  datatype RegistryState = RegistryState(
    whitelist: map<string, bool>,
    active: map<string, seq<Conn>>,
    closed: set<Conn>)

  /** Both tables start empty and no connection is closed yet. */
  function Empty(): (s: RegistryState)
    ensures forall ip :: !Whitelisted(s, ip) && ConnsOf(s.active, ip) == []
    ensures NoEmptyLists(s)
  {
    RegistryState(map[], map[], {})
  }

  /** A Go map read returns the zero value for a missing key: an IP that is
      not in the whitelist reads as not whitelisted. */
  predicate Whitelisted(s: RegistryState, ip: string) {
    ip in s.whitelist && s.whitelist[ip]
  }

  /** The list of connections registered for `ip` (nil, i.e. empty, when absent). */
  function ConnsOf(active: map<string, seq<Conn>>, ip: string): seq<Conn> {
    if ip in active then active[ip] else []
  }

  /** The registry never stores an empty list: a list is created by the append
      that registers its first connection and deleted when its last one goes. */
  ghost predicate NoEmptyLists(s: RegistryState) {
    forall ip :: ip in s.active ==> s.active[ip] != []
  }

  // ---------------------------------------------------------------------------
  // Transitions, one per critical section

  /** Grant: `WhitelistedIPs[ip] = true` (authentication and the streaming endpoint). */
  function Granted(s: RegistryState, ip: string): (s': RegistryState)
    ensures Whitelisted(s', ip)
    ensures forall other :: other != ip ==> (Whitelisted(s', other) <==> Whitelisted(s, other))
    ensures s'.active == s.active && s'.closed == s.closed
    ensures NoEmptyLists(s) ==> NoEmptyLists(s')
  {
    s.(whitelist := s.whitelist[ip := true])
  }

  /** Check-and-register: read the whitelist entry and, when it is true, append
      the connection to the IP's list, all under one lock. */
  function CheckAndRegister(s: RegistryState, ip: string, c: Conn): (r: (bool, RegistryState))
    ensures r.0 == Whitelisted(s, ip)
    ensures r.1.whitelist == s.whitelist && r.1.closed == s.closed
    ensures r.0 ==> r.1.active == s.active[ip := ConnsOf(s.active, ip) + [c]]
    ensures !r.0 ==> r.1 == s
    ensures NoEmptyLists(s) ==> NoEmptyLists(r.1)
  {
    if Whitelisted(s, ip) then
      (true, s.(active := s.active[ip := ConnsOf(s.active, ip) + [c]]))
    else
      (false, s)
  }

  /** Revoke-and-evict: delete the whitelist entry, close every connection
      listed for the IP, delete the IP's list. */
  function Revoked(s: RegistryState, ip: string): (s': RegistryState)
    ensures ip !in s'.whitelist && ip !in s'.active && !Whitelisted(s', ip)
    ensures s'.closed == s.closed + Elements(ConnsOf(s.active, ip))
    ensures forall other :: other != ip ==>
      (other in s'.whitelist <==> other in s.whitelist) && (other in s.whitelist ==> s'.whitelist[other] == s.whitelist[other])
    ensures forall other :: other != ip ==> ConnsOf(s'.active, other) == ConnsOf(s.active, other)
    ensures NoEmptyLists(s) ==> NoEmptyLists(s')
  {
    RegistryState(s.whitelist - {ip}, s.active - {ip}, s.closed + Elements(ConnsOf(s.active, ip)))
  }

  function Elements(xs: seq<Conn>): (e: set<Conn>)
    ensures forall c :: c in e <==> c in xs
  {
    set c | c in xs
  }

  /** Unregister, run by a raw connection's own teardown: remove the first
      occurrence of the connection from its IP's list; drop the key when the
      list is left empty (or was absent). */
  function Unregistered(s: RegistryState, ip: string, c: Conn): (s': RegistryState)
    ensures s'.whitelist == s.whitelist && s'.closed == s.closed
    ensures ConnsOf(s'.active, ip) == RemoveFirst(ConnsOf(s.active, ip), c)
    ensures ConnsOf(s'.active, ip) == [] ==> ip !in s'.active
    ensures forall other :: other != ip ==> ConnsOf(s'.active, other) == ConnsOf(s.active, other)
    ensures NoEmptyLists(s) ==> NoEmptyLists(s')
  {
    var rest := RemoveFirst(ConnsOf(s.active, ip), c);
    s.(active := if rest == [] then s.active - {ip} else s.active[ip := rest])
  }

  /** The list with the first occurrence of `c` taken out. */
  function RemoveFirst(xs: seq<Conn>, c: Conn): (r: seq<Conn>)
    ensures c in xs ==> |r| == |xs| - 1
    ensures c !in xs ==> r == xs
  {
    if xs == [] then []
    else
      assert xs == [xs[0]] + xs[1..];
      if xs[0] == c then xs[1..] else [xs[0]] + RemoveFirst(xs[1..], c)
  }

  /** A critical section run by some other goroutine: a grant (authentication
      or an opening stream), an admission by a listener, a revoke (a stream
      ending), a teardown's unregister, or a connection being closed. */
  datatype Op =
    | GrantOp(ip: string)
    | RegisterOp(ip: string, conn: Conn)
    | RevokeOp(ip: string)
    | UnregisterOp(ip: string, conn: Conn)
    | CloseOp(conn: Conn)

  function Apply(s: RegistryState, op: Op): (s': RegistryState)
    ensures NoEmptyLists(s) ==> NoEmptyLists(s')
    ensures s.closed <= s'.closed
  {
    match op
    case GrantOp(ip) => Granted(s, ip)
    case RegisterOp(ip, c) => CheckAndRegister(s, ip, c).1
    case RevokeOp(ip) => Revoked(s, ip)
    case UnregisterOp(ip, c) => Unregistered(s, ip, c)
    case CloseOp(c) => s.(closed := s.closed + {c})
  }

  /** A schedule of critical sections, run in order; a closed connection
      stays closed. */
  function ApplyAll(s: RegistryState, ops: seq<Op>): (s': RegistryState)
    ensures NoEmptyLists(s) ==> NoEmptyLists(s')
    ensures s.closed <= s'.closed
  {
    if ops == [] then s else Apply(ApplyAll(s, ops[..|ops| - 1]), ops[|ops| - 1])
  }

  // ---------------------------------------------------------------------------
  // Properties of the transitions

  /** Removing the first occurrence keeps the order of everything else: it is
      exactly the splice `xs[..i] + xs[i+1..]` at the first index of `c`. */
  lemma {:induction false} RemoveFirstAt(xs: seq<Conn>, c: Conn, i: nat)
    requires i < |xs| && xs[i] == c && c !in xs[..i]
    ensures RemoveFirst(xs, c) == xs[..i] + xs[i + 1..]
  {
    if i > 0 {
      assert xs[0] != c by { assert xs[0] == xs[..i][0]; }
      assert xs[1..][..i - 1] == xs[1..i];
      RemoveFirstAt(xs[1..], c, i - 1);
    }
  }

  /** Exactly one copy of `c` goes; every other connection stays. */
  lemma {:induction false} RemoveFirstMultiset(xs: seq<Conn>, c: Conn)
    ensures multiset(RemoveFirst(xs, c)) == multiset(xs) - multiset{c}
  {
    if xs != [] {
      assert xs == [xs[0]] + xs[1..];
      if xs[0] != c {
        RemoveFirstMultiset(xs[1..], c);
      }
    }
  }

  /** Revoking twice is the same as revoking once. */
  lemma RevokeIdempotent(s: RegistryState, ip: string)
    ensures Revoked(Revoked(s, ip), ip) == Revoked(s, ip)
  {
    assert ConnsOf(Revoked(s, ip).active, ip) == [];
    assert Elements([]) == {};
  }

  /** Revoking an IP that is in neither table closes nothing and changes nothing. */
  lemma RevokeAbsent(s: RegistryState, ip: string)
    requires ip !in s.whitelist && ip !in s.active
    ensures Revoked(s, ip) == s
  {
    assert s.whitelist - {ip} == s.whitelist;
    assert s.active - {ip} == s.active;
    assert Elements([]) == {};
  }

  /** Once an IP is revoked, a check-and-register for it is refused and changes
      nothing: registration never straddles a revoke. */
  lemma RegisterAfterRevoke(s: RegistryState, ip: string, c: Conn)
    ensures CheckAndRegister(Revoked(s, ip), ip, c) == (false, Revoked(s, ip))
  {
  }

  /** A teardown that runs after a revoke does not bring the IP's list back. */
  lemma UnregisterAfterRevoke(s: RegistryState, ip: string, c: Conn)
    ensures Unregistered(Revoked(s, ip), ip, c) == Revoked(s, ip)
  {
    var r := Revoked(s, ip);
    assert ConnsOf(r.active, ip) == [];
    assert r.active - {ip} == r.active;
  }

  /** Removing a connection that was appended last, and nowhere before, gives
      the list as it was before the append. */
  lemma {:induction false} RemoveFirstAppended(xs: seq<Conn>, c: Conn)
    requires c !in xs
    ensures RemoveFirst(xs + [c], c) == xs
  {
    if xs != [] {
      assert (xs + [c])[1..] == xs[1..] + [c];
      RemoveFirstAppended(xs[1..], c);
    }
  }

  /** Unregistering a connection undoes its registration. */
  lemma UnregisterUndoesRegister(s: RegistryState, ip: string, c: Conn)
    requires NoEmptyLists(s)
    requires Whitelisted(s, ip) && c !in ConnsOf(s.active, ip)
    ensures Unregistered(CheckAndRegister(s, ip, c).1, ip, c) == s
  {
    var xs := ConnsOf(s.active, ip);
    RemoveFirstAppended(xs, c);
    var a := s.(active := s.active[ip := xs + [c]]);
    assert CheckAndRegister(s, ip, c).1 == a;
    if xs == [] {
      assert a.active - {ip} == s.active;
    } else {
      assert a.active[ip := xs] == s.active;
    }
  }

  /** The registrations of `cs` for `ip`, one after the other. */
  function Registrations(ip: string, cs: seq<Conn>): (ops: seq<Op>)
    ensures |ops| == |cs|
    ensures forall k :: 0 <= k < |cs| ==> ops[k] == RegisterOp(ip, cs[k])
  {
    seq(|cs|, k requires 0 <= k < |cs| => RegisterOp(ip, cs[k]))
  }

  /** While an IP is whitelisted, every connection a listener checks for it is
      admitted and appended to its list, in order. */
  lemma {:induction false} WhitelistedAdmitsAll(s: RegistryState, ip: string, cs: seq<Conn>)
    requires Whitelisted(s, ip)
    ensures Whitelisted(ApplyAll(s, Registrations(ip, cs)), ip)
    ensures ConnsOf(ApplyAll(s, Registrations(ip, cs)).active, ip) == ConnsOf(s.active, ip) + cs
    decreases |cs|
  {
    if cs != [] {
      var pre := cs[..|cs| - 1];
      assert Registrations(ip, cs)[..|cs| - 1] == Registrations(ip, pre);
      WhitelistedAdmitsAll(s, ip, pre);
      assert cs == pre + [cs[|cs| - 1]];
    }
  }

  /** Running a schedule in two parts is running it whole. */
  lemma {:induction false} ApplyAllAppend(s: RegistryState, a: seq<Op>, b: seq<Op>)
    ensures ApplyAll(s, a + b) == ApplyAll(ApplyAll(s, a), b)
    decreases |b|
  {
    if b == [] {
      assert a + b == a;
    } else {
      assert (a + b)[..|a + b| - 1] == a + b[..|b| - 1];
      ApplyAllAppend(s, a, b[..|b| - 1]);
    }
  }

  /** Only a revoke of the IP itself takes it off the whitelist. */
  lemma ApplyKeepsWhitelisted(s: RegistryState, ip: string, op: Op)
    requires Whitelisted(s, ip) && op != RevokeOp(ip)
    ensures Whitelisted(Apply(s, op), ip)
  {
  }

  /** A connection listed under an IP stays listed through any critical
      section other than a revoke of that IP or an unregister of that very
      connection from it. */
  lemma ApplyKeepsListed(s: RegistryState, ip: string, c: Conn, op: Op)
    requires c in ConnsOf(s.active, ip)
    requires op != RevokeOp(ip) && op != UnregisterOp(ip, c)
    ensures c in ConnsOf(Apply(s, op).active, ip)
  {
    if op.UnregisterOp? && op.ip == ip {
      RemoveFirstMultiset(ConnsOf(s.active, ip), op.conn);
      assert c in multiset(ConnsOf(s.active, ip)) - multiset{op.conn};
    }
  }

  /** A whitelisted IP stays whitelisted through any schedule that does not
      revoke it. */
  lemma {:induction false} StaysWhitelisted(s: RegistryState, ip: string, ops: seq<Op>)
    requires Whitelisted(s, ip)
    requires forall k :: 0 <= k < |ops| ==> ops[k] != RevokeOp(ip)
    ensures Whitelisted(ApplyAll(s, ops), ip)
    decreases |ops|
  {
    if ops != [] {
      StaysWhitelisted(s, ip, ops[..|ops| - 1]);
      ApplyKeepsWhitelisted(ApplyAll(s, ops[..|ops| - 1]), ip, ops[|ops| - 1]);
    }
  }

  /** A listed connection stays listed through any schedule that neither
      revokes its IP nor unregisters it. */
  lemma {:induction false} StaysListed(s: RegistryState, ip: string, c: Conn, ops: seq<Op>)
    requires c in ConnsOf(s.active, ip)
    requires forall k :: 0 <= k < |ops| ==> ops[k] != RevokeOp(ip) && ops[k] != UnregisterOp(ip, c)
    ensures c in ConnsOf(ApplyAll(s, ops).active, ip)
    decreases |ops|
  {
    if ops != [] {
      StaysListed(s, ip, c, ops[..|ops| - 1]);
      ApplyKeepsListed(ApplyAll(s, ops[..|ops| - 1]), ip, c, ops[|ops| - 1]);
    }
  }

  // ---------------------------------------------------------------------------
  // The shared object

  class AccessRegistry {
    var whitelistedIPs: map<string, bool>
    var activeConns: map<string, seq<Conn>>
    /** Connections closed so far, by any component. */
    ghost var closed: set<Conn>

    ghost function Snapshot(): RegistryState
      reads this
    {
      RegistryState(whitelistedIPs, activeConns, closed)
    }

    ghost predicate Valid()
      reads this
    {
      NoEmptyLists(Snapshot())
    }

    /** Both tables start empty. */
    constructor ()
      ensures Valid() && Snapshot() == Empty()
    {
      whitelistedIPs := map[];
      activeConns := map[];
      closed := {};
    }

    /** `WhitelistedIPs[ip] = true` under the write lock. */
    method Grant(ip: string)
      requires Valid()
      modifies this
      ensures Valid() && Snapshot() == Granted(old(Snapshot()), ip)
    {
      whitelistedIPs := whitelistedIPs[ip := true];
    }

    /** CheckWhitelistAddConn: the whitelist read and the registration happen
        in one critical section. */
    method CheckWhitelistAddConn(ip: string, conn: Conn) returns (allowed: bool)
      requires Valid()
      modifies this
      ensures Valid()
      ensures (allowed, Snapshot()) == CheckAndRegister(old(Snapshot()), ip, conn)
    {
      allowed := ip in whitelistedIPs && whitelistedIPs[ip];
      if allowed {
        var conns := if ip in activeConns then activeConns[ip] else [];
        activeConns := activeConns[ip := conns + [conn]];
      }
    }

    /** CheckWhitelist: read-only lookup under the read lock. */
    method CheckWhitelist(ip: string) returns (allowed: bool)
      ensures allowed == Whitelisted(Snapshot(), ip)
    {
      allowed := ip in whitelistedIPs && whitelistedIPs[ip];
    }

    /** cleanupConnection: delete the whitelist entry, close every connection
        registered for the IP, delete its list. */
    method CleanupConnection(ip: string)
      requires Valid()
      modifies this
      ensures Valid() && Snapshot() == Revoked(old(Snapshot()), ip)
    {
      whitelistedIPs := whitelistedIPs - {ip};
      var conns := if ip in activeConns then activeConns[ip] else [];
      var i := 0;
      while i < |conns|
        invariant 0 <= i <= |conns|
        invariant whitelistedIPs == old(whitelistedIPs) - {ip} && activeConns == old(activeConns)
        invariant closed == old(closed) + Elements(conns[..i])
      {
        assert conns[..i + 1] == conns[..i] + [conns[i]];
        closed := closed + {conns[i]};
        i := i + 1;
      }
      assert conns[..i] == conns;
      activeConns := activeConns - {ip};
    }

    /** The unregister step of a raw connection's teardown: find the first
        occurrence, splice it out, delete the key if the list is now empty. */
    method Unregister(ip: string, conn: Conn)
      requires Valid()
      modifies this
      ensures Valid() && Snapshot() == Unregistered(old(Snapshot()), ip, conn)
    {
      var conns := if ip in activeConns then activeConns[ip] else [];
      var i := 0;
      while i < |conns|
        invariant 0 <= i <= |conns|
        invariant conn !in conns[..i]
        invariant activeConns == old(activeConns)
      {
        if conns[i] == conn {
          RemoveFirstAt(conns, conn, i);
          activeConns := activeConns[ip := conns[..i] + conns[i + 1..]];
          break;
        }
        assert conns[..i + 1] == conns[..i] + [conns[i]];
        i := i + 1;
      }
      if i == |conns| {
        assert conns[..i] == conns;
      }
      if ip !in activeConns || |activeConns[ip]| == 0 {
        activeConns := activeConns - {ip};
      }
    }

    /** conn.Close(), outside any lock: recorded in the ghost set of closed connections. */
    ghost method MarkClosed(conn: Conn)
      modifies this
      ensures Snapshot() == old(Snapshot()).(closed := old(closed) + {conn})
    {
      closed := closed + {conn};
    }
  }

  /** Other goroutines' critical sections, run one after the other on the
      shared registry. */
  method Interleave(reg: AccessRegistry, ops: seq<Op>)
    requires reg.Valid()
    modifies reg
    ensures reg.Valid() && reg.Snapshot() == ApplyAll(old(reg.Snapshot()), ops)
  {
    for i := 0 to |ops|
      invariant reg.Valid() && reg.Snapshot() == ApplyAll(old(reg.Snapshot()), ops[..i])
    {
      assert ops[..i + 1][..i] == ops[..i];
      match ops[i]
      case GrantOp(ip) => reg.Grant(ip);
      case RegisterOp(ip, c) => var _ := reg.CheckWhitelistAddConn(ip, c);
      case RevokeOp(ip) => reg.CleanupConnection(ip);
      case UnregisterOp(ip, c) => reg.Unregister(ip, c);
      case CloseOp(c) => reg.MarkClosed(c);
    }
    assert ops[..|ops|] == ops;
  }
}
