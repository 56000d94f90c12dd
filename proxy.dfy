/** The proxies (proxy/proxy.go): the registry side of a raw connection's
    life — the dial failure path and the teardown that unregisters the client
    connection — and the target normalisation of the HTTP reverse proxy. The
    byte splicing between the two connections is not modelled. */
module Proxy {
  import opened Common
  import opened Registry

  // ---------------------------------------------------------------------------
  // Raw connections

  /** HandleProxyConnection, as written: when the target cannot be dialled the
      client connection is closed and the registry is not touched; otherwise,
      once the splice ends, both connections are closed and the client
      connection is unregistered. */
  method HandleProxyConnection(reg: AccessRegistry, clientConn: Conn, clientIP: string, dialed: bool)
    requires reg.Valid()
    modifies reg
    ensures reg.Valid()
    ensures !dialed ==> reg.Snapshot() == old(reg.Snapshot()).(closed := old(reg.closed) + {clientConn})
    ensures dialed ==> reg.Snapshot() == Unregistered(old(reg.Snapshot()).(closed := old(reg.closed) + {clientConn}), clientIP, clientConn)
  {
    if !dialed {
      reg.MarkClosed(clientConn);
      return;
    }
    reg.MarkClosed(clientConn);
    reg.Unregister(clientIP, clientConn);
  }

  /** The registry after a connection is admitted by check-and-register and
      its target then cannot be dialled, as written. */
  function AdmittedThenDialFailed(s: RegistryState, ip: string, c: Conn): RegistryState {
    var admitted := CheckAndRegister(s, ip, c).1;
    admitted.(closed := admitted.closed + {c})
  }

  /** As written, a dial failure leaves the connection it closed in the IP's
      list of active connections. */
  lemma DialFailureLeavesClosedEntry(s: RegistryState, ip: string, c: Conn)
    requires Whitelisted(s, ip)
    ensures var t := AdmittedThenDialFailed(s, ip, c);
      c in t.closed && c in ConnsOf(t.active, ip) && ConnsOf(t.active, ip) == ConnsOf(s.active, ip) + [c]
  {
  }

  /** HandleProxyConnection with the dial failure path unregistering the
      client connection too, as the teardown does. */
  method HandleProxyConnectionUnregistering(reg: AccessRegistry, clientConn: Conn, clientIP: string, dialed: bool)
    requires reg.Valid()
    modifies reg
    ensures reg.Valid()
    ensures reg.Snapshot() == Unregistered(old(reg.Snapshot()).(closed := old(reg.closed) + {clientConn}), clientIP, clientConn)
  {
    reg.MarkClosed(clientConn);
    reg.Unregister(clientIP, clientConn);
  }

  /** The registry after admission and a dial failure, corrected. */
  function AdmittedThenDialFailedUnregistering(s: RegistryState, ip: string, c: Conn): RegistryState {
    var admitted := CheckAndRegister(s, ip, c).1;
    Unregistered(admitted.(closed := admitted.closed + {c}), ip, c)
  }

  /** Corrected, a connection whose target cannot be dialled leaves the tables
      exactly as they were before it was admitted. */
  lemma DialFailureRestoresTables(s: RegistryState, ip: string, c: Conn)
    requires NoEmptyLists(s)
    requires Whitelisted(s, ip) && c !in ConnsOf(s.active, ip)
    ensures var t := AdmittedThenDialFailedUnregistering(s, ip, c);
      t.whitelist == s.whitelist && t.active == s.active && t.closed == s.closed + {c}
  {
    UnregisterUndoesRegister(s, ip, c);
    var admitted := CheckAndRegister(s, ip, c).1;
    assert Unregistered(admitted.(closed := admitted.closed + {c}), ip, c)
      == Unregistered(admitted, ip, c).(closed := admitted.closed + {c});
  }

  // ---------------------------------------------------------------------------
  // The HTTP reverse proxy's target

  const HttpScheme: string := "http://"
  const HttpsScheme: string := "https://"

  lemma PrefixOfConcat(p: string, t: string)
    ensures HasPrefix(p + t, p)
  {
    assert (p + t)[..|p|] == p;
  }

  /** The normalised target always has a scheme; a target that had one is
      unchanged; any other target is prefixed with the scheme chosen by the
      route's flag: https:// when insecure targets are allowed and http://
      otherwise. */
  function NormaliseTarget(target: string, allowInsecure: bool): (r: string)
    ensures HasPrefix(r, HttpScheme) || HasPrefix(r, HttpsScheme)
    ensures HasPrefix(target, HttpScheme) || HasPrefix(target, HttpsScheme) ==> r == target
    ensures !HasPrefix(target, HttpScheme) && !HasPrefix(target, HttpsScheme) ==>
      var scheme := if allowInsecure then HttpsScheme else HttpScheme;
      HasPrefix(r, scheme) && r[|scheme|..] == target
  {
    PrefixOfConcat(HttpScheme, target);
    PrefixOfConcat(HttpsScheme, target);
    if !HasPrefix(target, HttpScheme) && !HasPrefix(target, HttpsScheme) then
      (if allowInsecure then HttpsScheme else HttpScheme) + target
    else target
  }

  /** No string starts with both schemes. */
  lemma SchemesExclusive(s: string)
    ensures HasPrefix(s, HttpScheme) ==> !HasPrefix(s, HttpsScheme)
  {
    if HasPrefix(s, HttpScheme) {
      assert s[4] == ':';
    }
  }

  /** Certificate checks are switched off only for an https target of a route
      that allows insecure targets: with insecure targets allowed, for every
      target except one that explicitly asks for plain http://. */
  predicate SkipVerify(target: string, allowInsecure: bool): (b: bool)
    ensures b <==> allowInsecure && !HasPrefix(target, HttpScheme)
  {
    SchemesExclusive(target);
    SchemesExclusive(NormaliseTarget(target, allowInsecure));
    allowInsecure && HasPrefix(NormaliseTarget(target, allowInsecure), HttpsScheme)
  }

  /** Normalising twice is normalising once. */
  lemma NormaliseIdempotent(target: string, allowInsecure: bool)
    ensures NormaliseTarget(NormaliseTarget(target, allowInsecure), allowInsecure) == NormaliseTarget(target, allowInsecure)
  {
  }
}
