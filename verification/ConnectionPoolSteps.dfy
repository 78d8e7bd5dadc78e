/** What each command and each callback of the connection pool does, stated on the
    state before it: who stays a contact and with which addresses, who is told
    what, and which dials the swarm is asked for. */
module ConnectionPoolSteps {
  import opened Base
  import opened ConnectionPool
  import opened ConnectionPoolRuns

  // ---------------------------------------------------------------- failed addresses

  /** A contact after some of its addresses failed: it is gone exactly when nothing
      connected and nothing dialed is left; otherwise it has lost those addresses,
      and, with its last dialed one, those who waited for it. */
  ghost predicate ContactAfter(s: State, n: State, p: PeerId, failed: seq<Addr>) {
    && n.contacts - {p} == s.contacts - {p}
    && (p !in s.contacts ==> p !in n.contacts)
    && (p in s.contacts ==>
          var c, f := s.contacts[p], ToSet(failed);
          && (p !in n.contacts <==> failed != [] && c.connected <= f && c.dialing <= f)
          && (p in n.contacts ==>
                n.contacts[p] == Peer(c.connected - f, c.discovered - f, c.dialing - f,
                                      if failed != [] && c.dialing <= f then [] else c.promises)))
  }

  lemma FailAddressContact(s: State, p: PeerId, addr: Addr)
    ensures ContactAfter(s, FailAddress(s, Some(p), addr), p, [addr])
  {
    assert ToSet([addr]) == {addr};
    if p in s.contacts {
      var c := s.contacts[p];
      assert c.dialing - {addr} == {} <==> c.dialing <= {addr};
      assert c.connected - {addr} == {} <==> c.connected <= {addr};
    }
  }

  lemma ContactAfterThen(s: State, m: State, n: State, p: PeerId, failed: seq<Addr>, addr: Addr)
    requires ContactAfter(s, m, p, failed) && ContactAfter(m, n, p, [addr])
    ensures ContactAfter(s, n, p, failed + [addr])
  {
    var f, g := ToSet(failed), ToSet(failed + [addr]);
    assert ToSet([addr]) == {addr} && g == f + {addr};
    if p in s.contacts && p in m.contacts {
      var c, d := s.contacts[p], m.contacts[p];
      assert (d.dialing <= {addr} <==> c.dialing <= g) && (d.connected <= {addr} <==> c.connected <= g);
      assert c.connected - f - {addr} == c.connected - g && c.discovered - f - {addr} == c.discovered - g;
      assert c.dialing - f - {addr} == c.dialing - g;
    }
  }

  lemma {:induction false} FailAddressesContact(s: State, p: PeerId, failed: seq<Addr>)
    ensures ContactAfter(s, FailAddresses(s, Some(p), failed), p, failed)
  {
    if failed == [] {
      assert ToSet(failed) == {};
    } else {
      var init, last := failed[..|failed| - 1], failed[|failed| - 1];
      var m := FailAddresses(s, Some(p), init);
      FailAddressesContact(s, p, init);
      FailAddressContact(m, p, last);
      ContactAfterThen(s, m, FailAddresses(s, Some(p), failed), p, init, last);
      assert failed == init + [last];
    }
  }

  lemma FailAddressElse(s: State, peer: Option<PeerId>, addr: Addr)
    ensures var n := FailAddress(s, peer, addr);
            && n.dialing == s.dialing - {addr} && n.events == s.events
            && (peer.None? ==> n.contacts == s.contacts && n.lifecycle == s.lifecycle)
  {
    if addr !in s.dialing { assert s.dialing - {addr} == s.dialing; }
  }

  /** Without a peer only the dials are concerned. */
  lemma {:induction false} FailAddressesElse(s: State, peer: Option<PeerId>, failed: seq<Addr>)
    ensures var n := FailAddresses(s, peer, failed);
            && n.dialing == s.dialing - ToSet(failed) && n.events == s.events
            && (peer.None? ==> n.contacts == s.contacts && n.lifecycle == s.lifecycle)
  {
    if failed == [] {
      assert s.dialing - ToSet(failed) == s.dialing;
    } else {
      var init, last := failed[..|failed| - 1], failed[|failed| - 1];
      FailAddressesElse(s, peer, init);
      FailAddressElse(FailAddresses(s, peer, init), peer, last);
      assert ToSet(failed) == ToSet(init) + {last} by { assert failed == init + [last]; }
      assert s.dialing - ToSet(init) - {last} == s.dialing - ToSet(failed);
    }
  }

  /** A dial for `addr` was told that it failed. */
  ghost predicate ToldNone(s: State, n: State, o: Out) {
    exists i :: |s.answers| <= i < |n.answers| && n.answers[i] == Dialed(o, None)
  }

  lemma FailAddressTells(s: State, peer: Option<PeerId>, addr: Addr, o: Out)
    requires addr in s.dialing && o in s.dialing[addr]
    ensures ToldNone(s, FailAddress(s, peer, addr), o)
  {
    var m, outs := AnswerAddr(s, addr, None), s.dialing[addr];
    DialsAre(outs, None);
    var k :| 0 <= k < |outs| && outs[k] == o;
    assert m.answers[|s.answers| + k] == Dialed(o, None);
    var n := FailAddress(s, peer, addr);
    FailContactExtends(m, peer, addr);
    assert n.answers[|s.answers| + k] == m.answers[|s.answers| + k];
  }

  lemma FailContactExtends(s: State, peer: Option<PeerId>, addr: Addr)
    ensures peer.Some? ==> s.answers <= FailContact(s, peer.value, addr).answers
  {
  }

  /** Everybody who waited for one of the addresses is told. */
  lemma {:induction false} FailAddressesTell(s: State, peer: Option<PeerId>, failed: seq<Addr>, addr: Addr, o: Out)
    requires addr in failed && addr in s.dialing && o in s.dialing[addr]
    ensures ToldNone(s, FailAddresses(s, peer, failed), o)
  {
    var init, last := failed[..|failed| - 1], failed[|failed| - 1];
    assert failed == init + [last];
    var m, n := FailAddresses(s, peer, init), FailAddresses(s, peer, failed);
    FailAddressesShed(s, peer, init);
    FailAddressSheds(m, peer, last);
    if addr in init {
      FailAddressesTell(s, peer, init, addr, o);
      var i :| |s.answers| <= i < |m.answers| && m.answers[i] == Dialed(o, None);
      assert n.answers[i] == m.answers[i];
    } else {
      FailAddressesElse(s, peer, init);
      FailAddressTells(m, peer, last, o);
    }
  }

  // ---------------------------------------------------------------- closing

  /** A closed connection. Its peer stops being a contact if and only if that was
      the last connection, or neither a connected nor a dialed address remains;
      otherwise it only loses the address. Dials for the address are told. */
  lemma ClosedExactly(s: State, p: PeerId, addr: Addr, remaining: nat)
    ensures var n := Apply(s, OnClosed(p, addr, remaining));
            && n.contacts - {p} == s.contacts - {p} && (p !in s.contacts ==> p !in n.contacts)
            && (p in s.contacts ==>
                  var c := s.contacts[p];
                  && (p !in n.contacts <==>
                        remaining == 0 || (c.connected - {addr} == {} && c.dialing - {addr} == {}))
                  && (p in n.contacts ==>
                        n.contacts[p] == Peer(c.connected - {addr}, c.discovered - {addr}, c.dialing - {addr},
                                              if c.dialing - {addr} == {} then [] else c.promises)))
            && n.dialing == s.dialing - {addr} && n.events == s.events
            && (addr in s.dialing ==> forall o :: o in s.dialing[addr] ==> ToldNone(s, n, o))
  {
    var m := if remaining == 0 then RemoveContact(s, p) else s;
    var n := FailAddress(m, Some(p), addr);
    assert Apply(s, OnClosed(p, addr, remaining)) == n;
    FailAddressContact(m, p, addr);
    FailAddressElse(m, Some(p), addr);
    ClosedSets(s, n, p, addr, remaining);
    ClosedTells(s, p, addr, remaining);
  }

  lemma ClosedTells(s: State, p: PeerId, addr: Addr, remaining: nat)
    ensures addr in s.dialing ==> forall o :: o in s.dialing[addr] ==> ToldNone(s, Closed(s, p, addr, remaining), o)
  {
    var m := if remaining == 0 then RemoveContact(s, p) else s;
    RemoveContactSheds(s, p);
    if addr in s.dialing {
      forall o | o in s.dialing[addr] ensures ToldNone(s, Closed(s, p, addr, remaining), o) {
        FailAddressTells(m, Some(p), addr, o);
      }
    }
  }

  /** A contact that leaves by a close is announced with the addresses it had left. */
  lemma ClosedAnnounces(s: State, p: PeerId, addr: Addr, remaining: nat)
    ensures var n := Apply(s, OnClosed(p, addr, remaining));
            n.lifecycle == s.lifecycle +
              if p !in s.contacts then []
              else
                var c := s.contacts[p];
                if remaining == 0 then [Disconnected(Contact(p, c.connected + c.discovered + c.dialing))]
                else if c.connected - {addr} == {} && c.dialing - {addr} == {}
                then [Disconnected(Contact(p, c.discovered - {addr}))]
                else []
  {
    var m := if remaining == 0 then RemoveContact(s, p) else s;
    FailAddressAnnounces(m, p, addr);
    assert Apply(s, OnClosed(p, addr, remaining)) == FailAddress(m, Some(p), addr);
  }

  lemma FailAddressAnnounces(s: State, p: PeerId, addr: Addr)
    ensures FailAddress(s, Some(p), addr).lifecycle == s.lifecycle +
              if p in s.contacts && s.contacts[p].connected - {addr} == {} && s.contacts[p].dialing - {addr} == {}
              then [Disconnected(Contact(p, s.contacts[p].discovered - {addr}))] else []
  {
    if p in s.contacts && s.contacts[p].connected - {addr} == {} && s.contacts[p].dialing - {addr} == {} {
      var d := s.contacts[p].discovered - {addr};
      assert {} + d + {} == d;
    } else {
      assert s.lifecycle + [] == s.lifecycle;
    }
  }

  lemma ClosedSets(s: State, n: State, p: PeerId, addr: Addr, remaining: nat)
    requires ContactAfter(if remaining == 0 then RemoveContact(s, p) else s, n, p, [addr])
    ensures n.contacts - {p} == s.contacts - {p} && (p !in s.contacts ==> p !in n.contacts)
    ensures p in s.contacts ==>
              var c := s.contacts[p];
              && (p !in n.contacts <==> remaining == 0 || (c.connected - {addr} == {} && c.dialing - {addr} == {}))
              && (p in n.contacts ==>
                    n.contacts[p] == Peer(c.connected - {addr}, c.discovered - {addr}, c.dialing - {addr},
                                          if c.dialing - {addr} == {} then [] else c.promises))
  {
    assert ToSet([addr]) == {addr};
    if p in s.contacts {
      var c := s.contacts[p];
      assert c.dialing - {addr} == {} <==> c.dialing <= {addr};
      assert c.connected - {addr} == {} <==> c.connected <= {addr};
    }
  }

  /** The addresses an error names. */
  function Named(error: DialError): seq<Addr> {
    match error
    case WrongPeerId(addr) => [addr]
    case Transport(addrs) => addrs
    case _ => []
  }

  /** A failed dial. It changes nothing while the peer is already connected or
      dialing; otherwise the peer, if known, stops being a contact, nobody else
      does, and the dials for the addresses the error names are told. */
  lemma DialFailedExactly(s: State, peer: Option<PeerId>, error: DialError)
    ensures var n := Apply(s, OnDialFailed(peer, error));
            if error == AlreadyConnectedOrDialing then n == s
            else
              && (peer.None? ==> n.contacts == s.contacts && n.lifecycle == s.lifecycle)
              && (peer.Some? ==> n.contacts == s.contacts - {peer.value})
              && n.dialing == s.dialing - ToSet(Named(error)) && n.events == s.events
              && (forall a, o :: a in Named(error) && a in s.dialing && o in s.dialing[a] ==> ToldNone(s, n, o))
  {
    if error != AlreadyConnectedOrDialing {
      var named := Named(error);
      var m, n := FailAddresses(s, peer, named), Apply(s, OnDialFailed(peer, error));
      NamedFails(s, peer, error);
      FailAddressesElse(s, peer, named);
      if peer.Some? {
        FailAddressesContact(s, peer.value, named);
        RemoveContactSheds(m, peer.value);
        OnlyWithout(s, m, peer.value);
      }
      forall a, o | a in named && a in s.dialing && o in s.dialing[a] ensures ToldNone(s, n, o) {
        FailAddressesTell(s, peer, named, a, o);
        var i :| |s.answers| <= i < |m.answers| && m.answers[i] == Dialed(o, None);
        assert n.answers[i] == m.answers[i];
      }
    }
  }

  lemma OnlyWithout(s: State, m: State, p: PeerId)
    requires m.contacts - {p} == s.contacts - {p}
    ensures RemoveContact(m, p).contacts == s.contacts - {p}
    ensures RemoveContact(m, p).dialing == m.dialing && RemoveContact(m, p).events == m.events
  {
    if p !in m.contacts { assert m.contacts == m.contacts - {p}; }
  }

  /** One address fails as a list of one does. */
  lemma NamedFails(s: State, peer: Option<PeerId>, error: DialError)
    requires error != AlreadyConnectedOrDialing
    ensures var m := FailAddresses(s, peer, Named(error));
            DialFailed(s, peer, error) == if peer.Some? then RemoveContact(m, peer.value) else m
  {
    if error.WrongPeerId? {
      assert [error.endpoint][..0] == [];
      assert FailAddresses(s, peer, []) == s;
    }
  }

  // ---------------------------------------------------------------- connecting

  /** An established connection. The peer, rid of the addresses that failed, has the
      new address connected and nowhere else; whoever waited for it is told, `true`
      unless its last dialed address was among the failed ones; dials for the new
      address are told the contact; and the peer is announced last. */
  lemma EstablishedExactly(s: State, p: PeerId, addr: Addr, failed: seq<Addr>)
    ensures var n, f := Apply(s, OnEstablished(p, addr, failed)), ToSet(failed);
            var kept := p in s.contacts &&
                          !(failed != [] && s.contacts[p].connected <= f && s.contacts[p].dialing <= f);
            var c := if kept then s.contacts[p] else Peer({}, {}, {}, []);
            && n.contacts - {p} == s.contacts - {p} && p in n.contacts
            && n.contacts[p] == Peer(c.connected - f + {addr}, c.discovered - f - {addr}, c.dialing - f - {addr}, [])
            && n.dialing == s.dialing - f - {addr} && n.events == s.events
            && n.lifecycle != [] && n.lifecycle[|n.lifecycle| - 1] == Connected(Contact(p, {addr}))
  {
    var m := FailAddresses(s, Some(p), failed);
    FailAddressesContact(s, p, failed);
    FailAddressesElse(s, Some(p), failed);
    JoinedSets(m, p, addr);
    var n := Apply(s, OnEstablished(p, addr, failed));
    assert n == Emit(AddConnected(m, p, addr), Connected(Contact(p, {addr})));
  }

  lemma JoinedSets(s: State, p: PeerId, addr: Addr)
    ensures var n, c := AddConnected(s, p, addr), if p in s.contacts then s.contacts[p] else Peer({}, {}, {}, []);
            && n.contacts - {p} == s.contacts - {p} && p in n.contacts
            && n.contacts[p] == Peer(c.connected + {addr}, c.discovered - {addr}, c.dialing - {addr}, [])
            && n.dialing == s.dialing - {addr} && n.events == s.events
  {
    if addr !in s.dialing { assert s.dialing - {addr} == s.dialing; }
    if p !in s.contacts { assert Peer({addr}, {}, {}, []) == Peer({} + {addr}, {} - {addr}, {} - {addr}, []); }
  }

  /** Whoever waits for a peer when it connects is told so, and whoever waits for
      the address is told the contact. */
  lemma AddConnectedTells(s: State, p: PeerId, addr: Addr)
    ensures var n := AddConnected(s, p, addr);
            && s.answers <= n.answers
            && (p in s.contacts ==>
                  forall o :: o in s.contacts[p].promises ==> Connection(o, true) in n.answers[|s.answers|..])
            && (addr in s.dialing ==>
                  forall o :: o in s.dialing[addr] ==>
                    Dialed(o, Some(Contact(p, n.contacts[p].Addresses()))) in n.answers[|s.answers|..])
  {
    var n := AddConnected(s, p, addr);
    var k := if p in s.contacts
             then AnswerPeer(s.(contacts := s.contacts[p := Joined(s.contacts[p], addr)]), p, true)
             else s.(contacts := s.contacts[p := Peer({addr}, {}, {}, [])]);
    assert n == AnswerAddr(k, addr, ContactOf(k, p));
    if p in s.contacts {
      var outs := s.contacts[p].promises;
      ConnectionsAre(outs, true);
      forall o | o in outs ensures Connection(o, true) in n.answers[|s.answers|..] {
        var i :| 0 <= i < |outs| && outs[i] == o;
        assert n.answers[|s.answers|..][i] == Connection(o, true);
      }
    }
    if addr in s.dialing {
      var outs, contact := s.dialing[addr], ContactOf(k, p);
      DialsAre(outs, contact);
      forall o | o in outs ensures Dialed(o, contact) in n.answers[|s.answers|..] {
        var i :| 0 <= i < |outs| && outs[i] == o;
        assert n.answers[|k.answers| + i] == Dialed(o, contact);
        assert n.answers[|s.answers|..][|k.answers| - |s.answers| + i] == Dialed(o, contact);
      }
    }
  }

  /** Who is told what by an established connection. */
  lemma EstablishedTells(s: State, p: PeerId, addr: Addr, failed: seq<Addr>)
    ensures var n, f := Apply(s, OnEstablished(p, addr, failed)), ToSet(failed);
            && s.answers <= n.answers
            && (p in s.contacts ==>
                  var ok := !(failed != [] && s.contacts[p].dialing <= f);
                  forall o :: o in s.contacts[p].promises ==> Connection(o, ok) in n.answers[|s.answers|..])
            && (addr in s.dialing && addr !in f ==>
                  forall o :: o in s.dialing[addr] ==>
                    Dialed(o, Some(Contact(p, n.contacts[p].Addresses()))) in n.answers[|s.answers|..])
            && (forall a, o :: a in failed && a in s.dialing && o in s.dialing[a] ==> ToldNone(s, n, o))
  {
    var m, n := FailAddresses(s, Some(p), failed), Apply(s, OnEstablished(p, addr, failed));
    FailAddressesContact(s, p, failed);
    FailAddressesElse(s, Some(p), failed);
    FailAddressesShed(s, Some(p), failed);
    AddConnectedTells(m, p, addr);
    TellsThen(s, m, n);
    if p in s.contacts {
      var refused := failed != [] && s.contacts[p].dialing <= ToSet(failed);
      forall o | o in s.contacts[p].promises ensures Connection(o, !refused) in n.answers[|s.answers|..] {
        if refused {
          RefusedIn(s, m, p, o);
        } else {
          assert p in m.contacts && m.contacts[p].promises == s.contacts[p].promises;
        }
      }
    }
    forall a, o | a in failed && a in s.dialing && o in s.dialing[a] ensures ToldNone(s, n, o) {
      FailAddressesTell(s, Some(p), failed, a, o);
      var i :| |s.answers| <= i < |m.answers| && m.answers[i] == Dialed(o, None);
      assert n.answers[i] == m.answers[i];
    }
  }

  /** Replies sent in either half of a step were sent in the step. */
  lemma TellsThen(s: State, m: State, n: State)
    requires s.answers <= m.answers <= n.answers
    ensures forall a :: a in m.answers[|s.answers|..] ==> a in n.answers[|s.answers|..]
    ensures forall a :: a in n.answers[|m.answers|..] ==> a in n.answers[|s.answers|..]
  {
    forall a | a in m.answers[|s.answers|..] ensures a in n.answers[|s.answers|..] {
      var i :| 0 <= i < |m.answers[|s.answers|..]| && m.answers[|s.answers|..][i] == a;
      assert n.answers[|s.answers|..][i] == a;
    }
    forall a | a in n.answers[|m.answers|..] ensures a in n.answers[|s.answers|..] {
      var i :| 0 <= i < |n.answers[|m.answers|..]| && n.answers[|m.answers|..][i] == a;
      assert n.answers[|s.answers|..][|m.answers| - |s.answers| + i] == a;
    }
  }

  lemma RefusedIn(s: State, m: State, p: PeerId, o: Out)
    requires Shed(s, m) && p in s.contacts && o in s.contacts[p].promises
    requires p !in m.contacts || m.contacts[p].promises == []
    ensures Connection(o, false) in m.answers[|s.answers|..]
  {
    if p in m.contacts { assert KeptOrRefused(s, m, p); }
  }

  /** The given addresses that the peer is not dialing yet. */
  ghost function ToDial(s: State, p: PeerId, addresses: seq<Addr>): set<Addr> {
    set a | a in addresses && !(p in s.contacts && a in s.contacts[p].dialing)
  }

  /** A connect command. An unknown peer becomes a contact that is dialing the given
      addresses; a known one keeps its addresses. The command waits unless all its
      addresses are connected already. The swarm is asked, at most once, for exactly
      the addresses that are not being dialed. */
  lemma ConnectExactly(s: State, out: Out, p: PeerId, addresses: seq<Addr>)
    ensures var n := Apply(s, DoConnect(out, p, addresses));
            var toDial := ToDial(s, p, addresses);
            var ready := p in s.contacts && forall a :: a in addresses ==> a in s.contacts[p].connected;
            && n.contacts - {p} == s.contacts - {p} && p in n.contacts
            && n.contacts[p] == (if p !in s.contacts then Peer({}, {}, ToSet(addresses), [out])
                                 else if ready then s.contacts[p]
                                 else s.contacts[p].(promises := s.contacts[p].promises + [out]))
            && n.answers == s.answers + (if ready then [Connection(out, true)] else [])
            && n.events == s.events + (if toDial == {} then [] else [DialPeer(p, toDial)])
            && n.dialing == s.dialing && n.lifecycle == s.lifecycle
  {
    var n := Apply(s, DoConnect(out, p, addresses));
    if p in s.contacts {
      assert NotDialed(s.contacts[p], addresses) == ToDial(s, p, addresses);
      if forall a :: a in addresses ==> a in s.contacts[p].connected {
        assert n.contacts == s.contacts;
      } else {
        assert SomeUnconnected(s.contacts[p], addresses);
        assert n.answers == s.answers + [];
      }
    } else {
      assert ToSet(addresses) == ToDial(s, p, addresses);
      assert n.answers == s.answers + [];
    }
  }

  /** A dial command waits for its address, behind earlier ones, and asks for one dial. */
  lemma DialExactly(s: State, out: Out, addr: Addr)
    ensures var n := Apply(s, DoDial(out, addr));
            && n.dialing - {addr} == s.dialing - {addr}
            && addr in n.dialing && n.dialing[addr] == (if addr in s.dialing then s.dialing[addr] else []) + [out]
            && n.events == s.events + [DialAddress(addr)]
            && n.contacts == s.contacts && n.answers == s.answers && n.lifecycle == s.lifecycle
  {
  }

  /** Discovered addresses are added to those of the peer and change nothing else. */
  lemma DiscoveredExactly(s: State, p: PeerId, addresses: seq<Addr>)
    ensures var n := Apply(s, OnDiscovered(p, addresses));
            var c := if p in s.contacts then s.contacts[p] else Peer({}, {}, {}, []);
            && n.contacts == s.contacts[p := Peer(c.connected, c.discovered + ToSet(addresses), c.dialing, c.promises)]
            && n == s.(contacts := n.contacts)
  {
  }

  /** A new subscriber is behind the others and has received nothing yet. */
  lemma SubscribeExactly(s: State, x: Subscriber)
    ensures var n := Apply(s, DoSubscribe(x));
            && n.subscribers == s.subscribers + [x] && x in n.inboxes && n.inboxes[x] == []
            && (forall y :: y in s.inboxes && y != x ==> y in n.inboxes && n.inboxes[y] == s.inboxes[y])
            && n.contacts == s.contacts && n.dialing == s.dialing && n.lifecycle == s.lifecycle
  {
  }

  /** A lifecycle event reaches every open subscriber and drops the closed ones. */
  lemma EmitReaches(s: State, e: LifecycleEvent)
    ensures var n := Emit(s, e);
            && (forall x :: x in n.subscribers <==> x in s.subscribers && x !in s.closed)
            && (forall x :: x in n.subscribers && x in s.inboxes ==>
                  x in n.inboxes && n.inboxes[x] == s.inboxes[x] + [e])
            && (forall x :: x in s.inboxes && x !in n.subscribers ==> x in n.inboxes && n.inboxes[x] == s.inboxes[x])
  {
    OpenIs(s.subscribers, s.closed);
  }

  // ---------------------------------------------------------------- the dials the swarm is asked for

  /** The dials one step asks for. */
  ghost function AskedBy(s: State, step: Step): seq<SwarmEvent> {
    match step
    case DoDial(_, addr) => [DialAddress(addr)]
    case DoConnect(_, p, addresses) =>
      if ToDial(s, p, addresses) == {} then [] else [DialPeer(p, ToDial(s, p, addresses))]
    case _ => []
  }

  ghost function TakenBy(s: State, step: Step): seq<SwarmEvent> {
    if step.TakeEvent? && s.events != [] then [s.events[0]] else []
  }

  ghost function Asked(steps: seq<Step>): seq<SwarmEvent> {
    if steps == [] then []
    else Asked(steps[..|steps| - 1]) + AskedBy(Run(steps[..|steps| - 1]), steps[|steps| - 1])
  }

  ghost function Taken(steps: seq<Step>): seq<SwarmEvent> {
    if steps == [] then []
    else Taken(steps[..|steps| - 1]) + TakenBy(Run(steps[..|steps| - 1]), steps[|steps| - 1])
  }

  lemma StepAsks(s: State, step: Step)
    ensures TakenBy(s, step) + Apply(s, step).events == s.events + AskedBy(s, step)
  {
    match step
    case DoConnect(out, p, addresses) => ConnectExactly(s, out, p, addresses);
    case OnEstablished(p, addr, failed) => EstablishedExactly(s, p, addr, failed);
    case OnClosed(p, addr, remaining) => ClosedExactly(s, p, addr, remaining);
    case OnDialFailed(peer, error) => DialFailedExactly(s, peer, error);
    case _ =>
  }

  /** Dials reach the swarm first in, first out: in every run those taken followed
      by those queued are the ones the dial and connect commands asked for. */
  lemma {:induction false} DialsLeaveInOrder(steps: seq<Step>)
    ensures Taken(steps) + Run(steps).events == Asked(steps)
  {
    if steps != [] {
      var init, last := steps[..|steps| - 1], steps[|steps| - 1];
      DialsLeaveInOrder(init);
      var s := Run(init);
      StepAsks(s, last);
      QueueShift(Taken(init), s.events, TakenBy(s, last), Apply(s, last).events, AskedBy(s, last));
    }
  }
}
