/** The connection pool as an object whose commands and callbacks update its
    tables in place, proved against the state machine of module
    `ConnectionPool`. Sends on channels are appended to `answers`, `lifecycle`
    and `inboxes`; `closed` says which subscribers have gone away. */
module ConnectionPoolObject {
  import opened Base
  import opened ConnectionPool

  class ConnectionPoolBehaviour {
    var contacts: map<PeerId, Peer>
    var dialing: map<Addr, seq<Out>>
    var events: seq<SwarmEvent>
    var subscribers: seq<Subscriber>
    var closed: set<Subscriber>
    var answers: seq<Answer>
    var lifecycle: seq<LifecycleEvent>
    var inboxes: map<Subscriber, seq<LifecycleEvent>>
    ghost var issued: map<Out, Request>
    ghost var joined: map<Subscriber, nat>

    ghost function View(): State
      reads this
    {
      State(contacts, dialing, events, subscribers, closed, issued, answers, lifecycle, joined, inboxes)
    }

    constructor ()
      ensures View() == New()
    {
      contacts, dialing, events, subscribers, closed := map[], map[], [], [], {};
      answers, lifecycle, inboxes, issued, joined := [], [], map[], map[], map[];
    }

    // ------------------------------------------------------------ sending

    method SendAll(outs: seq<Out>, ok: bool)
      modifies this`answers
      ensures answers == old(answers) + Connections(outs, ok)
    {
      for i := 0 to |outs|
        invariant answers == old(answers) + Connections(outs[..i], ok)
      {
        assert outs[..i + 1][..i] == outs[..i];
        answers := answers + [Connection(outs[i], ok)];
      }
      assert outs[..|outs|] == outs;
    }

    method SendContact(outs: seq<Out>, contact: Option<Contact>)
      modifies this`answers
      ensures answers == old(answers) + Dials(outs, contact)
    {
      for i := 0 to |outs|
        invariant answers == old(answers) + Dials(outs[..i], contact)
      {
        assert outs[..i + 1][..i] == outs[..i];
        answers := answers + [Dialed(outs[i], contact)];
      }
      assert outs[..|outs|] == outs;
    }

    method SendLifecycle(e: LifecycleEvent)
      modifies this
      ensures View() == old(Emit(View(), e))
    {
      var kept := [];
      for i := 0 to |subscribers|
        invariant kept == Open(subscribers[..i], closed)
        invariant View() == old(View())
      {
        assert subscribers[..i + 1][..i] == subscribers[..i];
        if subscribers[i] !in closed {
          kept := kept + [subscribers[i]];
        }
      }
      assert subscribers[..|subscribers|] == subscribers;
      lifecycle := lifecycle + [e];
      inboxes := map x | x in inboxes :: if x in kept then inboxes[x] + [e] else inboxes[x];
      subscribers := kept;
    }

    // ------------------------------------------------------------ commands

    method Dial(out: Out, addr: Addr)
      modifies this
      ensures View() == old(ConnectionPool.Dial(View(), out, addr))
    {
      issued := issued[out := DialRequest(addr)];
      dialing := dialing[addr := (if addr in dialing then dialing[addr] else []) + [out]];
      events := events + [DialAddress(addr)];
    }

    /** Collects the addresses not being dialed, and whether some address of the
        contact is not connected. */
    method Compare(known: Peer, addresses: seq<Addr>) returns (missing: set<Addr>, unconnected: bool)
      ensures missing == NotDialed(known, addresses)
      ensures unconnected == SomeUnconnected(known, addresses)
    {
      missing, unconnected := {}, false;
      for i := 0 to |addresses|
        invariant missing == NotDialed(known, addresses[..i])
        invariant unconnected == SomeUnconnected(known, addresses[..i])
      {
        assert addresses[..i + 1] == addresses[..i] + [addresses[i]];
        if addresses[i] !in known.connected {
          assert addresses[i] in addresses[..i + 1];
          unconnected := true;
        }
        if addresses[i] !in known.dialing {
          missing := missing + {addresses[i]};
        }
      }
      assert addresses[..|addresses|] == addresses;
    }

    method Connect(out: Out, peer: PeerId, addresses: seq<Addr>)
      modifies this
      ensures View() == old(ConnectionPool.Connect(View(), out, peer, addresses))
    {
      issued := issued[out := ConnectRequest(peer, addresses)];
      var toDial: set<Addr>;
      if peer in contacts {
        var known := contacts[peer];
        var unconnected;
        toDial, unconnected := Compare(known, addresses);
        if unconnected {
          contacts := contacts[peer := known.(promises := known.promises + [out])];
        } else {
          answers := answers + [Connection(out, true)];
        }
      } else {
        contacts := contacts[peer := Peer({}, {}, ToSet(addresses), [out])];
        toDial := ToSet(addresses);
      }
      if toDial != {} {
        events := events + [DialPeer(peer, toDial)];
      }
    }

    method AddSubscriber(x: Subscriber)
      modifies this
      ensures View() == old(Subscribe(View(), x))
    {
      joined := joined[x := |lifecycle|];
      subscribers := subscribers + [x];
      inboxes := inboxes[x := []];
    }

    method AddDiscoveredAddresses(peer: PeerId, addresses: seq<Addr>)
      modifies this
      ensures View() == old(Discovered(View(), peer, addresses))
    {
      var known := if peer in contacts then contacts[peer] else Peer({}, {}, {}, []);
      contacts := contacts[peer := known.(discovered := known.discovered + ToSet(addresses))];
    }

    // ------------------------------------------------------------ addresses

    method AddConnectedAddress(peer: PeerId, addr: Addr)
      modifies this
      ensures View() == old(AddConnected(View(), peer, addr))
    {
      if peer in contacts {
        var known := contacts[peer];
        contacts := contacts[peer := Joined(known, addr).(promises := [])];
        SendAll(known.promises, true);
      } else {
        contacts := contacts[peer := Peer({addr}, {}, {}, [])];
      }
      if addr in dialing {
        var outs := dialing[addr];
        dialing := dialing - {addr};
        SendContact(outs, Some(Contact(peer, contacts[peer].Addresses())));
      }
    }

    method RemoveContact(peer: PeerId)
      modifies this
      ensures View() == old(ConnectionPool.RemoveContact(View(), peer))
    {
      if peer in contacts {
        var contact := contacts[peer];
        contacts := contacts - {peer};
        SendLifecycle(Disconnected(Contact(peer, contact.Addresses())));
        SendAll(contact.promises, false);
      }
    }

    method FailAddress(peer: Option<PeerId>, addr: Addr)
      modifies this
      ensures View() == old(ConnectionPool.FailAddress(View(), peer, addr))
    {
      if addr in dialing {
        var outs := dialing[addr];
        dialing := dialing - {addr};
        SendContact(outs, None);
      }
      if peer.Some? && peer.value in contacts {
        var p := peer.value;
        contacts := contacts[p := Without(contacts[p], addr)];
        if contacts[p].dialing == {} {
          var outs := contacts[p].promises;
          contacts := contacts[p := contacts[p].(promises := [])];
          SendAll(outs, false);
        }
        if contacts[p].connected == {} && contacts[p].dialing == {} {
          RemoveContact(p);
        }
      }
    }

    method FailAll(peer: Option<PeerId>, addrs: seq<Addr>)
      modifies this
      ensures View() == old(FailAddresses(View(), peer, addrs))
    {
      ghost var start := View();
      for i := 0 to |addrs|
        invariant View() == FailAddresses(start, peer, addrs[..i])
      {
        assert addrs[..i + 1][..i] == addrs[..i];
        FailAddress(peer, addrs[i]);
      }
      assert addrs[..|addrs|] == addrs;
    }

    // ------------------------------------------------------------ callbacks

    method InjectConnectionEstablished(peer: PeerId, addr: Addr, failed: seq<Addr>)
      modifies this
      ensures View() == old(Established(View(), peer, addr, failed))
    {
      FailAll(Some(peer), failed);
      AddConnectedAddress(peer, addr);
      SendLifecycle(Connected(Contact(peer, {addr})));
    }

    method InjectConnectionClosed(peer: PeerId, addr: Addr, remaining: nat)
      modifies this
      ensures View() == old(Closed(View(), peer, addr, remaining))
    {
      if remaining == 0 {
        RemoveContact(peer);
      }
      FailAddress(Some(peer), addr);
    }

    method InjectDialFailure(peer: Option<PeerId>, error: DialError)
      modifies this
      ensures View() == old(DialFailed(View(), peer, error))
    {
      match error {
        case AlreadyConnectedOrDialing => return;
        case WrongPeerId(addr) => FailAddress(peer, addr);
        case Transport(addrs) => FailAll(peer, addrs);
        case OtherError =>
      }
      if peer.Some? {
        RemoveContact(peer.value);
      }
    }
  }
}
