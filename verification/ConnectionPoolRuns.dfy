/** What every run of the connection pool keeps: the ledger of promises, the
    meaning of the replies, and the soundness of the lifecycle stream. */
module ConnectionPoolRuns {
  import opened Base
  import opened ConnectionPool

  // ---------------------------------------------------------------- the promise ledger

  datatype Wait = OnPeer(peer: PeerId) | OnAddr(addr: Addr)

  function Outs(s: State, w: Wait): seq<Out> {
    match w
    case OnPeer(p) => if p in s.contacts then s.contacts[p].promises else []
    case OnAddr(a) => if a in s.dialing then s.dialing[a] else []
  }

  /** Where a promise can be: answered, or waiting in one of the lists. */
  datatype Place = Answered(i: nat) | Waiting(w: Wait, i: nat)

  function At(s: State, x: Place): Option<Out> {
    match x
    case Answered(i) => if i < |s.answers| then Some(s.answers[i].out) else None
    case Waiting(w, i) => if i < |Outs(s, w)| then Some(Outs(s, w)[i]) else None
  }

  ghost predicate Somewhere(s: State, o: Out) {
    exists x :: At(s, x) == Some(o)
  }

  /** Every issued promise is in exactly one place, and only issued ones are. */
  ghost predicate Balanced(s: State) {
    && (forall x, y :: At(s, x).Some? && At(s, x) == At(s, y) ==> x == y)
    && (forall x :: At(s, x).Some? ==> At(s, x).value in s.issued)
    && (forall o :: o in s.issued ==> Somewhere(s, o))
  }

  ghost predicate SameElsewhere(s: State, n: State, w: Wait) {
    forall v :: v != w ==> Outs(n, v) == Outs(s, v)
  }

  ghost predicate Enqueued(s: State, n: State, w: Wait, o: Out) {
    && o !in s.issued && n.issued.Keys == s.issued.Keys + {o}
    && n.answers == s.answers
    && Outs(n, w) == Outs(s, w) + [o] && SameElsewhere(s, n, w)
  }

  ghost predicate Replied(s: State, n: State, o: Out) {
    && o !in s.issued && n.issued.Keys == s.issued.Keys + {o}
    && s.answers <= n.answers && |n.answers| == |s.answers| + 1 && n.answers[|s.answers|].out == o
    && forall w :: Outs(n, w) == Outs(s, w)
  }

  /** The promises of one list are answered, in order. */
  ghost predicate Flushed(s: State, n: State, w: Wait) {
    && n.issued == s.issued
    && s.answers <= n.answers && |n.answers| == |s.answers| + |Outs(s, w)|
    && (forall i :: 0 <= i < |Outs(s, w)| ==> n.answers[|s.answers| + i].out == Outs(s, w)[i])
    && Outs(n, w) == [] && SameElsewhere(s, n, w)
  }

  ghost predicate SamePromises(s: State, n: State) {
    n.issued == s.issued && n.answers == s.answers && forall w :: Outs(n, w) == Outs(s, w)
  }

  lemma EnqueuedKeeps(s: State, n: State, w: Wait, o: Out)
    requires Balanced(s) && Enqueued(s, n, w, o)
    ensures Balanced(n)
  {
    var here := Waiting(w, |Outs(s, w)|);
    assert forall x :: x != here ==> At(n, x) == At(s, x);
    assert At(n, here) == Some(o);
    forall p | p in n.issued ensures Somewhere(n, p) {
      if p != o {
        assert Somewhere(s, p);
        var x :| At(s, x) == Some(p);
        assert At(n, x) == Some(p);
      }
    }
  }

  lemma RepliedKeeps(s: State, n: State, o: Out)
    requires Balanced(s) && Replied(s, n, o)
    ensures Balanced(n)
  {
    var here := Answered(|s.answers|);
    assert forall x :: x != here ==> At(n, x) == At(s, x);
    assert At(n, here) == Some(o);
    forall p | p in n.issued ensures Somewhere(n, p) {
      if p != o {
        assert Somewhere(s, p);
        var x :| At(s, x) == Some(p);
        assert At(n, x) == Some(p);
      }
    }
  }

  /** Where a place of the new state was before its list was flushed. */
  function Origin(s: State, w: Wait, x: Place): Place {
    if x.Answered? && x.i >= |s.answers| then Waiting(w, x.i - |s.answers|) else x
  }

  lemma FlushedOrigin(s: State, n: State, w: Wait, x: Place)
    requires Flushed(s, n, w) && At(n, x).Some?
    ensures At(s, Origin(s, w, x)) == At(n, x)
    ensures x.Waiting? ==> x.w != w
  {
    if x.Answered? && x.i < |s.answers| { assert n.answers[x.i] == s.answers[x.i]; }
  }

  lemma FlushedStays(s: State, n: State, w: Wait, o: Out)
    requires Flushed(s, n, w) && Somewhere(s, o)
    ensures Somewhere(n, o)
  {
    var x :| At(s, x) == Some(o);
    if x.Answered? {
      assert n.answers[x.i] == s.answers[x.i];
      assert At(n, x) == Some(o);
    } else if x.w == w {
      assert n.answers[|s.answers| + x.i].out == Outs(s, w)[x.i];
      assert At(n, Answered(|s.answers| + x.i)) == Some(o);
    } else {
      assert Outs(n, x.w) == Outs(s, x.w);
      assert At(n, x) == Some(o);
    }
  }

  lemma FlushedKeeps(s: State, n: State, w: Wait)
    requires Balanced(s) && Flushed(s, n, w)
    ensures Balanced(n)
  {
    forall p | p in n.issued ensures Somewhere(n, p) { FlushedStays(s, n, w, p); }
    forall x | At(n, x).Some? ensures At(n, x).value in n.issued { FlushedOrigin(s, n, w, x); }
    forall x, y | At(n, x).Some? && At(n, x) == At(n, y) ensures x == y {
      FlushedOrigin(s, n, w, x);
      FlushedOrigin(s, n, w, y);
      assert Origin(s, w, x) == Origin(s, w, y);
    }
  }

  lemma SamePromisesKeep(s: State, n: State)
    requires Balanced(s) && SamePromises(s, n)
    ensures Balanced(n)
  {
    assert forall x :: At(n, x) == At(s, x);
    forall p | p in n.issued ensures Somewhere(n, p) {
      assert Somewhere(s, p);
      var x :| At(s, x) == Some(p);
      assert At(n, x) == Some(p);
    }
  }

  // ---------------------------------------------------------------- what replies mean

  ghost predicate AnswerOk(issued: map<Out, Request>, a: Answer) {
    && a.out in issued
    && match a
       case Dialed(o, c) =>
         issued[o].DialRequest? && (c.Some? ==> issued[o].addr in c.value.addresses)
       case Connection(o, _) => issued[o].ConnectRequest?
  }

  /** Each promise waits where its request says, a successful dial answers with
      a contact that has the dialed address, and the connected and dialing
      addresses of a peer are different. */
  ghost predicate Meaningful(s: State) {
    && (forall a :: a in s.answers ==> AnswerOk(s.issued, a))
    && (forall p, o :: p in s.contacts && o in s.contacts[p].promises ==>
          o in s.issued && s.issued[o].ConnectRequest? && s.issued[o].peer == p)
    && (forall a, o :: a in s.dialing && o in s.dialing[a] ==> o in s.issued && s.issued[o] == DialRequest(a))
    && (forall p :: p in s.contacts ==> s.contacts[p].connected !! s.contacts[p].dialing)
  }

  // ---------------------------------------------------------------- lifecycle

  /** Whether the last event for the peer says it is connected. */
  predicate SeemsConnected(events: seq<LifecycleEvent>, p: PeerId) {
    if events == [] then false
    else
      var last := events[|events| - 1];
      if last.contact.peer == p then last.Connected? else SeemsConnected(events[..|events| - 1], p)
  }

  ghost predicate LifecycleOk(s: State) {
    forall p :: SeemsConnected(s.lifecycle, p) ==> p in s.contacts
  }

  /** Each current subscriber has received exactly the events since it joined. */
  ghost predicate SubscribersOk(s: State) {
    && s.joined.Keys == s.inboxes.Keys
    && forall x :: x in s.subscribers ==>
         x in s.joined && s.joined[x] <= |s.lifecycle| && s.inboxes[x] == s.lifecycle[s.joined[x]..]
  }

  ghost predicate Inv(s: State) {
    Balanced(s) && Meaningful(s) && LifecycleOk(s) && SubscribersOk(s)
  }

  lemma {:induction false} ConnectionsAre(outs: seq<Out>, ok: bool)
    ensures |Connections(outs, ok)| == |outs|
    ensures forall i :: 0 <= i < |outs| ==> Connections(outs, ok)[i] == Connection(outs[i], ok)
  {
    if outs != [] { ConnectionsAre(outs[..|outs| - 1], ok); }
  }

  lemma {:induction false} DialsAre(outs: seq<Out>, contact: Option<Contact>)
    ensures |Dials(outs, contact)| == |outs|
    ensures forall i :: 0 <= i < |outs| ==> Dials(outs, contact)[i] == Dialed(outs[i], contact)
  {
    if outs != [] { DialsAre(outs[..|outs| - 1], contact); }
  }

  // ---------------------------------------------------------------- small steps

  lemma AnswerPeerMeaningful(s: State, peer: PeerId, ok: bool)
    requires Meaningful(s) && peer in s.contacts
    ensures Meaningful(AnswerPeer(s, peer, ok))
  {
    var n, outs := AnswerPeer(s, peer, ok), s.contacts[peer].promises;
    ConnectionsAre(outs, ok);
    forall a | a in n.answers ensures AnswerOk(n.issued, a) {
      var i :| 0 <= i < |n.answers| && n.answers[i] == a;
      if i < |s.answers| {
        assert a == s.answers[i];
      } else {
        assert a == Connection(outs[i - |s.answers|], ok);
      }
    }
  }

  lemma AnswerPeerBalanced(s: State, peer: PeerId, ok: bool)
    requires Balanced(s) && peer in s.contacts
    ensures Balanced(AnswerPeer(s, peer, ok))
  {
    AnswerPeerFlushes(s, peer, ok);
    FlushedKeeps(s, AnswerPeer(s, peer, ok), OnPeer(peer));
  }

  lemma AnswerPeerFlushes(s: State, peer: PeerId, ok: bool)
    requires peer in s.contacts
    ensures Flushed(s, AnswerPeer(s, peer, ok), OnPeer(peer))
  {
    var n, outs := AnswerPeer(s, peer, ok), s.contacts[peer].promises;
    ConnectionsAre(outs, ok);
    RepliesFollow(s.answers, Connections(outs, ok), outs);
    assert n.answers == s.answers + Connections(outs, ok);
    forall v | v != OnPeer(peer) ensures Outs(n, v) == Outs(s, v) {}
  }

  lemma RepliesFollow(before: seq<Answer>, more: seq<Answer>, outs: seq<Out>)
    requires |more| == |outs| && forall i :: 0 <= i < |outs| ==> more[i].out == outs[i]
    ensures before <= before + more && |before + more| == |before| + |outs|
    ensures forall i :: 0 <= i < |outs| ==> (before + more)[|before| + i].out == outs[i]
  {
  }

  lemma AnswerPeerKeeps(s: State, peer: PeerId, ok: bool)
    requires Inv(s) && peer in s.contacts
    ensures Inv(AnswerPeer(s, peer, ok))
  {
    AnswerPeerBalanced(s, peer, ok);
    AnswerPeerMeaningful(s, peer, ok);
  }

  lemma AnswerAddrMeaningful(s: State, addr: Addr, contact: Option<Contact>)
    requires Meaningful(s) && addr in s.dialing && (contact.Some? ==> addr in contact.value.addresses)
    ensures Meaningful(AnswerAddr(s, addr, contact))
  {
    var n, outs := AnswerAddr(s, addr, contact), s.dialing[addr];
    DialsAre(outs, contact);
    forall a | a in n.answers ensures AnswerOk(n.issued, a) {
      var i :| 0 <= i < |n.answers| && n.answers[i] == a;
      if i < |s.answers| {
        assert a == s.answers[i];
      } else {
        assert a == Dialed(outs[i - |s.answers|], contact);
      }
    }
  }

  lemma AnswerAddrKeeps(s: State, addr: Addr, contact: Option<Contact>)
    requires Inv(s) && (contact.Some? ==> addr in contact.value.addresses)
    ensures Inv(AnswerAddr(s, addr, contact))
  {
    if addr in s.dialing {
      DialsAre(s.dialing[addr], contact);
      FlushedKeeps(s, AnswerAddr(s, addr, contact), OnAddr(addr));
      AnswerAddrMeaningful(s, addr, contact);
    }
  }

  /** New address sets for a peer whose promises stay as they are. */
  lemma SetPeerKeeps(s: State, peer: PeerId, p: Peer)
    requires Inv(s) && p.promises == Outs(s, OnPeer(peer)) && p.connected !! p.dialing
    ensures Inv(s.(contacts := s.contacts[peer := p]))
  {
    SamePromisesKeep(s, s.(contacts := s.contacts[peer := p]));
  }

  lemma {:induction false} OpenIs(subscribers: seq<Subscriber>, closed: set<Subscriber>)
    ensures forall x :: x in Open(subscribers, closed) <==> x in subscribers && x !in closed
  {
    if subscribers != [] {
      OpenIs(subscribers[..|subscribers| - 1], closed);
      assert subscribers == subscribers[..|subscribers| - 1] + [subscribers[|subscribers| - 1]];
    }
  }

  lemma EmitSubscribers(s: State, e: LifecycleEvent)
    requires SubscribersOk(s)
    ensures SubscribersOk(Emit(s, e))
  {
    OpenIs(s.subscribers, s.closed);
    var n := Emit(s, e);
    forall x | x in n.subscribers ensures n.inboxes[x] == n.lifecycle[n.joined[x]..] {
      assert n.inboxes[x] == s.inboxes[x] + [e];
    }
  }

  lemma EmitKeeps(s: State, e: LifecycleEvent)
    requires Inv(s) && (e.Connected? ==> e.contact.peer in s.contacts)
    ensures Inv(Emit(s, e))
  {
    var n := Emit(s, e);
    SamePromisesKeep(s, n);
    EmitSubscribers(s, e);
    assert n.lifecycle[..|n.lifecycle| - 1] == s.lifecycle;
  }

  lemma RemoveContactMeaningful(s: State, peer: PeerId)
    requires Meaningful(s) && peer in s.contacts
    ensures Meaningful(RemoveContact(s, peer))
  {
    var n, outs := RemoveContact(s, peer), s.contacts[peer].promises;
    ConnectionsAre(outs, false);
    forall a | a in n.answers ensures AnswerOk(n.issued, a) {
      var i :| 0 <= i < |n.answers| && n.answers[i] == a;
      if i < |s.answers| {
        assert a == s.answers[i];
      } else {
        assert a == Connection(outs[i - |s.answers|], false);
      }
    }
  }

  lemma RemoveContactLifecycle(s: State, peer: PeerId)
    requires LifecycleOk(s) && SubscribersOk(s) && peer in s.contacts
    ensures LifecycleOk(RemoveContact(s, peer)) && SubscribersOk(RemoveContact(s, peer))
  {
    var n := RemoveContact(s, peer);
    EmitSubscribers(s, Disconnected(Contact(peer, s.contacts[peer].Addresses())));
    assert n.lifecycle[..|n.lifecycle| - 1] == s.lifecycle;
  }

  lemma RemoveContactBalanced(s: State, peer: PeerId)
    requires Balanced(s) && peer in s.contacts
    ensures Balanced(RemoveContact(s, peer))
  {
    RemoveContactFlushes(s, peer);
    FlushedKeeps(s, RemoveContact(s, peer), OnPeer(peer));
  }

  lemma RemoveContactFlushes(s: State, peer: PeerId)
    requires peer in s.contacts
    ensures Flushed(s, RemoveContact(s, peer), OnPeer(peer))
  {
    var n, outs := RemoveContact(s, peer), s.contacts[peer].promises;
    ConnectionsAre(outs, false);
    RepliesFollow(s.answers, Connections(outs, false), outs);
    assert n.answers == s.answers + Connections(outs, false);
    forall v | v != OnPeer(peer) ensures Outs(n, v) == Outs(s, v) {}
  }

  lemma RemoveContactKeeps(s: State, peer: PeerId)
    requires Inv(s)
    ensures Inv(RemoveContact(s, peer))
  {
    if peer in s.contacts {
      RemoveContactBalanced(s, peer);
      RemoveContactMeaningful(s, peer);
      RemoveContactLifecycle(s, peer);
    }
  }

  lemma FailContactKeeps(s: State, peer: PeerId, addr: Addr)
    requires Inv(s)
    ensures Inv(FailContact(s, peer, addr))
  {
    if peer in s.contacts {
      SetPeerKeeps(s, peer, Without(s.contacts[peer], addr));
      var n := s.(contacts := s.contacts[peer := Without(s.contacts[peer], addr)]);
      if n.contacts[peer].dialing == {} {
        AnswerPeerKeeps(n, peer, false);
        RemoveContactKeeps(AnswerPeer(n, peer, false), peer);
      }
    }
  }

  lemma FailAddressKeeps(s: State, peer: Option<PeerId>, addr: Addr)
    requires Inv(s)
    ensures Inv(FailAddress(s, peer, addr))
  {
    AnswerAddrKeeps(s, addr, None);
    if peer.Some? { FailContactKeeps(AnswerAddr(s, addr, None), peer.value, addr); }
  }

  lemma {:induction false} FailAddressesKeep(s: State, peer: Option<PeerId>, addrs: seq<Addr>)
    requires Inv(s)
    ensures Inv(FailAddresses(s, peer, addrs))
  {
    if addrs != [] {
      FailAddressesKeep(s, peer, addrs[..|addrs| - 1]);
      FailAddressKeeps(FailAddresses(s, peer, addrs[..|addrs| - 1]), peer, addrs[|addrs| - 1]);
    }
  }

  lemma AddConnectedKeeps(s: State, peer: PeerId, addr: Addr)
    requires Inv(s)
    ensures Inv(AddConnected(s, peer, addr))
    ensures peer in AddConnected(s, peer, addr).contacts
    ensures addr in AddConnected(s, peer, addr).contacts[peer].connected
  {
    if peer in s.contacts {
      SetPeerKeeps(s, peer, Joined(s.contacts[peer], addr));
      var m := s.(contacts := s.contacts[peer := Joined(s.contacts[peer], addr)]);
      AnswerPeerKeeps(m, peer, true);
      var n := AnswerPeer(m, peer, true);
      AnswerAddrKeeps(n, addr, ContactOf(n, peer));
    } else {
      SetPeerKeeps(s, peer, Peer({addr}, {}, {}, []));
      var n := s.(contacts := s.contacts[peer := Peer({addr}, {}, {}, [])]);
      AnswerAddrKeeps(n, addr, ContactOf(n, peer));
    }
  }

  // ---------------------------------------------------------------- steps

  lemma DialMeaningful(s: State, out: Out, addr: Addr)
    requires Meaningful(s) && out !in s.issued
    ensures Meaningful(Dial(s, out, addr))
  {
    var n := Dial(s, out, addr);
    forall a | a in n.answers ensures AnswerOk(n.issued, a) { assert AnswerOk(s.issued, a); }
    forall a, o | a in n.dialing && o in n.dialing[a] ensures o in n.issued && n.issued[o] == DialRequest(a) {
      assert o == out || o in Outs(s, OnAddr(a));
    }
  }

  lemma DialKeeps(s: State, out: Out, addr: Addr)
    requires Inv(s) && out !in s.issued
    ensures Inv(Dial(s, out, addr))
  {
    EnqueuedKeeps(s, Dial(s, out, addr), OnAddr(addr), out);
    DialMeaningful(s, out, addr);
  }

  /** One more connect request, waiting for its peer. */
  lemma WaitMeaningful(s: State, out: Out, request: Request, p: Peer)
    requires Meaningful(s) && out !in s.issued && request.ConnectRequest?
    requires p.promises == Outs(s, OnPeer(request.peer)) + [out] && p.connected !! p.dialing
    ensures Meaningful(s.(issued := s.issued[out := request], contacts := s.contacts[request.peer := p]))
  {
  }

  lemma ToldMeaningful(s: State, out: Out, request: Request)
    requires Meaningful(s) && out !in s.issued && request.ConnectRequest?
    ensures Meaningful(s.(issued := s.issued[out := request], answers := s.answers + [Connection(out, true)]))
  {
  }

  lemma EventsMeaningful(s: State, events: seq<SwarmEvent>)
    requires Meaningful(s)
    ensures Meaningful(s.(events := events))
  {
  }

  lemma ConnectMeaningful(s: State, out: Out, peer: PeerId, addresses: seq<Addr>)
    requires Meaningful(s) && out !in s.issued
    ensures Meaningful(Connect(s, out, peer, addresses))
  {
    var n, request := Connect(s, out, peer, addresses), ConnectRequest(peer, addresses);
    EventsMeaningful(s, n.events);
    var e := s.(events := n.events);
    if peer in s.contacts && !SomeUnconnected(s.contacts[peer], addresses) {
      ToldMeaningful(e, out, request);
    } else {
      WaitMeaningful(e, out, request, n.contacts[peer]);
    }
  }

  lemma ConnectBalanced(s: State, out: Out, peer: PeerId, addresses: seq<Addr>)
    requires Balanced(s) && out !in s.issued
    ensures Balanced(Connect(s, out, peer, addresses))
  {
    var n := Connect(s, out, peer, addresses);
    if peer in s.contacts && !SomeUnconnected(s.contacts[peer], addresses) {
      RepliedKeeps(s, n, out);
    } else {
      EnqueuedKeeps(s, n, OnPeer(peer), out);
    }
  }

  lemma ConnectKeeps(s: State, out: Out, peer: PeerId, addresses: seq<Addr>)
    requires Inv(s) && out !in s.issued
    ensures Inv(Connect(s, out, peer, addresses))
  {
    ConnectMeaningful(s, out, peer, addresses);
    ConnectBalanced(s, out, peer, addresses);
  }

  lemma EstablishedKeeps(s: State, peer: PeerId, addr: Addr, failed: seq<Addr>)
    requires Inv(s)
    ensures Inv(Established(s, peer, addr, failed))
  {
    var m := FailAddresses(s, Some(peer), failed);
    FailAddressesKeep(s, Some(peer), failed);
    AddConnectedKeeps(m, peer, addr);
    EmitKeeps(AddConnected(m, peer, addr), Connected(Contact(peer, {addr})));
  }

  lemma ApplyKeeps(s: State, step: Step)
    requires Inv(s) && Allowed(s, step)
    ensures Inv(Apply(s, step))
  {
    match step
    case DoDial(out, addr) => DialKeeps(s, out, addr);
    case DoConnect(out, peer, addresses) => ConnectKeeps(s, out, peer, addresses);
    case OnDiscovered(peer, addresses) =>
      var known := if peer in s.contacts then s.contacts[peer] else Peer({}, {}, {}, []);
      SetPeerKeeps(s, peer, known.(discovered := known.discovered + ToSet(addresses)));
    case OnEstablished(peer, addr, failed) => EstablishedKeeps(s, peer, addr, failed);
    case OnClosed(peer, addr, remaining) =>
      RemoveContactKeeps(s, peer);
      FailAddressKeeps(if remaining == 0 then RemoveContact(s, peer) else s, Some(peer), addr);
    case OnDialFailed(peer, error) => DialFailedKeeps(s, peer, error);
    case DoSubscribe(x) => SubscribeKeeps(s, x);
    case SubscriberGone(x) => QuietKeeps(s, Apply(s, step));
    case TakeEvent => QuietKeeps(s, Apply(s, step));
  }

  lemma SubscribeKeeps(s: State, x: Subscriber)
    requires Inv(s) && x !in s.joined
    ensures Inv(Subscribe(s, x))
  {
    SamePromisesKeep(s, Subscribe(s, x));
  }

  /** Steps that touch neither promises nor contacts nor the lifecycle. */
  lemma QuietKeeps(s: State, n: State)
    requires Inv(s)
    requires n.contacts == s.contacts && n.dialing == s.dialing && n.subscribers == s.subscribers
    requires n.issued == s.issued && n.answers == s.answers && n.lifecycle == s.lifecycle
    requires n.joined == s.joined && n.inboxes == s.inboxes
    ensures Inv(n)
  {
    assert forall w :: Outs(n, w) == Outs(s, w);
    SamePromisesKeep(s, n);
    assert Meaningful(n) && LifecycleOk(n) && SubscribersOk(n);
  }

  lemma DialFailedKeeps(s: State, peer: Option<PeerId>, error: DialError)
    requires Inv(s)
    ensures Inv(DialFailed(s, peer, error))
  {
    if error != AlreadyConnectedOrDialing {
      var n := match error
        case WrongPeerId(addr) => FailAddress(s, peer, addr)
        case Transport(addrs) => FailAddresses(s, peer, addrs)
        case _ => s;
      match error {
        case WrongPeerId(addr) => FailAddressKeeps(s, peer, addr);
        case Transport(addrs) => FailAddressesKeep(s, peer, addrs);
        case _ =>
      }
      if peer.Some? { RemoveContactKeeps(n, peer.value); }
    }
  }

  lemma {:induction false} RunKeeps(steps: seq<Step>)
    requires ValidRun(steps)
    ensures Inv(Run(steps))
  {
    if steps != [] {
      RunKeeps(steps[..|steps| - 1]);
      ApplyKeeps(Run(steps[..|steps| - 1]), steps[|steps| - 1]);
    }
  }

  // ---------------------------------------------------------------- main theorems

  /** Promise ledger: in every state of every run, each issued promise is
      answered exactly once or waits in exactly one list, never both, and a
      dial answered with a contact names a contact that has the dialed address. */
  lemma PromiseLedger(steps: seq<Step>)
    requires ValidRun(steps)
    ensures Balanced(Run(steps))
    ensures Meaningful(Run(steps))
  {
    RunKeeps(steps);
  }

  lemma {:induction false} SeemsConnectedSuffix(events: seq<LifecycleEvent>, from: nat, p: PeerId)
    requires from <= |events| && SeemsConnected(events[from..], p)
    ensures SeemsConnected(events, p)
  {
    var tail := events[from..];
    if tail != [] && tail[|tail| - 1].contact.peer != p {
      assert events[..|events| - 1][from..] == tail[..|tail| - 1];
      SeemsConnectedSuffix(events[..|events| - 1], from, p);
    }
  }

  /** Lifecycle view: whenever the last event a current subscriber received for
      a peer is `Connected`, the peer is a contact. */
  lemma LifecycleViewSound(steps: seq<Step>, x: Subscriber, p: PeerId)
    requires ValidRun(steps) && x in Run(steps).subscribers
    ensures x in Run(steps).inboxes
    ensures SeemsConnected(Run(steps).inboxes[x], p) ==> p in Run(steps).contacts
  {
    RunKeeps(steps);
    var s := Run(steps);
    if SeemsConnected(s.inboxes[x], p) { SeemsConnectedSuffix(s.lifecycle, s.joined[x], p); }
  }

  // ---------------------------------------------------------------- what one step does

  /** All promises that waited for the peer were refused between two states. */
  ghost predicate Refused(s: State, n: State, p: PeerId)
    requires p in s.contacts && s.answers <= n.answers
  {
    forall o :: o in s.contacts[p].promises ==> Connection(o, false) in n.answers[|s.answers|..]
  }

  /** How many `Disconnected` events there are for a peer. */
  function Departures(events: seq<LifecycleEvent>, p: PeerId): nat {
    if events == [] then 0
    else
      var last := events[|events| - 1];
      Departures(events[..|events| - 1], p) + if last.Disconnected? && last.contact.peer == p then 1 else 0
  }

  lemma {:induction false} DeparturesSum(a: seq<LifecycleEvent>, b: seq<LifecycleEvent>, p: PeerId)
    ensures Departures(a + b, p) == Departures(a, p) + Departures(b, p)
  {
    if b == [] {
      assert a + b == a;
    } else {
      DeparturesSum(a, b[..|b| - 1], p);
      assert (a + b)[..|a + b| - 1] == a + b[..|b| - 1];
    }
  }

  /** No contact is added, and each one that left was announced exactly once; no
      other peer was. */
  ghost predicate Departed(s: State, n: State) {
    && s.lifecycle <= n.lifecycle && n.contacts.Keys <= s.contacts.Keys
    && forall p :: Departures(n.lifecycle[|s.lifecycle|..], p) == if p in s.contacts && p !in n.contacts then 1 else 0
  }

  lemma DepartedThen(s: State, m: State, n: State)
    requires Departed(s, m) && Departed(m, n)
    ensures Departed(s, n)
  {
    var a, b := m.lifecycle[|s.lifecycle|..], n.lifecycle[|m.lifecycle|..];
    assert n.lifecycle[|s.lifecycle|..] == a + b;
    forall p ensures Departures(a + b, p) == if p in s.contacts && p !in n.contacts then 1 else 0 {
      DeparturesSum(a, b, p);
    }
  }

  lemma NobodyDeparted(s: State, n: State)
    requires n.lifecycle == s.lifecycle && n.contacts.Keys == s.contacts.Keys
    ensures Departed(s, n)
  {
    assert n.lifecycle[|s.lifecycle|..] == [];
  }

  lemma RemoveContactDeparts(s: State, peer: PeerId)
    requires peer in s.contacts
    ensures Departed(s, RemoveContact(s, peer))
  {
    var n, e := RemoveContact(s, peer), Disconnected(Contact(peer, s.contacts[peer].Addresses()));
    assert n.lifecycle[|s.lifecycle|..] == [e] && [e][..0] == [];
  }

  /** The promises of a peer as before, or all refused. */
  ghost predicate KeptOrRefused(s: State, n: State, p: PeerId)
    requires p in s.contacts && p in n.contacts && s.answers <= n.answers
  {
    n.contacts[p].promises == s.contacts[p].promises || (n.contacts[p].promises == [] && Refused(s, n, p))
  }

  /** Failing addresses only takes away: contacts disappear together with one
      `Disconnected` event each and the refusal of their promises, promises that
      stop waiting are refused, and nobody is told of a success. */
  ghost predicate Shed(s: State, n: State) {
    && s.answers <= n.answers && n.issued == s.issued
    && Departed(s, n)
    && (forall p :: p in n.contacts ==> p in s.contacts && KeptOrRefused(s, n, p))
    && (forall p :: p in s.contacts && p !in n.contacts ==> Refused(s, n, p))
    && (forall j :: |s.lifecycle| <= j < |n.lifecycle| ==> Left(s, n, n.lifecycle[j]))
    && (forall i :: |s.answers| <= i < |n.answers| ==> !(n.answers[i].Connection? && n.answers[i].ok))
  }

  ghost predicate Left(s: State, n: State, e: LifecycleEvent) {
    e.Disconnected? && e.contact.peer in s.contacts && e.contact.peer !in n.contacts
  }

  lemma RefusedThen(s: State, m: State, n: State, p: PeerId)
    requires s.answers <= m.answers <= n.answers && p in s.contacts
    requires
      || Refused(s, m, p)
      || (p in m.contacts && m.contacts[p].promises == s.contacts[p].promises && Refused(m, n, p))
    ensures Refused(s, n, p)
  {
    forall o | o in s.contacts[p].promises ensures Connection(o, false) in n.answers[|s.answers|..] {
      if Refused(s, m, p) {
        var i :| 0 <= i < |m.answers[|s.answers|..]| && m.answers[|s.answers|..][i] == Connection(o, false);
        assert n.answers[|s.answers|..][i] == Connection(o, false);
      } else {
        var i :| 0 <= i < |n.answers[|m.answers|..]| && n.answers[|m.answers|..][i] == Connection(o, false);
        assert n.answers[|s.answers|..][|m.answers| - |s.answers| + i] == Connection(o, false);
      }
    }
  }

  lemma ShedThen(s: State, m: State, n: State)
    requires Shed(s, m) && Shed(m, n)
    ensures Shed(s, n)
  {
    DepartedThen(s, m, n);
    forall p | p in n.contacts ensures p in s.contacts && KeptOrRefused(s, n, p) {
      if n.contacts[p].promises != s.contacts[p].promises { RefusedThen(s, m, n, p); }
    }
    forall p | p in s.contacts && p !in n.contacts ensures Refused(s, n, p) {
      if p in m.contacts && m.contacts[p].promises == s.contacts[p].promises { RefusedThen(s, m, n, p); }
      else { RefusedThen(s, m, n, p); }
    }
    forall j | |s.lifecycle| <= j < |n.lifecycle| ensures Left(s, n, n.lifecycle[j]) {
      if j < |m.lifecycle| { assert Left(s, m, m.lifecycle[j]); } else { assert Left(m, n, n.lifecycle[j]); }
    }
    forall i | |s.answers| <= i < |n.answers| ensures !(n.answers[i].Connection? && n.answers[i].ok) {
      if i < |m.answers| { assert n.answers[i] == m.answers[i]; }
    }
  }

  lemma AnswerPeerSheds(s: State, peer: PeerId)
    requires peer in s.contacts
    ensures Shed(s, AnswerPeer(s, peer, false))
  {
    var n, outs := AnswerPeer(s, peer, false), s.contacts[peer].promises;
    ConnectionsAre(outs, false);
    NobodyDeparted(s, n);
    forall o | o in outs ensures Connection(o, false) in n.answers[|s.answers|..] {
      var i :| 0 <= i < |outs| && outs[i] == o;
      assert n.answers[|s.answers|..][i] == Connection(o, false);
    }
  }

  lemma RemoveContactSheds(s: State, peer: PeerId)
    ensures Shed(s, RemoveContact(s, peer))
    ensures peer !in RemoveContact(s, peer).contacts
  {
    if peer !in s.contacts {
      NobodyDeparted(s, s);
    } else {
      var n, outs := RemoveContact(s, peer), s.contacts[peer].promises;
      RemoveContactDeparts(s, peer);
      ConnectionsAre(outs, false);
      forall o | o in outs ensures Connection(o, false) in n.answers[|s.answers|..] {
        var i :| 0 <= i < |outs| && outs[i] == o;
        assert n.answers[|s.answers|..][i] == Connection(o, false);
      }
    }
  }

  lemma FailAddressSheds(s: State, peer: Option<PeerId>, addr: Addr)
    ensures Shed(s, FailAddress(s, peer, addr))
  {
    var n := AnswerAddr(s, addr, None);
    if addr in s.dialing { DialsAre(s.dialing[addr], None); }
    NobodyDeparted(s, n);
    assert Shed(s, n);
    if peer.Some? && peer.value in n.contacts {
      var p := peer.value;
      var m := n.(contacts := n.contacts[p := Without(n.contacts[p], addr)]);
      NobodyDeparted(n, m);
      assert Shed(n, m);
      ShedThen(s, n, m);
      if m.contacts[p].dialing == {} {
        var k := AnswerPeer(m, p, false);
        AnswerPeerSheds(m, p);
        ShedThen(s, m, k);
        RemoveContactSheds(k, p);
        ShedThen(s, k, RemoveContact(k, p));
      }
    }
  }

  lemma {:induction false} FailAddressesShed(s: State, peer: Option<PeerId>, addrs: seq<Addr>)
    ensures Shed(s, FailAddresses(s, peer, addrs))
  {
    NobodyDeparted(s, s);
    if addrs != [] {
      var m := FailAddresses(s, peer, addrs[..|addrs| - 1]);
      FailAddressesShed(s, peer, addrs[..|addrs| - 1]);
      FailAddressSheds(m, peer, addrs[|addrs| - 1]);
      ShedThen(s, m, FailAddresses(s, peer, addrs));
    }
  }

  /** The closing callbacks only take away. */
  lemma ClosingSheds(s: State, step: Step)
    requires step.OnClosed? || step.OnDialFailed?
    ensures Shed(s, Apply(s, step))
  {
    NobodyDeparted(s, s);
    match step
    case OnClosed(peer, addr, remaining) =>
      var m := if remaining == 0 then RemoveContact(s, peer) else s;
      RemoveContactSheds(s, peer);
      FailAddressSheds(m, Some(peer), addr);
      ShedThen(s, m, Apply(s, step));
    case OnDialFailed(peer, error) =>
      if error != AlreadyConnectedOrDialing {
        var n := match error
          case WrongPeerId(addr) => FailAddress(s, peer, addr)
          case Transport(addrs) => FailAddresses(s, peer, addrs)
          case _ => s;
        match error {
          case WrongPeerId(addr) => FailAddressSheds(s, peer, addr);
          case Transport(addrs) => FailAddressesShed(s, peer, addrs);
          case _ =>
        }
        if peer.Some? {
          RemoveContactSheds(n, peer.value);
          ShedThen(s, n, RemoveContact(n, peer.value));
        }
      }
  }

  /** The state after an established connection, in terms of the state after the
      failed addresses were dropped. */
  ghost predicate ThenJoined(m: State, n: State, peer: PeerId, addr: Addr) {
    && m.answers <= n.answers && n.lifecycle == m.lifecycle + [Connected(Contact(peer, {addr}))]
    && n.contacts.Keys == m.contacts.Keys + {peer}
  }

  /** An established connection first sheds failed addresses, then answers
      success for its own peer only, then announces the peer. */
  lemma EstablishedParts(s: State, peer: PeerId, addr: Addr, failed: seq<Addr>)
    ensures var m, n := FailAddresses(s, Some(peer), failed), Established(s, peer, addr, failed);
            && Shed(s, m)
            && ThenJoined(m, n, peer, addr) && addr in n.contacts[peer].connected
            && (forall i :: |m.answers| <= i < |n.answers| && n.answers[i].Connection? ==>
                  peer in m.contacts && n.answers[i].out in m.contacts[peer].promises)
  {
    var m := FailAddresses(s, Some(peer), failed);
    FailAddressesShed(s, Some(peer), failed);
    if peer in m.contacts { ConnectionsAre(m.contacts[peer].promises, true); }
    var a := if peer in m.contacts
             then AnswerPeer(m.(contacts := m.contacts[peer := Joined(m.contacts[peer], addr)]), peer, true)
             else m.(contacts := m.contacts[peer := Peer({addr}, {}, {}, [])]);
    if addr in a.dialing { DialsAre(a.dialing[addr], ContactOf(a, peer)); }
    var n := Established(s, peer, addr, failed);
    forall i | |m.answers| <= i < |n.answers| && n.answers[i].Connection?
      ensures peer in m.contacts && n.answers[i].out in m.contacts[peer].promises
    {
      if i < |a.answers| { assert n.answers[i] == a.answers[i]; }
    }
  }

  lemma EstablishedTrue(s: State, peer: PeerId, addr: Addr, failed: seq<Addr>, i: nat)
    requires Inv(s) && |s.answers| <= i && ToldTrue(Established(s, peer, addr, failed), i)
    ensures var n := Established(s, peer, addr, failed);
            n.issued[n.answers[i].out].peer == peer && HasConnection(n, peer)
  {
    EstablishedParts(s, peer, addr, failed);
    EstablishedIssued(s, peer, addr, failed);
    FailAddressesKeep(s, Some(peer), failed);
  }

  /** A connect promise with addresses is answered `true` only in a step after
      which its peer has a connected address. */
  lemma TrueStep(s: State, step: Step, i: nat)
    requires Inv(s) && Allowed(s, step) && |s.answers| <= i && ToldTrue(Apply(s, step), i)
    ensures var n := Apply(s, step); HasConnection(n, n.issued[n.answers[i].out].peer)
  {
    match step
    case DoConnect(out, peer, addresses) =>
      assert addresses[0] in addresses;
    case OnEstablished(peer, addr, failed) => EstablishedTrue(s, peer, addr, failed, i);
    case OnClosed(_, _, _) => ClosingSheds(s, step);
    case OnDialFailed(_, _) => ClosingSheds(s, step);
    case _ =>
  }

  /** Replies are never taken back and requests never change. */
  lemma ApplyExtends(s: State, step: Step)
    requires Allowed(s, step)
    ensures s.answers <= Apply(s, step).answers
    ensures forall o :: o in s.issued ==> o in Apply(s, step).issued && Apply(s, step).issued[o] == s.issued[o]
  {
    match step
    case OnEstablished(peer, addr, failed) =>
      EstablishedParts(s, peer, addr, failed);
      EstablishedIssued(s, peer, addr, failed);
    case OnClosed(_, _, _) => ClosingSheds(s, step);
    case OnDialFailed(_, _) => ClosingSheds(s, step);
    case _ =>
  }

  lemma EstablishedIssued(s: State, peer: PeerId, addr: Addr, failed: seq<Addr>)
    ensures Established(s, peer, addr, failed).issued == s.issued
  {
    FailAddressesShed(s, Some(peer), failed);
  }

  /** The i-th reply was sent in the step that led to this state. */
  ghost predicate SentLast(steps: seq<Step>, i: nat) {
    steps != [] && |Run(steps[..|steps| - 1]).answers| <= i < |Run(steps).answers|
  }

  ghost predicate HasConnection(s: State, peer: PeerId) {
    peer in s.contacts && s.contacts[peer].connected != {}
  }

  /** Reply `i` tells a connect command with addresses that it succeeded. */
  ghost predicate ToldTrue(s: State, i: nat) {
    && i < |s.answers| && s.answers[i].Connection? && s.answers[i].ok && s.answers[i].out in s.issued
    && s.issued[s.answers[i].out].ConnectRequest? && s.issued[s.answers[i].out].addresses != []
  }

  lemma ToldBefore(s: State, step: Step, i: nat)
    requires Inv(s) && Allowed(s, step) && ToldTrue(Apply(s, step), i) && i < |s.answers|
    ensures ToldTrue(s, i)
    ensures Apply(s, step).answers[i] == s.answers[i]
    ensures Apply(s, step).issued[s.answers[i].out] == s.issued[s.answers[i].out]
  {
    ApplyExtends(s, step);
    assert Apply(s, step).answers[i] == s.answers[i];
    assert s.answers[i] in s.answers && AnswerOk(s.issued, s.answers[i]);
  }

  /** In every run, a connect command with addresses that was answered `true` was
      answered at a moment when its peer had a connected address. */
  lemma {:induction false} TrueMeansConnected(steps: seq<Step>, i: nat) returns (k: nat)
    requires ValidRun(steps) && ToldTrue(Run(steps), i)
    ensures k <= |steps| && SentLast(steps[..k], i)
    ensures HasConnection(Run(steps[..k]), Run(steps).issued[Run(steps).answers[i].out].peer)
  {
    var init, last := steps[..|steps| - 1], steps[|steps| - 1];
    var s := Run(init);
    RunKeeps(init);
    if |s.answers| <= i {
      TrueStep(s, last, i);
      k := |steps|;
      assert steps[..k] == steps;
    } else {
      ToldBefore(s, last, i);
      k := TrueMeansConnected(init, i);
      assert init[..k] == steps[..k];
    }
  }

  lemma LeftBeforeJoining(s: State, m: State, n: State, peer: PeerId, addr: Addr, j: nat)
    requires Shed(s, m) && ThenJoined(m, n, peer, addr)
    requires |s.lifecycle| <= j < |n.lifecycle| && n.lifecycle[j].Disconnected?
    ensures var p := n.lifecycle[j].contact.peer;
            p in s.contacts && s.answers <= n.answers && Refused(s, n, p) && (p in n.contacts <==> p == peer)
  {
    assert n.lifecycle[j] == m.lifecycle[j] && Left(s, m, m.lifecycle[j]);
    RefusedThen(s, m, n, n.lifecycle[j].contact.peer);
  }

  /** A `Disconnected` event coincides with the peer leaving the contacts and
      with the refusal of everybody who waited for it; only a connection
      established in the same step brings the peer back. */
  lemma DisconnectedMeansLeft(s: State, step: Step, j: nat)
    requires |s.lifecycle| <= j < |Apply(s, step).lifecycle| && Apply(s, step).lifecycle[j].Disconnected?
    ensures var n := Apply(s, step);
            var p := n.lifecycle[j].contact.peer;
            && p in s.contacts && s.answers <= n.answers && Refused(s, n, p)
            && (p in n.contacts <==> step.OnEstablished? && step.peer == p)
  {
    match step
    case OnEstablished(peer, addr, failed) =>
      EstablishedParts(s, peer, addr, failed);
      LeftBeforeJoining(s, FailAddresses(s, Some(peer), failed), Apply(s, step), peer, addr, j);
    case OnClosed(_, _, _) => ClosedMeansLeft(s, step, j);
    case OnDialFailed(_, _) => ClosedMeansLeft(s, step, j);
    case _ =>
  }

  lemma ClosedMeansLeft(s: State, step: Step, j: nat)
    requires step.OnClosed? || step.OnDialFailed?
    requires |s.lifecycle| <= j < |Apply(s, step).lifecycle|
    ensures var n := Apply(s, step);
            var p := n.lifecycle[j].contact.peer;
            p in s.contacts && s.answers <= n.answers && Refused(s, n, p) && p !in n.contacts
  {
    ClosingSheds(s, step);
    var n := Apply(s, step);
    assert Left(s, n, n.lifecycle[j]);
  }

  lemma GoneBeforeJoining(s: State, m: State, n: State, peer: PeerId, addr: Addr, p: PeerId)
    requires Shed(s, m) && ThenJoined(m, n, peer, addr) && p in s.contacts && p !in n.contacts
    ensures s.lifecycle <= n.lifecycle && Departures(n.lifecycle[|s.lifecycle|..], p) == 1
  {
    var e, gone := Connected(Contact(peer, {addr})), m.lifecycle[|s.lifecycle|..];
    assert n.lifecycle[|s.lifecycle|..] == gone + [e];
    DeparturesSum(gone, [e], p);
    assert [e][..0] == [];
  }

  /** A contact that leaves in a step is announced by exactly one `Disconnected`
      event of that step. */
  lemma LeavingIsAnnouncedOnce(s: State, step: Step, p: PeerId)
    requires p in s.contacts && p !in Apply(s, step).contacts
    ensures var n := Apply(s, step);
            s.lifecycle <= n.lifecycle && Departures(n.lifecycle[|s.lifecycle|..], p) == 1
  {
    match step
    case OnEstablished(peer, addr, failed) =>
      EstablishedParts(s, peer, addr, failed);
      GoneBeforeJoining(s, FailAddresses(s, Some(peer), failed), Apply(s, step), peer, addr, p);
    case OnClosed(_, _, _) => ClosingSheds(s, step);
    case OnDialFailed(_, _) => ClosingSheds(s, step);
    case _ =>
  }

  /** A connect command without addresses to a known peer is told `true` at
      once, connected or not: here the peer is only being dialed. */
  lemma EmptyConnectIsTold()
    ensures var steps := [DoConnect(0, 7, [1]), DoConnect(1, 7, [])];
            && ValidRun(steps)
            && Run(steps).answers == [Connection(1, true)]
            && Run(steps).contacts[7].connected == {} && Run(steps).contacts[7].dialing == {1}
  {
    var steps := [DoConnect(0, 7, [1]), DoConnect(1, 7, [])];
    assert steps[..1] == [DoConnect(0, 7, [1])];
    var one := Run(steps[..1]);
    assert Run([]) == New();
    assert steps[..1][..0] == [];
    assert one == Connect(New(), 0, 7, [1]);
    assert one.contacts[7] == Peer({}, {}, {1}, [0]) by { assert ToSet([1]) == {1}; }
    assert Run(steps) == Connect(one, 1, 7, []);
    assert ValidRun([]) && ValidRun(steps[..1]);
    assert steps[|steps| - 1] == DoConnect(1, 7, []) && Allowed(one, DoConnect(1, 7, []));
  }

  /** A connect command is told `true` at once exactly when the peer is known
      and has all the given addresses connected; what that says about being
      connected depends on the command having an address. */
  lemma ConnectToldAtOnce(s: State, out: Out, peer: PeerId, addresses: seq<Addr>)
    ensures var n := Connect(s, out, peer, addresses);
            && (n.answers == s.answers + [Connection(out, true)] <==>
                  peer in s.contacts && forall a :: a in addresses ==> a in s.contacts[peer].connected)
            && (n.answers != s.answers ==>
                  (n.contacts[peer].connected != {} <==> addresses != [] || s.contacts[peer].connected != {}))
  {
    if peer in s.contacts && !SomeUnconnected(s.contacts[peer], addresses) && addresses != [] {
      assert addresses[0] in addresses;
    }
  }

  // ---------------------------------------------------------------- every connection was announced

  lemma SeemsConnectedNext(events: seq<LifecycleEvent>, e: LifecycleEvent, p: PeerId)
    ensures SeemsConnected(events + [e], p) <==> if e.contact.peer == p then e.Connected? else SeemsConnected(events, p)
  {
    assert (events + [e])[..|events|] == events;
  }

  /** The last event for each connected peer, apart from `but`, says so. */
  ghost predicate KnownExcept(s: State, but: Option<PeerId>) {
    forall p: PeerId :: Some(p) != but && HasConnection(s, p) ==> SeemsConnected(s.lifecycle, p)
  }

  /** No connection is new and nothing was announced. */
  lemma NoNewConnection(s: State, n: State, but: Option<PeerId>)
    requires KnownExcept(s, None) && n.lifecycle == s.lifecycle
    requires forall p: PeerId :: Some(p) != but && HasConnection(n, p) ==> HasConnection(s, p)
    ensures KnownExcept(n, but)
  {
  }

  lemma RemoveContactKnown(s: State, peer: PeerId)
    requires KnownExcept(s, None)
    ensures KnownExcept(RemoveContact(s, peer), None)
  {
    if peer in s.contacts {
      var n, e := RemoveContact(s, peer), Disconnected(Contact(peer, s.contacts[peer].Addresses()));
      forall p | HasConnection(n, p) ensures SeemsConnected(n.lifecycle, p) {
        assert HasConnection(s, p);
        SeemsConnectedNext(s.lifecycle, e, p);
      }
    }
  }

  lemma FailAddressKnown(s: State, peer: Option<PeerId>, addr: Addr)
    requires KnownExcept(s, None)
    ensures KnownExcept(FailAddress(s, peer, addr), None)
  {
    var n := AnswerAddr(s, addr, None);
    NoNewConnection(s, n, None);
    if peer.Some? && peer.value in n.contacts {
      var p := peer.value;
      var m := n.(contacts := n.contacts[p := Without(n.contacts[p], addr)]);
      NoNewConnection(n, m, None);
      if m.contacts[p].dialing == {} {
        var k := AnswerPeer(m, p, false);
        NoNewConnection(m, k, None);
        RemoveContactKnown(k, p);
      }
    }
  }

  lemma {:induction false} FailAddressesKnown(s: State, peer: Option<PeerId>, addrs: seq<Addr>)
    requires KnownExcept(s, None)
    ensures KnownExcept(FailAddresses(s, peer, addrs), None)
  {
    if addrs != [] {
      FailAddressesKnown(s, peer, addrs[..|addrs| - 1]);
      FailAddressKnown(FailAddresses(s, peer, addrs[..|addrs| - 1]), peer, addrs[|addrs| - 1]);
    }
  }

  lemma EstablishedKnown(s: State, peer: PeerId, addr: Addr, failed: seq<Addr>)
    requires KnownExcept(s, None)
    ensures KnownExcept(Established(s, peer, addr, failed), None)
  {
    var m, e := FailAddresses(s, Some(peer), failed), Connected(Contact(peer, {addr}));
    FailAddressesKnown(s, Some(peer), failed);
    var a := AddConnected(m, peer, addr);
    NoNewConnection(m, a, Some(peer));
    var n := Emit(a, e);
    forall p | HasConnection(n, p) ensures SeemsConnected(n.lifecycle, p) {
      assert HasConnection(a, p);
      SeemsConnectedNext(a.lifecycle, e, p);
    }
  }

  lemma DialFailedKnown(s: State, peer: Option<PeerId>, error: DialError)
    requires KnownExcept(s, None)
    ensures KnownExcept(DialFailed(s, peer, error), None)
  {
    match error
    case AlreadyConnectedOrDialing =>
    case WrongPeerId(addr) =>
      FailAddressKnown(s, peer, addr);
      if peer.Some? { RemoveContactKnown(FailAddress(s, peer, addr), peer.value); }
    case Transport(addrs) =>
      FailAddressesKnown(s, peer, addrs);
      if peer.Some? { RemoveContactKnown(FailAddresses(s, peer, addrs), peer.value); }
    case OtherError =>
      if peer.Some? { RemoveContactKnown(s, peer.value); }
  }

  lemma ApplyKnown(s: State, step: Step)
    requires KnownExcept(s, None)
    ensures KnownExcept(Apply(s, step), None)
  {
    match step
    case OnEstablished(peer, addr, failed) => EstablishedKnown(s, peer, addr, failed);
    case OnClosed(peer, addr, remaining) =>
      RemoveContactKnown(s, peer);
      FailAddressKnown(if remaining == 0 then RemoveContact(s, peer) else s, Some(peer), addr);
    case OnDialFailed(peer, error) => DialFailedKnown(s, peer, error);
    case _ => NoNewConnection(s, Apply(s, step), None);
  }

  lemma {:induction false} RunKnown(steps: seq<Step>)
    ensures KnownExcept(Run(steps), None)
  {
    if steps != [] {
      RunKnown(steps[..|steps| - 1]);
      ApplyKnown(Run(steps[..|steps| - 1]), steps[|steps| - 1]);
    }
  }

  /** Lifecycle view is complete: in every run the last event for every connected
      peer is `Connected`, and a current subscriber from the start has received it. */
  lemma LifecycleViewComplete(steps: seq<Step>, p: PeerId)
    requires ValidRun(steps) && HasConnection(Run(steps), p)
    ensures var s := Run(steps);
            && SeemsConnected(s.lifecycle, p)
            && forall x :: x in s.subscribers && x in s.joined && s.joined[x] == 0 ==>
                 x in s.inboxes && SeemsConnected(s.inboxes[x], p)
  {
    RunKnown(steps);
    RunKeeps(steps);
    var s := Run(steps);
    assert s.lifecycle[0..] == s.lifecycle;
  }
}
