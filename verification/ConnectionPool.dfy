/** The connection pool (connection-pool/src/behaviour.rs) as a state machine
    over commands and swarm callbacks.

    A oneshot channel is a number; sending on it is an entry in `answers`.
    `issued`, `answers`, `lifecycle`, `joined` and `inboxes` are what the outside
    sees: the requests made, the replies sent, the lifecycle events, and what
    each subscriber received. */
module ConnectionPool {
  import opened Base

  type PeerId = nat
  type Addr = nat
  type Out = nat
  type Subscriber = nat

  datatype Peer = Peer(connected: set<Addr>, discovered: set<Addr>, dialing: set<Addr>, promises: seq<Out>) {
    function Addresses(): set<Addr> {
      connected + discovered + dialing
    }
  }

  datatype Contact = Contact(peer: PeerId, addresses: set<Addr>)

  datatype Request = DialRequest(addr: Addr) | ConnectRequest(peer: PeerId, addresses: seq<Addr>)

  datatype Answer = Dialed(out: Out, contact: Option<Contact>) | Connection(out: Out, ok: bool)

  datatype LifecycleEvent = Connected(contact: Contact) | Disconnected(contact: Contact)

  datatype SwarmEvent = DialAddress(addr: Addr) | DialPeer(peer: PeerId, addresses: set<Addr>)

  datatype DialError =
    | AlreadyConnectedOrDialing
    | WrongPeerId(endpoint: Addr)
    | Transport(failed: seq<Addr>)
    | OtherError

  datatype State = State(
    contacts: map<PeerId, Peer>,
    dialing: map<Addr, seq<Out>>,
    events: seq<SwarmEvent>,
    subscribers: seq<Subscriber>,
    closed: set<Subscriber>,
    issued: map<Out, Request>,
    answers: seq<Answer>,
    lifecycle: seq<LifecycleEvent>,
    joined: map<Subscriber, nat>,
    inboxes: map<Subscriber, seq<LifecycleEvent>>
  )

  function New(): State {
    State(map[], map[], [], [], {}, map[], [], [], map[], map[])
  }

  // ---------------------------------------------------------------- replies

  function Connections(outs: seq<Out>, ok: bool): seq<Answer> {
    if outs == [] then [] else Connections(outs[..|outs| - 1], ok) + [Connection(outs[|outs| - 1], ok)]
  }

  function Dials(outs: seq<Out>, contact: Option<Contact>): seq<Answer> {
    if outs == [] then [] else Dials(outs[..|outs| - 1], contact) + [Dialed(outs[|outs| - 1], contact)]
  }

  // ---------------------------------------------------------------- commands

  function Dial(s: State, out: Out, addr: Addr): State {
    var waiting := if addr in s.dialing then s.dialing[addr] else [];
    s.(issued := s.issued[out := DialRequest(addr)],
       dialing := s.dialing[addr := waiting + [out]],
       events := s.events + [DialAddress(addr)])
  }

  function NotDialed(known: Peer, addresses: seq<Addr>): set<Addr> {
    set a | a in addresses && a !in known.dialing
  }

  predicate SomeUnconnected(known: Peer, addresses: seq<Addr>) {
    exists a :: a in addresses && a !in known.connected
  }

  function DialEvents(peer: PeerId, addresses: set<Addr>): seq<SwarmEvent> {
    if addresses == {} then [] else [DialPeer(peer, addresses)]
  }

  function Connect(s: State, out: Out, peer: PeerId, addresses: seq<Addr>): State {
    var n := s.(issued := s.issued[out := ConnectRequest(peer, addresses)]);
    if peer in s.contacts then
      var known := s.contacts[peer];
      var m := n.(events := s.events + DialEvents(peer, NotDialed(known, addresses)));
      if SomeUnconnected(known, addresses)
      then m.(contacts := s.contacts[peer := known.(promises := known.promises + [out])])
      else m.(answers := s.answers + [Connection(out, true)])
    else
      n.(contacts := s.contacts[peer := Peer({}, {}, ToSet(addresses), [out])],
         events := s.events + DialEvents(peer, ToSet(addresses)))
  }

  function Discovered(s: State, peer: PeerId, addresses: seq<Addr>): State {
    var known := if peer in s.contacts then s.contacts[peer] else Peer({}, {}, {}, []);
    s.(contacts := s.contacts[peer := known.(discovered := known.discovered + ToSet(addresses))])
  }

  // ---------------------------------------------------------------- lifecycle

  function Open(subscribers: seq<Subscriber>, closed: set<Subscriber>): seq<Subscriber> {
    if subscribers == [] then []
    else
      var init, last := subscribers[..|subscribers| - 1], subscribers[|subscribers| - 1];
      Open(init, closed) + (if last in closed then [] else [last])
  }

  /** Every open subscriber receives the event; closed ones are dropped. */
  function Emit(s: State, e: LifecycleEvent): State {
    var subscribers := Open(s.subscribers, s.closed);
    s.(lifecycle := s.lifecycle + [e],
       subscribers := subscribers,
       inboxes := map x | x in s.inboxes :: if x in subscribers then s.inboxes[x] + [e] else s.inboxes[x])
  }

  function Subscribe(s: State, x: Subscriber): State {
    s.(subscribers := s.subscribers + [x],
       joined := s.joined[x := |s.lifecycle|],
       inboxes := s.inboxes[x := []])
  }

  // ---------------------------------------------------------------- addresses

  function ContactOf(s: State, peer: PeerId): Option<Contact> {
    if peer in s.contacts then Some(Contact(peer, s.contacts[peer].Addresses())) else None
  }

  /** Answers those waiting for a peer. */
  function AnswerPeer(s: State, peer: PeerId, ok: bool): State
    requires peer in s.contacts
  {
    s.(contacts := s.contacts[peer := s.contacts[peer].(promises := [])],
       answers := s.answers + Connections(s.contacts[peer].promises, ok))
  }

  /** Answers those waiting for an address. */
  function AnswerAddr(s: State, addr: Addr, contact: Option<Contact>): State {
    if addr in s.dialing then
      s.(dialing := s.dialing - {addr}, answers := s.answers + Dials(s.dialing[addr], contact))
    else s
  }

  function Joined(p: Peer, addr: Addr): Peer {
    p.(dialing := p.dialing - {addr}, discovered := p.discovered - {addr}, connected := p.connected + {addr})
  }

  function AddConnected(s: State, peer: PeerId, addr: Addr): State {
    var n :=
      if peer in s.contacts
      then AnswerPeer(s.(contacts := s.contacts[peer := Joined(s.contacts[peer], addr)]), peer, true)
      else s.(contacts := s.contacts[peer := Peer({addr}, {}, {}, [])]);
    AnswerAddr(n, addr, ContactOf(n, peer))
  }

  function RemoveContact(s: State, peer: PeerId): State {
    if peer in s.contacts then
      var e := Emit(s, Disconnected(Contact(peer, s.contacts[peer].Addresses())));
      e.(contacts := s.contacts - {peer},
         answers := s.answers + Connections(s.contacts[peer].promises, false))
    else s
  }

  function Without(p: Peer, addr: Addr): Peer {
    p.(connected := p.connected - {addr}, discovered := p.discovered - {addr}, dialing := p.dialing - {addr})
  }

  /** The contact part of a failed address. */
  function FailContact(s: State, peer: PeerId, addr: Addr): State {
    if peer !in s.contacts then s
    else
      var n := s.(contacts := s.contacts[peer := Without(s.contacts[peer], addr)]);
      if n.contacts[peer].dialing != {} then n
      else
        var m := AnswerPeer(n, peer, false);
        if m.contacts[peer].connected == {} then RemoveContact(m, peer) else m
  }

  function FailAddress(s: State, peer: Option<PeerId>, addr: Addr): State {
    var n := AnswerAddr(s, addr, None);
    if peer.None? then n else FailContact(n, peer.value, addr)
  }

  function FailAddresses(s: State, peer: Option<PeerId>, addrs: seq<Addr>): State {
    if addrs == [] then s
    else FailAddress(FailAddresses(s, peer, addrs[..|addrs| - 1]), peer, addrs[|addrs| - 1])
  }

  // ---------------------------------------------------------------- callbacks

  function Established(s: State, peer: PeerId, addr: Addr, failed: seq<Addr>): State {
    Emit(AddConnected(FailAddresses(s, Some(peer), failed), peer, addr), Connected(Contact(peer, {addr})))
  }

  function Closed(s: State, peer: PeerId, addr: Addr, remaining: nat): State {
    FailAddress(if remaining == 0 then RemoveContact(s, peer) else s, Some(peer), addr)
  }

  function DialFailed(s: State, peer: Option<PeerId>, error: DialError): State {
    match error
    case AlreadyConnectedOrDialing => s
    case _ =>
      var n := match error
        case WrongPeerId(addr) => FailAddress(s, peer, addr)
        case Transport(addrs) => FailAddresses(s, peer, addrs)
        case _ => s;
      if peer.Some? then RemoveContact(n, peer.value) else n
  }

  // ---------------------------------------------------------------- runs

  datatype Step =
    | DoDial(out: Out, addr: Addr)
    | DoConnect(out: Out, peer: PeerId, addresses: seq<Addr>)
    | OnDiscovered(peer: PeerId, addresses: seq<Addr>)
    | OnEstablished(peer: PeerId, addr: Addr, failed: seq<Addr>)
    | OnClosed(peer: PeerId, addr: Addr, remaining: nat)
    | OnDialFailed(maybePeer: Option<PeerId>, error: DialError)
    | DoSubscribe(subscriber: Subscriber)
    | SubscriberGone(subscriber: Subscriber)
    | TakeEvent

  function Apply(s: State, step: Step): State {
    match step
    case DoDial(out, addr) => Dial(s, out, addr)
    case DoConnect(out, peer, addresses) => Connect(s, out, peer, addresses)
    case OnDiscovered(peer, addresses) => Discovered(s, peer, addresses)
    case OnEstablished(peer, addr, failed) => Established(s, peer, addr, failed)
    case OnClosed(peer, addr, remaining) => Closed(s, peer, addr, remaining)
    case OnDialFailed(peer, error) => DialFailed(s, peer, error)
    case DoSubscribe(x) => Subscribe(s, x)
    case SubscriberGone(x) => s.(closed := s.closed + {x})
    case TakeEvent => if s.events == [] then s else s.(events := s.events[1..])
  }

  /** Channels are created fresh for each command. */
  ghost predicate Allowed(s: State, step: Step) {
    match step
    case DoDial(out, _) => out !in s.issued
    case DoConnect(out, _, _) => out !in s.issued
    case DoSubscribe(x) => x !in s.joined
    case _ => true
  }

  ghost function Run(steps: seq<Step>): State {
    if steps == [] then New() else Apply(Run(steps[..|steps| - 1]), steps[|steps| - 1])
  }

  ghost predicate ValidRun(steps: seq<Step>) {
    steps == [] || (ValidRun(steps[..|steps| - 1]) && Allowed(Run(steps[..|steps| - 1]), steps[|steps| - 1]))
  }
}
