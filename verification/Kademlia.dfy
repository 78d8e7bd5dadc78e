/** Peer discovery over Kademlia (crates/kademlia/src/behaviour.rs) as a state
    machine: discovery requests wait per peer, are answered by routing events or
    by time-outs, and peers that keep failing are banned.

    A oneshot channel is a number; sending on it is an entry in `answers`.
    Addresses known to the routing table, query ids and the clock are inputs. */
module Kademlia {
  import opened Base

  type PeerId = nat
  type Addr = nat
  type Out = nat
  type QueryId = nat
  type Instant = nat
  type Duration = nat

  datatype Config = Config(queryTimeout: Duration, banCooldown: Duration, failThreshold: nat)

  datatype Pending = Pending(out: Out, created: Instant)

  datatype Failed = Failed(ban: Option<Instant>, count: nat)

  datatype Outcome = Found(addresses: seq<Addr>) | PeerBanned | PeerTimedOut

  datatype Answer = Answer(out: Out, outcome: Outcome)

  datatype Request = Request(peer: PeerId, created: Instant)

  /** `timer` is the instant for which the wake-up timer is armed; `issued`,
      `lastPoll` and `clock` record the past. */
  datatype State = State(
    pending: map<PeerId, seq<Pending>>,
    failed: map<PeerId, Failed>,
    queries: map<QueryId, PeerId>,
    timer: Instant,
    answers: seq<Answer>,
    issued: map<Out, Request>,
    lastPoll: Option<Instant>,
    clock: Instant
  )

  function New(c: Config): State {
    State(map[], map[], map[], c.queryTimeout, [], map[], None, 0)
  }

  function Min(a: nat, b: nat): nat {
    if a < b then a else b
  }

  // ---------------------------------------------------------------- requests

  predicate Banned(failed: map<PeerId, Failed>, peer: PeerId) {
    peer in failed && failed[peer].ban.Some?
  }

  /** `local` are the addresses the routing table has for the peer; `id` is the
      query the routing table starts if it is asked to. */
  function Discover(s: State, out: Out, peer: PeerId, local: seq<Addr>, id: QueryId, now: Instant): State {
    var n := s.(issued := s.issued[out := Request(peer, now)], clock := now);
    if local != [] then n.(answers := s.answers + [Answer(out, Found(local))])
    else if Banned(s.failed, peer) then n.(answers := s.answers + [Answer(out, PeerBanned)])
    else
      var waiting := if peer in s.pending then s.pending[peer] else [];
      n.(pending := s.pending[peer := waiting + [Pending(out, now)]],
         queries := if waiting == [] then s.queries[id := peer] else s.queries)
  }

  function Answers(pending: seq<Pending>, outcome: Outcome): seq<Answer> {
    if pending == [] then []
    else Answers(pending[..|pending| - 1], outcome) + [Answer(pending[|pending| - 1].out, outcome)]
  }

  function PeerDiscovered(s: State, peer: PeerId, addresses: seq<Addr>): State {
    s.(pending := s.pending - {peer},
       answers := s.answers + (if peer in s.pending then Answers(s.pending[peer], Found(addresses)) else []),
       failed := s.failed - {peer})
  }

  /** `addresses` are those the routing table has for the peer of the query. */
  function ClosestFinished(s: State, id: QueryId, addresses: seq<Addr>): State {
    if id !in s.queries then s
    else
      var n := s.(queries := s.queries - {id});
      if addresses == [] then n else PeerDiscovered(n, s.queries[id], addresses)
  }

  // ---------------------------------------------------------------- time-outs

  function Elapsed(now: Instant, since: Instant): Duration {
    if now >= since then now - since else 0
  }

  predicate TimedOut(now: Instant, since: Instant, timeout: Duration) {
    Elapsed(now, since) >= timeout
  }

  /** When to wake up for a deadline, if that is earlier than `wake`. */
  function Earlier(wake: Duration, now: Instant, since: Instant, timeout: Duration): Duration {
    if TimedOut(now, since, timeout) then wake else Min(timeout - Elapsed(now, since), wake)
  }

  function Expired(pending: seq<Pending>, now: Instant, timeout: Duration): seq<Pending> {
    if pending == [] then []
    else
      var rest, last := Expired(pending[..|pending| - 1], now, timeout), pending[|pending| - 1];
      if TimedOut(now, last.created, timeout) then rest + [last] else rest
  }

  function Alive(pending: seq<Pending>, now: Instant, timeout: Duration): seq<Pending> {
    if pending == [] then []
    else
      var rest, last := Alive(pending[..|pending| - 1], now, timeout), pending[|pending| - 1];
      if TimedOut(now, last.created, timeout) then rest else rest + [last]
  }

  function WakeFor(wake: Duration, pending: seq<Pending>, now: Instant, timeout: Duration): Duration {
    if pending == [] then wake
    else Earlier(WakeFor(wake, pending[..|pending| - 1], now, timeout), now, pending[|pending| - 1].created, timeout)
  }

  function Incremented(failed: map<PeerId, Failed>, peer: PeerId): map<PeerId, Failed> {
    failed[peer := if peer in failed then failed[peer].(count := failed[peer].count + 1) else Failed(None, 1)]
  }

  /** A poll in progress: the state so far and the wake-up computed so far. */
  datatype Sweep = Sweep(s: State, wake: Duration)

  function SweepPeer(c: Config, w: Sweep, peer: PeerId, now: Instant): Sweep
    requires peer in w.s.pending
  {
    var s, all := w.s, w.s.pending[peer];
    var expired, alive := Expired(all, now, 2 * c.queryTimeout), Alive(all, now, 2 * c.queryTimeout);
    Sweep(
      s.(pending := if alive == [] then s.pending - {peer} else s.pending[peer := alive],
         answers := s.answers + Answers(expired, PeerTimedOut),
         failed := if expired == [] then s.failed else Incremented(s.failed, peer)),
      WakeFor(w.wake, all, now, 2 * c.queryTimeout))
  }

  /** The pending requests of the peers in `order`, one peer after the other. */
  function SweepPending(c: Config, w: Sweep, order: seq<PeerId>, now: Instant): Sweep {
    if order == [] then w
    else
      var before := SweepPending(c, w, order[..|order| - 1], now);
      if order[|order| - 1] in before.s.pending then SweepPeer(c, before, order[|order| - 1], now) else before
  }

  predicate Unbans(c: Config, f: Failed, now: Instant) {
    f.ban.Some? && TimedOut(now, f.ban.value, c.banCooldown)
  }

  function Stamped(c: Config, f: Failed, now: Instant): Failed {
    if f.count >= c.failThreshold then f.(ban := Some(now)) else f
  }

  function SweepBan(c: Config, w: Sweep, peer: PeerId, now: Instant): Sweep
    requires peer in w.s.failed
  {
    var f := w.s.failed[peer];
    Sweep(
      w.s.(failed := if Unbans(c, f, now) then w.s.failed - {peer} else w.s.failed[peer := Stamped(c, f, now)]),
      if f.ban.Some? then Earlier(w.wake, now, f.ban.value, c.banCooldown) else w.wake)
  }

  function SweepBans(c: Config, w: Sweep, order: seq<PeerId>, now: Instant): Sweep {
    if order == [] then w
    else
      var before := SweepBans(c, w, order[..|order| - 1], now);
      if order[|order| - 1] in before.s.failed then SweepBan(c, before, order[|order| - 1], now) else before
  }

  predicate Idle(s: State) {
    s.pending == map[] && s.failed == map[]
  }

  function Swept(c: Config, s: State, now: Instant, pendingOrder: seq<PeerId>): Sweep {
    SweepPending(c, Sweep(s, Min(c.queryTimeout, c.banCooldown)), pendingOrder, now)
  }

  /** A poll after its commands were executed. The orders are those in which
      the two hash maps hand out their keys. */
  function Poll(c: Config, s: State, now: Instant, pendingOrder: seq<PeerId>, failedOrder: seq<PeerId>): State {
    if Idle(s) then s.(clock := now)
    else
      var w := SweepBans(c, Swept(c, s, now, pendingOrder), failedOrder, now);
      w.s.(timer := now + w.wake, lastPoll := Some(now), clock := now)
  }

  // ---------------------------------------------------------------- runs

  datatype Step =
    | DoDiscover(out: Out, peer: PeerId, local: seq<Addr>, id: QueryId, now: Instant)
    | OnRouting(peer: PeerId, addresses: seq<Addr>)
    | OnQuery(id: QueryId, addresses: seq<Addr>)
    | DoPoll(now: Instant, pendingOrder: seq<PeerId>, failedOrder: seq<PeerId>)

  function Apply(c: Config, s: State, step: Step): State {
    match step
    case DoDiscover(out, peer, local, id, now) => Discover(s, out, peer, local, id, now)
    case OnRouting(peer, addresses) => PeerDiscovered(s, peer, addresses)
    case OnQuery(id, addresses) => ClosestFinished(s, id, addresses)
    case DoPoll(now, pendingOrder, failedOrder) => Poll(c, s, now, pendingOrder, failedOrder)
  }

  /** Channels are new, the clock is monotone, and the orders list the keys the
      maps have when their sweep starts. */
  ghost predicate Allowed(c: Config, s: State, step: Step) {
    match step
    case DoDiscover(out, _, _, _, now) => out !in s.issued && s.clock <= now
    case DoPoll(now, pendingOrder, failedOrder) =>
      && s.clock <= now
      && Enumerates(pendingOrder, s.pending.Keys)
      && Enumerates(failedOrder, Swept(c, s, now, pendingOrder).s.failed.Keys)
    case _ => true
  }

  ghost function Run(c: Config, steps: seq<Step>): State {
    if steps == [] then New(c) else Apply(c, Run(c, steps[..|steps| - 1]), steps[|steps| - 1])
  }

  ghost predicate ValidRun(c: Config, steps: seq<Step>) {
    steps == [] ||
    (ValidRun(c, steps[..|steps| - 1]) && Allowed(c, Run(c, steps[..|steps| - 1]), steps[|steps| - 1]))
  }
}
