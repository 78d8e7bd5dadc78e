/** The particle scheduler (aquamarine/src/plumber.rs) as a state machine.

    One `Turn` holds everything a poll gets from outside: which VM creations,
    host calls and interpretations finished, the clock readings, which peers are
    scopes of this node, and the orders in which the hash map of actors was
    visited. `arrivals` is a history: the particles accepted so far. */
module Plumbing {
  import opened Base
  import opened Particles
  import opened VmPools
  import opened FunctionLedgers
  import opened Actors

  datatype Key = Key(particle: ParticleId, peer: PeerId)

  datatype Event = Routed(effects: RoutingEffects) | ParticleExpired(id: ParticleId)

  datatype Arrival = Arrival(key: Key, particle: Particle)

  datatype PlumberState = PlumberState(
    events: seq<Event>,
    actors: map<Key, ActorState>,
    pool: PoolState,
    arrivals: seq<Arrival>
  )

  datatype Turn = Turn(
    ready: Vm -> Creation,
    done: Key -> seq<Completion>,
    runs: Key -> Option<Interpretation>,
    isScope: PeerId -> bool,
    visit: seq<Key>,
    now: U64,
    offer: seq<Key>,
    doneLater: Key -> seq<Completion>,
    clock: nat -> U64
  )

  function NewPlumber(poolSize: nat): PlumberState {
    PlumberState([], map[], NewPool(poolSize), [])
  }

  // ---------------------------------------------------------------- ingestion

  function ActorFor(s: PlumberState, p: Particle, peer: PeerId): ActorState {
    var key := Key(p.id, peer);
    if key in s.actors then s.actors[key] else NewActor(p, peer, |s.arrivals|)
  }

  function Ingest(s: PlumberState, p: Particle, setFunction: bool, peer: PeerId, now: U64): PlumberState {
    if DeadlineOf(p).IsExpired(now) then
      s.(events := s.events + [ParticleExpired(p.id)])
    else
      s.(actors := s.actors[Key(p.id, peer) := Receive(ActorFor(s, p, peer), p, setFunction)],
         arrivals := s.arrivals + [Arrival(Key(p.id, peer), p)])
  }

  // ---------------------------------------------------------------- gathering

  /** The state with the effects of the interpretations found complete so far. */
  datatype Gathered = Gathered(state: PlumberState, effects: seq<RoutingEffects>)

  function GatherOne(g: Gathered, k: Key, t: Turn): Gathered {
    var s := g.state;
    if k !in s.actors then g
    else
      var a := s.actors[k];
      var actors := s.actors[k := Polled(a, t.done(k), t.runs(k))];
      if Completes(a, t.runs(k)) then
        Gathered(s.(actors := actors, pool := Put(s.pool, a.future.value.at)),
                 g.effects + [EffectsOf(a, t.runs(k).value)])
      else
        Gathered(s.(actors := actors), g.effects)
  }

  function Gather(s: PlumberState, order: seq<Key>, t: Turn): Gathered {
    if order == [] then Gathered(s, [])
    else GatherOne(Gather(s, order[..|order| - 1], t), order[|order| - 1], t)
  }

  function Matching(peers: seq<PeerId>, keep: PeerId -> bool): seq<PeerId> {
    if peers == [] then []
    else Matching(peers[..|peers| - 1], keep) + (if keep(peers[|peers| - 1]) then [peers[|peers| - 1]] else [])
  }

  /** The part of the effects that goes to the peers in `keep`, without empty entries. */
  function Towards(effects: seq<RoutingEffects>, keep: PeerId -> bool): seq<RoutingEffects> {
    if effects == [] then []
    else
      var init, last := effects[..|effects| - 1], effects[|effects| - 1];
      var peers := Matching(last.nextPeers, keep);
      Towards(init, keep) + (if peers == [] then [] else [RoutingEffects(last.particle, peers)])
  }

  // ---------------------------------------------------------------- reaping

  predicate Keeps(a: ActorState, now: U64) {
    !a.deadline.IsExpired(now) || Executing(a)
  }

  /** Reaping needs a VM for the clean-up, and gives it back. */
  function Reap(s: PlumberState, now: U64): PlumberState {
    if AnyFree(s.pool)
    then s.(actors := map k | k in s.actors && Keeps(s.actors[k], now) :: s.actors[k])
    else s
  }

  // ---------------------------------------------------------------- scheduling

  /** Without a free VM the loop stops, which is the same as skipping the rest. */
  function OfferTo(s: PlumberState, k: Key, done: seq<Completion>): PlumberState {
    if !AnyFree(s.pool) || k !in s.actors then s
    else
      var a := s.actors[k];
      s.(actors := s.actors[k := Offered(a, Next(s.pool), done)],
         pool := if Accepts(a, done) then Take(s.pool) else s.pool)
  }

  function OfferOne(s: PlumberState, k: Key, t: Turn): PlumberState {
    OfferTo(s, k, t.doneLater(k))
  }

  function Offer(s: PlumberState, order: seq<Key>, t: Turn): PlumberState {
    if order == [] then s
    else OfferOne(Offer(s, order[..|order| - 1], t), order[|order| - 1], t)
  }

  // ---------------------------------------------------------------- routing

  datatype Hop = Hop(particle: Particle, peer: PeerId)

  function HopsOf(e: RoutingEffects): (hops: seq<Hop>)
    ensures |hops| == |e.nextPeers| && forall i :: 0 <= i < |hops| ==> hops[i] == Hop(e.particle, e.nextPeers[i])
  {
    seq(|e.nextPeers|, i requires 0 <= i < |e.nextPeers| => Hop(e.particle, e.nextPeers[i]))
  }

  function Hops(effects: seq<RoutingEffects>): seq<Hop> {
    if effects == [] then [] else Hops(effects[..|effects| - 1]) + HopsOf(effects[|effects| - 1])
  }

  function Deliver(s: PlumberState, hops: seq<Hop>, clock: nat -> U64): PlumberState {
    if hops == [] then s
    else
      var n := |hops| - 1;
      Ingest(Deliver(s, hops[..n], clock), hops[n].particle, false, hops[n].peer, clock(n))
  }

  function AsEvents(effects: seq<RoutingEffects>): (events: seq<Event>)
    ensures |events| == |effects| && forall i :: 0 <= i < |events| ==> events[i] == Routed(effects[i])
  {
    seq(|effects|, i requires 0 <= i < |effects| => Routed(effects[i]))
  }

  // ---------------------------------------------------------------- one poll

  function Refilled(s: PlumberState, t: Turn): PlumberState {
    s.(pool := PollPool(s.pool, t.ready))
  }

  predicate EarlyReturn(s: PlumberState) {
    s.events != []
  }

  function Scheduled(s: PlumberState, t: Turn): PlumberState {
    Offer(Reap(Gather(Refilled(s, t), t.visit, t).state, t.now), t.offer, t)
  }

  function Finished(s: PlumberState, t: Turn): seq<RoutingEffects> {
    Gather(Refilled(s, t), t.visit, t).effects
  }

  function LocalHops(s: PlumberState, t: Turn): seq<Hop> {
    Hops(Towards(Finished(s, t), t.isScope))
  }

  function RemoteEffects(s: PlumberState, t: Turn): seq<RoutingEffects> {
    Towards(Finished(s, t), (p: PeerId) => !t.isScope(p))
  }

  /** The state after a poll, before its event is handed out. */
  function Turned(s: PlumberState, t: Turn): PlumberState {
    if EarlyReturn(s) then Refilled(s, t)
    else
      var d := Deliver(Scheduled(s, t), LocalHops(s, t), t.clock);
      d.(events := d.events + AsEvents(RemoteEffects(s, t)))
  }

  function Popped(s: PlumberState): (PlumberState, Option<Event>) {
    if s.events == [] then (s, None) else (s.(events := s.events[1..]), Some(s.events[0]))
  }

  function Poll(s: PlumberState, t: Turn): (PlumberState, Option<Event>) {
    Popped(Turned(s, t))
  }

  /** The visiting orders of a turn list exactly the actors that are there. */
  ghost predicate Fits(s: PlumberState, t: Turn) {
    s.events == [] ==>
      && Enumerates(t.visit, s.actors.Keys)
      && Enumerates(t.offer, Reap(Gather(Refilled(s, t), t.visit, t).state, t.now).actors.Keys)
  }

  // ---------------------------------------------------------------- runs

  datatype Step =
    | Arrive(particle: Particle, setFunction: bool, peer: PeerId, now: U64)
    | Tick(turn: Turn)

  function Apply(s: PlumberState, step: Step): PlumberState {
    match step
    case Arrive(p, f, peer, now) => Ingest(s, p, f, peer, now)
    case Tick(t) => Poll(s, t).0
  }

  ghost function Run(s: PlumberState, steps: seq<Step>): PlumberState {
    if steps == [] then s else Apply(Run(s, steps[..|steps| - 1]), steps[|steps| - 1])
  }
}
