/** The scheduler as an object that updates its events, its actors and its VM
    pool in place, proved against the state machine of module `Plumbing`. */
module Plumbers {
  import opened Base
  import opened Particles
  import opened VmPools
  import opened FunctionLedgers
  import opened Actors
  import opened ActorTables
  import opened Plumbing
  import opened PlumbingRuns
  import opened VmTracking

  class Plumber {
    var events: seq<Event>
    const table: ActorTable
    const vmPool: VmPool
    ghost var arrivals: seq<Arrival>

    ghost function View(): PlumberState
      reads this, table, vmPool
    {
      PlumberState(events, table.views, vmPool.View(), arrivals)
    }

    ghost predicate Owns()
      reads this, table, table.repr
    {
      table.Linked() && this !in table.repr && vmPool !in table.repr
    }

    ghost predicate Valid()
      reads this, vmPool, table, table.repr
    {
      Owns() && Inv(View())
    }

    constructor (poolSize: nat)
      ensures Valid() && View() == NewPlumber(poolSize)
      ensures fresh(vmPool) && fresh(table.repr)
    {
      events, arrivals := [], [];
      vmPool := new VmPool(poolSize);
      table := new ActorTable();
      new;
      RunKeeps(poolSize, []);
    }

    // ------------------------------------------------------------ the phases, on the state alone

    method IngestOwned(p: Particle, setFunction: bool, peer: PeerId, now: U64)
      requires Owns()
      modifies this`events, this`arrivals, table.repr
      ensures Owns() && fresh(table.repr - old(table.repr)) && old(table.repr) <= table.repr
      ensures View() == old(Plumbing.Ingest(View(), p, setFunction, peer, now))
    {
      if DeadlineOf(p).IsExpired(now) {
        Push([ParticleExpired(p.id)]);
      } else {
        AcceptOwned(Key(p.id, peer), p, setFunction);
      }
    }

    /** Delivers a particle that has not expired. */
    method AcceptOwned(key: Key, p: Particle, setFunction: bool)
      requires Owns() && key.particle == p.id
      modifies this`arrivals, table.repr
      ensures Owns() && fresh(table.repr - old(table.repr)) && old(table.repr) <= table.repr
      ensures View() == old(View()).(
        actors := old(View()).actors[key := Receive(ActorFor(old(View()), p, key.peer), p, setFunction)],
        arrivals := old(arrivals) + [Arrival(key, p)])
    {
      table.Ingest(key, p, setFunction, |arrivals|);
      assert this !in table.repr && vmPool !in table.repr;
      Record(Arrival(key, p));
    }

    ghost method Record(arrival: Arrival)
      requires Owns()
      modifies this`arrivals
      ensures Owns() && arrivals == old(arrivals) + [arrival]
    {
      arrivals := arrivals + [arrival];
    }

    method Push(more: seq<Event>)
      requires Owns()
      modifies this`events
      ensures Owns() && events == old(events) + more
    {
      events := events + more;
    }

    method GatherOwned(k: Key, done: seq<Completion>, run: Option<Interpretation>)
      returns (found: Option<RoutingEffects>)
      requires Owns() && CanGather(View(), k)
      modifies vmPool, table.repr
      ensures Owns() && table.repr == old(table.repr)
      ensures table.views == old(table.views)[k := Polled(old(table.views)[k], done, run)]
      ensures found ==
        if Completes(old(table.views)[k], run) then Some(EffectsOf(old(table.views)[k], run.value)) else None
      ensures vmPool.View() ==
        if found.Some? then Put(old(vmPool.View()), old(table.views)[k].future.value.at) else old(vmPool.View())
    {
      var result := table.Collect(k, done, run);
      if result.Some? {
        PutOwned(result.value.0);
        found := Some(result.value.1);
      } else {
        found := None;
      }
    }

    method PutOwned(at: Placed)
      requires Owns() && at.slot < |vmPool.runtimes|
      requires SlotsDistinct(vmPool.placed) ==> vmPool.runtimes[at.slot].None?
      modifies vmPool
      ensures Owns() && vmPool.View() == old(Put(vmPool.View(), at))
    {
      vmPool.PutVm(at);
    }

    method ReapOwned(now: U64)
      requires Owns()
      modifies vmPool, table
      ensures Owns() && table.repr == old(table.repr)
      ensures View() == old(Reap(View(), now))
    {
      if AnyFree(vmPool.View()) { BorrowedSlotIsEmpty(vmPool.View()); }
      var vm := vmPool.GetVm();
      if vm.Some? {
        table.Retain(now);
        PutOwned(vm.value);
      }
    }

    /** Hands a VM to an actor, and back to the pool when the actor declines it. */
    method Hand(k: Key, at: Placed, done: seq<Completion>)
      requires Owns() && k in table.views && ResultsMatchStats(table.views[k].functions)
      requires EmptySlot(vmPool.View(), at)
      modifies vmPool, table.repr
      ensures Owns() && table.repr == old(table.repr)
      ensures table.views == old(table.views)[k := Offered(old(table.views)[k], at, done)]
      ensures vmPool.View() ==
        if Accepts(old(table.views)[k], done) then old(vmPool.View()) else Put(old(vmPool.View()), at)
    {
      var result := table.Launch(k, at, done);
      if result.Returned? {
        PutOwned(result.at);
      }
    }

    method OfferOwned(k: Key, done: seq<Completion>) returns (had: bool)
      requires Owns() && k in table.views && ResultsMatchStats(table.views[k].functions)
      modifies vmPool, table.repr
      ensures Owns() && table.repr == old(table.repr)
      ensures had == old(AnyFree(vmPool.View()))
      ensures View() == old(OfferTo(View(), k, done))
    {
      if AnyFree(vmPool.View()) { BorrowedSlotIsEmpty(vmPool.View()); }
      var vm := vmPool.GetVm();
      had := vm.Some?;
      if had {
        Hand(k, vm.value, done);
      }
    }

    // ------------------------------------------------------------ the phases, over all actors

    /** Splits next peers into scopes of this node and others, keeping their order. */
    method Partition(peers: seq<PeerId>, isScope: PeerId -> bool) returns (local: seq<PeerId>, remote: seq<PeerId>)
      ensures local == Matching(peers, isScope)
      ensures remote == Matching(peers, (p: PeerId) => !isScope(p))
    {
      local, remote := [], [];
      ghost var other := (p: PeerId) => !isScope(p);
      for i := 0 to |peers|
        invariant local == Matching(peers[..i], isScope)
        invariant remote == Matching(peers[..i], other)
      {
        assert peers[..i + 1][..i] == peers[..i];
        if isScope(peers[i]) {
          local := local + [peers[i]];
        } else {
          remote := remote + [peers[i]];
        }
      }
      assert peers[..|peers|] == peers;
    }

    method Split(e: RoutingEffects, isScope: PeerId -> bool, local: seq<RoutingEffects>, remote: seq<RoutingEffects>,
                 ghost effects: seq<RoutingEffects>)
      returns (moreLocal: seq<RoutingEffects>, moreRemote: seq<RoutingEffects>)
      requires SplitInto(effects, isScope, local, remote)
      ensures SplitInto(effects + [e], isScope, moreLocal, moreRemote)
    {
      assert (effects + [e])[..|effects|] == effects;
      var here, there := Partition(e.nextPeers, isScope);
      moreRemote := if there == [] then remote else remote + [RoutingEffects(e.particle, there)];
      moreLocal := if here == [] then local else local + [RoutingEffects(e.particle, here)];
    }

    method GatherStep(i: nat, t: Turn, local: seq<RoutingEffects>, remote: seq<RoutingEffects>,
                      ghost start: PlumberState)
      returns (moreLocal: seq<RoutingEffects>, moreRemote: seq<RoutingEffects>)
      requires Owns() && i < |t.visit| && CanGather(View(), t.visit[i])
      requires var g := Gather(start, t.visit[..i], t);
               View() == g.state && SplitInto(g.effects, t.isScope, local, remote)
      modifies vmPool, table.repr
      ensures Owns() && table.repr == old(table.repr)
      ensures var g := Gather(start, t.visit[..i + 1], t);
              View() == g.state && SplitInto(g.effects, t.isScope, moreLocal, moreRemote)
    {
      assert t.visit[..i + 1][..i] == t.visit[..i];
      var k := t.visit[i];
      var found := GatherOwned(k, t.done(k), t.runs(k));
      if found.Some? {
        moreLocal, moreRemote := Split(found.value, t.isScope, local, remote, Gather(start, t.visit[..i], t).effects);
      } else {
        moreLocal, moreRemote := local, remote;
      }
    }

    /** Gathers finished interpretations and puts their VMs back. */
    method GatherAll(t: Turn) returns (local: seq<RoutingEffects>, remote: seq<RoutingEffects>)
      requires Owns() && GatherReady(View(), t)
      modifies vmPool, table.repr
      ensures Owns() && table.repr == old(table.repr)
      ensures var g := Gather(old(View()), t.visit, t);
              View() == g.state && SplitInto(g.effects, t.isScope, local, remote)
    {
      ghost var start := View();
      local, remote := [], [];
      for i := 0 to |t.visit|
        invariant Owns() && table.repr == old(table.repr)
        invariant View() == Gather(start, t.visit[..i], t).state
        invariant SplitInto(Gather(start, t.visit[..i], t).effects, t.isScope, local, remote)
      {
        local, remote := GatherStep(i, t, local, remote, start);
      }
      assert t.visit[..|t.visit|] == t.visit;
    }

    method OfferStep(i: nat, t: Turn, ghost start: PlumberState) returns (had: bool)
      requires Owns() && i < |t.offer| && View() == Offer(start, t.offer[..i], t) && CanOffer(View(), t.offer[i])
      modifies vmPool, table.repr
      ensures Owns() && table.repr == old(table.repr)
      ensures had ==> View() == Offer(start, t.offer[..i + 1], t)
      ensures !had ==> View() == Offer(start, t.offer, t)
    {
      assert t.offer[..i + 1][..i] == t.offer[..i];
      had := OfferOwned(t.offer[i], t.doneLater(t.offer[i]));
      if !had {
        OfferStuck(start, t.offer, t, i);
      }
    }

    /** Offers VMs to the actors until no VM is left. */
    method OfferAll(t: Turn)
      requires Owns() && OfferReady(View(), t)
      modifies vmPool, table.repr
      ensures Owns() && table.repr == old(table.repr)
      ensures View() == Offer(old(View()), t.offer, t)
    {
      ghost var start := View();
      for i := 0 to |t.offer|
        invariant Owns() && table.repr == old(table.repr)
        invariant View() == Offer(start, t.offer[..i], t)
      {
        var had := OfferStep(i, t, start);
        if !had {
          return;
        }
      }
      assert t.offer[..|t.offer|] == t.offer;
    }

    method DeliverHop(p: Particle, peer: PeerId, n: nat, clock: nat -> U64,
                      ghost start: PlumberState, ghost done: seq<Hop>)
      requires Owns() && n == |done| && View() == Deliver(start, done, clock)
      modifies this, table.repr
      ensures Owns() && fresh(table.repr - old(table.repr)) && old(table.repr) <= table.repr
      ensures View() == Deliver(start, done + [Hop(p, peer)], clock)
    {
      assert (done + [Hop(p, peer)])[..n] == done;
      IngestOwned(p, false, peer, clock(n));
    }

    /** Ingests the local next peers of one effect; `n` counts the clock readings. */
    method DeliverOne(e: RoutingEffects, n: nat, clock: nat -> U64, ghost start: PlumberState, ghost done: seq<Hop>)
      requires Owns() && n == |done| && View() == Deliver(start, done, clock)
      modifies this, table.repr
      ensures Owns() && fresh(table.repr - old(table.repr)) && old(table.repr) <= table.repr
      ensures View() == Deliver(start, done + HopsOf(e), clock)
    {
      ghost var own, hops := HopsOf(e), done;
      for j := 0 to |e.nextPeers|
        invariant Owns() && fresh(table.repr - old(table.repr)) && old(table.repr) <= table.repr
        invariant hops == done + own[..j]
        invariant View() == Deliver(start, hops, clock)
      {
        DeliverHop(e.particle, e.nextPeers[j], n + j, clock, start, hops);
        hops := hops + [own[j]];
      }
      assert own[..|own|] == own;
    }

    /** Ingests every local next peer of every local effect. */
    method DeliverAll(effects: seq<RoutingEffects>, clock: nat -> U64)
      requires Owns()
      modifies this, table.repr
      ensures Owns() && fresh(table.repr - old(table.repr)) && old(table.repr) <= table.repr
      ensures View() == Deliver(old(View()), Hops(effects), clock)
    {
      ghost var start := View();
      var n: nat := 0;
      for i := 0 to |effects|
        invariant Owns() && fresh(table.repr - old(table.repr)) && old(table.repr) <= table.repr
        invariant n == |Hops(effects[..i])|
        invariant View() == Deliver(start, Hops(effects[..i]), clock)
      {
        assert effects[..i + 1][..i] == effects[..i];
        DeliverOne(effects[i], n, clock, start, Hops(effects[..i]));
        n := n + |effects[i].nextPeers|;
      }
      assert effects[..|effects|] == effects;
    }

    method Work(t: Turn)
      requires Owns() && WorkReady(View(), t)
      modifies this, vmPool, table.repr
      ensures Owns() && fresh(table.repr - old(table.repr)) && old(table.repr) <= table.repr
      ensures View() == Worked(old(View()), t)
    {
      var local, remote := GatherAll(t);
      ReapOwned(t.now);
      OfferAll(t);
      DeliverAll(local, t.clock);
      Push(AsEvents(remote));
    }

    // ------------------------------------------------------------ the public operations

    /** Receives a particle: one expiry event, or one more entry in one mailbox. */
    method Ingest(p: Particle, setFunction: bool, peer: PeerId, now: U64)
      requires Valid()
      modifies this, table.repr
      ensures Valid() && fresh(table.repr - old(table.repr)) && old(table.repr) <= table.repr
      ensures View() == old(Plumbing.Ingest(View(), p, setFunction, peer, now))
    {
      IngestKeeps(View(), p, setFunction, peer, now);
      IngestOwned(p, setFunction, peer, now);
    }

    method PopEvent() returns (event: Option<Event>)
      requires Owns()
      modifies this`events
      ensures Owns()
      ensures (View(), event) == old(Popped(View()))
    {
      if events == [] {
        event := None;
      } else {
        event := Some(events[0]);
        events := events[1..];
      }
    }

    method Poll(t: Turn) returns (event: Option<Event>)
      requires Valid() && Fits(View(), t)
      modifies this, vmPool, table.repr
      ensures Valid() && fresh(table.repr - old(table.repr)) && old(table.repr) <= table.repr
      ensures (View(), event) == old(Plumbing.Poll(View(), t))
    {
      PollKeeps(View(), t);
      PollReady(View(), t);
      event := PollOwned(t);
    }

    method RefillOwned(t: Turn)
      requires Owns() && CreationOk(vmPool.View())
      modifies vmPool
      ensures Owns()
      ensures View() == old(Refilled(View(), t))
    {
      vmPool.Poll(t.ready);
    }

    /** Works unless events are waiting, and hands out the oldest event. */
    method FinishOwned(t: Turn) returns (event: Option<Event>)
      requires Owns() && (!EarlyReturn(View()) ==> WorkReady(View(), t))
      modifies this, vmPool, table.repr
      ensures Owns() && fresh(table.repr - old(table.repr)) && old(table.repr) <= table.repr
      ensures (View(), event) == Popped(if old(EarlyReturn(View())) then old(View()) else Worked(old(View()), t))
    {
      if events == [] {
        Work(t);
      }
      event := PopEvent();
    }

    method PollOwned(t: Turn) returns (event: Option<Event>)
      requires Owns() && CreationOk(vmPool.View())
      requires !EarlyReturn(View()) ==> WorkReady(Refilled(View(), t), t)
      modifies this, vmPool, table.repr
      ensures Owns() && fresh(table.repr - old(table.repr)) && old(table.repr) <= table.repr
      ensures (View(), event) == old(Plumbing.Poll(View(), t))
    {
      TurnedIsWorked(View(), t);
      RefillOwned(t);
      event := FinishOwned(t);
    }
  }

  // -------------------------------------------------------------- what each phase relies on

  /** The effects, divided by whether their targets are scopes of this node. */
  ghost predicate SplitInto(effects: seq<RoutingEffects>, isScope: PeerId -> bool,
                            local: seq<RoutingEffects>, remote: seq<RoutingEffects>) {
    local == Towards(effects, isScope) && remote == Towards(effects, (p: PeerId) => !isScope(p))
  }

  ghost predicate CanGather(s: PlumberState, k: Key) {
    && k in s.actors
    && (s.actors[k].future.Some? ==>
          var at := s.actors[k].future.value.at;
          at.slot < |s.pool.slots| && (SlotsDistinct(s.pool.placed) ==> EmptySlot(s.pool, at)))
  }

  ghost predicate CanOffer(s: PlumberState, k: Key) {
    k in s.actors && ResultsMatchStats(s.actors[k].functions)
  }

  ghost predicate GatherReady(s: PlumberState, t: Turn) {
    forall i :: 0 <= i < |t.visit| ==> CanGather(Gather(s, t.visit[..i], t).state, t.visit[i])
  }

  ghost predicate OfferReady(s: PlumberState, t: Turn) {
    forall i :: 0 <= i < |t.offer| ==> CanOffer(Offer(s, t.offer[..i], t), t.offer[i])
  }

  ghost predicate WorkReady(s: PlumberState, t: Turn) {
    GatherReady(s, t) && OfferReady(Reap(Gather(s, t.visit, t).state, t.now), t)
  }

  /** Everything a poll does between refilling the pool and handing out an event. */
  ghost function Worked(s: PlumberState, t: Turn): PlumberState {
    var g := Gather(s, t.visit, t);
    var d := Deliver(Offer(Reap(g.state, t.now), t.offer, t), Hops(Towards(g.effects, t.isScope)), t.clock);
    d.(events := d.events + AsEvents(Towards(g.effects, (p: PeerId) => !t.isScope(p))))
  }

  lemma TurnedIsWorked(s: PlumberState, t: Turn)
    ensures Turned(s, t) == if EarlyReturn(s) then Refilled(s, t) else Worked(Refilled(s, t), t)
  {
  }

  lemma InvGatherReady(s: PlumberState, t: Turn)
    requires Inv(s) && forall k :: k in t.visit ==> k in s.actors
    ensures GatherReady(s, t)
  {
    forall i | 0 <= i < |t.visit| ensures CanGather(Gather(s, t.visit[..i], t).state, t.visit[i]) {
      GatherKeeps(s, t.visit[..i], t);
      var g := Gather(s, t.visit[..i], t).state;
      if g.actors[t.visit[i]].future.Some? { BusySlotIsEmpty(g, t.visit[i]); }
    }
  }

  lemma InvOfferReady(s: PlumberState, t: Turn)
    requires Inv(s) && forall k :: k in t.offer ==> k in s.actors
    ensures OfferReady(s, t)
  {
    forall i | 0 <= i < |t.offer| ensures CanOffer(Offer(s, t.offer[..i], t), t.offer[i]) {
      OfferKeeps(s, t.offer[..i], t);
      MatchAt(Offer(s, t.offer[..i], t), t.offer[i]);
    }
  }

  lemma PollReady(s: PlumberState, t: Turn)
    requires Inv(s) && Fits(s, t)
    ensures CreationOk(s.pool)
    ensures !EarlyReturn(s) ==> WorkReady(Refilled(s, t), t)
  {
    ScheduledKeeps(s, t);
    if !EarlyReturn(s) {
      var g := Gather(Refilled(s, t), t.visit, t).state;
      InvGatherReady(Refilled(s, t), t);
      GatherKeeps(Refilled(s, t), t.visit, t);
      ReapKeeps(g, t.now);
      InvOfferReady(Reap(g, t.now), t);
    }
  }

  /** Once no VM is free, the rest of the offers change nothing. */
  lemma {:induction false} OfferStuck(s: PlumberState, order: seq<Key>, t: Turn, i: nat)
    requires i <= |order| && !AnyFree(Offer(s, order[..i], t).pool)
    ensures Offer(s, order, t) == Offer(s, order[..i], t)
  {
    if i < |order| {
      var init := order[..|order| - 1];
      assert init[..i] == order[..i];
      OfferStuck(s, init, t, i);
    } else {
      assert order[..i] == order;
    }
  }

  lemma MatchAt(s: PlumberState, k: Key)
    requires Inv(s) && k in s.actors
    ensures ResultsMatchStats(s.actors[k].functions)
  {
    assert EntryOk(s.actors[k], s.arrivals, k);
  }
}
