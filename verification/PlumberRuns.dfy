/** What every run of the scheduler keeps. */
module PlumbingRuns {
  import opened Base
  import opened Particles
  import opened VmPools
  import opened VmTracking
  import opened FunctionLedgers
  import opened Actors
  import opened Plumbing

  // ---------------------------------------------------------------- invariant

  ghost function Busy(actors: map<Key, ActorState>): map<Key, Placed> {
    map k | k in actors && actors[k].future.Some? :: actors[k].future.value.at
  }

  /** The accepted particles of one actor, in order of arrival. */
  function For(arrivals: seq<Arrival>, k: Key): seq<Particle> {
    if arrivals == [] then []
    else
      var init, last := arrivals[..|arrivals| - 1], arrivals[|arrivals| - 1];
      For(init, k) + (if last.key == k then [last.particle] else [])
  }

  /** Particles taken for execution followed by the mailbox are the particles
      accepted for the actor since it was created, in order. */
  ghost predicate InOrder(a: ActorState, arrivals: seq<Arrival>, k: Key) {
    a.born <= |arrivals| && Accepted(a) == For(arrivals[a.born..], k)
  }

  ghost predicate EntryOk(a: ActorState, arrivals: seq<Arrival>, k: Key) {
    ActorOk(a, k.particle, k.peer) && InOrder(a, arrivals, k) && Memoized(a)
  }

  ghost predicate ActorsOk(s: PlumberState) {
    forall k :: k in s.actors ==> EntryOk(s.actors[k], s.arrivals, k)
  }

  ghost predicate Inv(s: PlumberState) {
    Tracked(s.pool, Busy(s.actors)) && ActorsOk(s)
  }

  lemma {:induction false} ForAppend(arrivals: seq<Arrival>, born: nat, x: Arrival, k: Key)
    requires born <= |arrivals|
    ensures For((arrivals + [x])[born..], k) == For(arrivals[born..], k) + (if x.key == k then [x.particle] else [])
  {
    var more := (arrivals + [x])[born..];
    assert more == arrivals[born..] + [x];
    assert more[..|more| - 1] == arrivals[born..];
  }

  // ---------------------------------------------------------------- single steps

  lemma UpdateActor(s: PlumberState, k: Key, a: ActorState)
    requires ActorsOk(s) && EntryOk(a, s.arrivals, k)
    ensures ActorsOk(s.(actors := s.actors[k := a]))
  {
  }

  lemma IngestEntry(s: PlumberState, p: Particle, f: bool, peer: PeerId)
    requires ActorsOk(s)
    ensures var key := Key(p.id, peer);
            EntryOk(Receive(ActorFor(s, p, peer), p, f), s.arrivals + [Arrival(key, p)], key)
  {
    var key, a := Key(p.id, peer), ActorFor(s, p, peer);
    NewActorOk(p, peer, |s.arrivals|);
    if key in s.actors { assert EntryOk(a, s.arrivals, key); } else { assert a == NewActor(p, a.peer, |s.arrivals|); }
    ReceiveKeeps(a, p, f);
    ReceivedMemoized(a, p, f);
    ForAppend(s.arrivals, a.born, Arrival(key, p), key);
  }

  lemma OtherEntry(a: ActorState, arrivals: seq<Arrival>, k: Key, x: Arrival)
    requires EntryOk(a, arrivals, k) && x.key != k
    ensures EntryOk(a, arrivals + [x], k)
  {
    ForAppend(arrivals, a.born, x, k);
  }

  lemma IngestActors(s: PlumberState, p: Particle, f: bool, peer: PeerId, now: U64)
    requires ActorsOk(s)
    ensures ActorsOk(Ingest(s, p, f, peer, now))
  {
    if !DeadlineOf(p).IsExpired(now) {
      var n, x := Ingest(s, p, f, peer, now), Arrival(Key(p.id, peer), p);
      IngestEntry(s, p, f, peer);
      forall k | k in n.actors ensures EntryOk(n.actors[k], n.arrivals, k) {
        if k != x.key { OtherEntry(s.actors[k], s.arrivals, k, x); }
      }
    }
  }

  /** Storing an actor changes who holds a VM only as far as that actor does. */
  lemma BusyUpdate(actors: map<Key, ActorState>, k: Key, a: ActorState)
    ensures Busy(actors[k := a]) == if a.future.Some? then Busy(actors)[k := a.future.value.at] else Busy(actors) - {k}
    ensures (if k in actors then actors[k].future == a.future else a.future.None?) ==>
              Busy(actors[k := a]) == Busy(actors)
  {
  }

  lemma IngestKeeps(s: PlumberState, p: Particle, f: bool, peer: PeerId, now: U64)
    requires Inv(s)
    ensures Inv(Ingest(s, p, f, peer, now))
  {
    IngestActors(s, p, f, peer, now);
    BusyUpdate(s.actors, Key(p.id, peer), Receive(ActorFor(s, p, peer), p, f));
  }

  lemma GatherOneActors(g: Gathered, k: Key, t: Turn)
    requires ActorsOk(g.state)
    ensures ActorsOk(GatherOne(g, k, t).state)
  {
    var s := g.state;
    if k in s.actors {
      var a := s.actors[k];
      var b := Polled(a, t.done(k), t.runs(k));
      PolledKeeps(a, t.done(k), t.runs(k), k.particle, k.peer);
      PolledMemoized(a, t.done(k), t.runs(k));
      UpdateActor(s, k, b);
      assert GatherOne(g, k, t).state.actors == s.actors[k := b];
    }
  }

  lemma GatherOneVms(g: Gathered, k: Key, t: Turn)
    requires Tracked(g.state.pool, Busy(g.state.actors))
    ensures Tracked(GatherOne(g, k, t).state.pool, Busy(GatherOne(g, k, t).state.actors))
  {
    var s := g.state;
    if k in s.actors {
      BusyUpdate(s.actors, k, Polled(s.actors[k], t.done(k), t.runs(k)));
      if Completes(s.actors[k], t.runs(k)) { TrackReturn(s.pool, Busy(s.actors), k); }
    }
  }

  lemma GatherOneKeeps(g: Gathered, k: Key, t: Turn)
    requires Inv(g.state)
    ensures Inv(GatherOne(g, k, t).state)
    ensures GatherOne(g, k, t).state.actors.Keys == g.state.actors.Keys
  {
    GatherOneActors(g, k, t);
    GatherOneVms(g, k, t);
  }

  lemma {:induction false} GatherKeeps(s: PlumberState, order: seq<Key>, t: Turn)
    requires Inv(s)
    ensures Inv(Gather(s, order, t).state)
    ensures Gather(s, order, t).state.actors.Keys == s.actors.Keys
  {
    if order != [] {
      GatherKeeps(s, order[..|order| - 1], t);
      GatherOneKeeps(Gather(s, order[..|order| - 1], t), order[|order| - 1], t);
    }
  }

  lemma ReapBusy(s: PlumberState, now: U64)
    ensures Busy(Reap(s, now).actors) == Busy(s.actors)
  {
  }

  /** Reaping removes exactly the expired actors that are not executing, and
      only when there is a VM to clean up with; all others are untouched. */
  lemma ReapIs(s: PlumberState, now: U64)
    ensures forall k :: k in s.actors ==>
              (k !in Reap(s, now).actors <==>
                 AnyFree(s.pool) && s.actors[k].deadline.IsExpired(now) && !Executing(s.actors[k]))
    ensures forall k :: k in Reap(s, now).actors ==> k in s.actors && Reap(s, now).actors[k] == s.actors[k]
    ensures Reap(s, now).pool == s.pool && Reap(s, now).arrivals == s.arrivals
  {
  }

  lemma ReapKeeps(s: PlumberState, now: U64)
    requires Inv(s)
    ensures Inv(Reap(s, now))
    ensures Reap(s, now).actors.Keys <= s.actors.Keys
  {
    ReapBusy(s, now);
    ReapIs(s, now);
  }

  lemma OfferOneActors(s: PlumberState, k: Key, t: Turn)
    requires ActorsOk(s)
    ensures ActorsOk(OfferOne(s, k, t))
  {
    if AnyFree(s.pool) && k in s.actors {
      var a, at, done := s.actors[k], Next(s.pool), t.doneLater(k);
      OfferedKeeps(a, at, done, k.particle, k.peer);
      OfferedKeepsOrder(a, at, done);
      OfferedMemoized(a, at, done);
      UpdateActor(s, k, Offered(a, at, done));
      assert OfferOne(s, k, t).actors == s.actors[k := Offered(a, at, done)];
    }
  }

  lemma OfferOneVms(s: PlumberState, k: Key, t: Turn)
    requires Tracked(s.pool, Busy(s.actors))
    ensures Tracked(OfferOne(s, k, t).pool, Busy(OfferOne(s, k, t).actors))
  {
    if AnyFree(s.pool) && k in s.actors {
      BusyUpdate(s.actors, k, Offered(s.actors[k], Next(s.pool), t.doneLater(k)));
      if Accepts(s.actors[k], t.doneLater(k)) { TrackTake(s.pool, Busy(s.actors), k); }
    }
  }

  lemma OfferOneKeeps(s: PlumberState, k: Key, t: Turn)
    requires Inv(s)
    ensures Inv(OfferOne(s, k, t))
    ensures OfferOne(s, k, t).actors.Keys == s.actors.Keys
  {
    OfferOneActors(s, k, t);
    OfferOneVms(s, k, t);
  }

  lemma {:induction false} OfferKeeps(s: PlumberState, order: seq<Key>, t: Turn)
    requires Inv(s)
    ensures Inv(Offer(s, order, t))
    ensures Offer(s, order, t).actors.Keys == s.actors.Keys
  {
    if order != [] {
      OfferKeeps(s, order[..|order| - 1], t);
      OfferOneKeeps(Offer(s, order[..|order| - 1], t), order[|order| - 1], t);
    }
  }

  lemma {:induction false} DeliverKeeps(s: PlumberState, hops: seq<Hop>, clock: nat -> U64)
    requires Inv(s)
    ensures Inv(Deliver(s, hops, clock))
  {
    if hops != [] {
      var n := |hops| - 1;
      DeliverKeeps(s, hops[..n], clock);
      IngestKeeps(Deliver(s, hops[..n], clock), hops[n].particle, false, hops[n].peer, clock(n));
    }
  }

  lemma ScheduledKeeps(s: PlumberState, t: Turn)
    requires Inv(s)
    ensures Inv(Refilled(s, t)) && Inv(Scheduled(s, t))
  {
    TrackPoll(s.pool, Busy(s.actors), t.ready);
    var g := Gather(Refilled(s, t), t.visit, t).state;
    GatherKeeps(Refilled(s, t), t.visit, t);
    ReapKeeps(g, t.now);
    OfferKeeps(Reap(g, t.now), t.offer, t);
  }

  /** Events do not matter to the invariant. */
  lemma SameButEvents(s: PlumberState, events: seq<Event>)
    requires Inv(s)
    ensures Inv(s.(events := events))
  {
  }

  lemma TurnedKeeps(s: PlumberState, t: Turn)
    requires Inv(s)
    ensures Inv(Turned(s, t))
  {
    ScheduledKeeps(s, t);
    if s.events == [] {
      var d := Deliver(Scheduled(s, t), LocalHops(s, t), t.clock);
      DeliverKeeps(Scheduled(s, t), LocalHops(s, t), t.clock);
      SameButEvents(d, d.events + AsEvents(RemoteEffects(s, t)));
    }
  }

  lemma PollKeeps(s: PlumberState, t: Turn)
    requires Inv(s)
    ensures Inv(Poll(s, t).0)
  {
    TurnedKeeps(s, t);
    SameButEvents(Turned(s, t), Poll(s, t).0.events);
  }

  lemma {:induction false} RunKeeps(poolSize: nat, steps: seq<Step>)
    ensures Inv(Run(NewPlumber(poolSize), steps))
    ensures Run(NewPlumber(poolSize), steps).pool.size == poolSize
  {
    if steps == [] {
      assert Busy(NewPlumber(poolSize).actors) == map[];
      NewPoolTracked<Key>(poolSize);
    } else {
      var init, last := steps[..|steps| - 1], steps[|steps| - 1];
      RunKeeps(poolSize, init);
      var s := Run(NewPlumber(poolSize), init);
      match last
      case Arrive(p, f, peer, now) => IngestKeeps(s, p, f, peer, now);
      case Tick(t) => PollKeeps(s, t); PollKeepsSize(s, t);
    }
  }

  // ---------------------------------------------------------------- pool size

  lemma {:induction false} FillKeepsSize(p: PoolState, i: nat, ready: Vm -> Creation)
    requires p.creating.Some?
    ensures Fill(p, i, ready).size == p.size
    decreases |p.creating.value| - i
  {
    var c := p.creating.value;
    if i >= |c| {
    } else if ready(c[i]).Pending? {
      FillKeepsSize(p, i + 1, ready);
    } else {
      FillKeepsSize(Complete(p, i, ready(c[i]).Created?), i + 1, ready);
    }
  }

  /** Only the fill loop creates VMs: the rest of a poll keeps size and history. */
  ghost predicate SamePool(s: PlumberState, n: PlumberState) {
    n.pool.size == s.pool.size && n.pool.placed == s.pool.placed
  }

  lemma {:induction false} GatherKeepsPool(s: PlumberState, order: seq<Key>, t: Turn)
    ensures SamePool(s, Gather(s, order, t).state)
  {
    if order != [] { GatherKeepsPool(s, order[..|order| - 1], t); }
  }

  lemma {:induction false} OfferKeepsPool(s: PlumberState, order: seq<Key>, t: Turn)
    ensures SamePool(s, Offer(s, order, t))
  {
    if order != [] { OfferKeepsPool(s, order[..|order| - 1], t); }
  }

  lemma {:induction false} DeliverKeepsPool(s: PlumberState, hops: seq<Hop>, clock: nat -> U64)
    ensures Deliver(s, hops, clock).pool == s.pool
  {
    if hops != [] { DeliverKeepsPool(s, hops[..|hops| - 1], clock); }
  }

  lemma PollKeepsSize(s: PlumberState, t: Turn)
    ensures Poll(s, t).0.pool.size == s.pool.size
    ensures Poll(s, t).0.pool.placed == PollPool(s.pool, t.ready).placed
  {
    FillKeepsSize(Begin(s.pool), 0, t.ready);
    var r := Refilled(s, t);
    var g := Gather(r, t.visit, t).state;
    GatherKeepsPool(r, t.visit, t);
    OfferKeepsPool(Reap(g, t.now), t.offer, t);
    DeliverKeepsPool(Scheduled(s, t), LocalHops(s, t), t.clock);
  }

  // ---------------------------------------------------------------- main theorems

  /** VM exclusivity. In every state of every run at most `poolSize` VMs were
      created and no more are live than were created, and every slot index in
      play is in bounds. Each created VM has exactly one place, its own slot or
      one executing actor, if and only if no creation was written over a used
      slot; then the number of live VMs is the number of created ones. A pool
      of one VM never has a conflict. */
  lemma VmExclusivity(poolSize: nat, steps: seq<Step>)
    ensures var s := Run(NewPlumber(poolSize), steps);
            var busy := Busy(s.actors);
            && Live(s.pool, busy) <= |s.pool.placed| <= poolSize
            && |s.pool.slots| == poolSize
            && (forall k :: k in busy ==> busy[k].slot < poolSize)
            && (OnePlaceEach(s.pool, busy) <==> SlotsDistinct(s.pool.placed))
            && (SlotsDistinct(s.pool.placed) ==> Live(s.pool, busy) == |s.pool.placed|)
            && (poolSize <= 1 ==> SlotsDistinct(s.pool.placed))
  {
    RunKeeps(poolSize, steps);
    var s := Run(NewPlumber(poolSize), steps);
    var busy := Busy(s.actors);
    LiveBound(s.pool, busy);
    ExclusiveIffNoConflict(s.pool, busy);
    if SlotsDistinct(s.pool.placed) { LiveConstant(s.pool, busy); }
  }

  /** A run in which all creations succeeded is free of conflicts if and only if
      the creations finished in descending order of their position. */
  lemma ExclusiveIffDescending(poolSize: nat, steps: seq<Step>)
    requires Run(NewPlumber(poolSize), steps).pool.creating.Some?
    requires |Run(NewPlumber(poolSize), steps).pool.placed| == poolSize
    ensures var s := Run(NewPlumber(poolSize), steps);
            OnePlaceEach(s.pool, Busy(s.actors)) <==> Descending(s.pool.placed)
  {
    RunKeeps(poolSize, steps);
    var s := Run(NewPlumber(poolSize), steps);
    ExclusiveIffNoConflict(s.pool, Busy(s.actors));
    NoConflictIffDescending(s.pool);
  }

  /** Once creation is over no step creates a VM, and if creation wrote no slot
      twice none loses one: the number of live VMs stays as it is. */
  lemma LiveStaysConstant(poolSize: nat, before: seq<Step>, step: Step)
    requires Run(NewPlumber(poolSize), before).pool.creating == Some([])
    ensures var s := Run(NewPlumber(poolSize), before);
            var n := Run(NewPlumber(poolSize), before + [step]);
            && n.pool.placed == s.pool.placed
            && (SlotsDistinct(s.pool.placed) ==>
                  Live(n.pool, Busy(n.actors)) == Live(s.pool, Busy(s.actors)) == |s.pool.placed|)
  {
    var s := Run(NewPlumber(poolSize), before);
    var all := before + [step];
    assert all[..|all| - 1] == before;
    var n := Run(NewPlumber(poolSize), all);
    RunKeeps(poolSize, before);
    RunKeeps(poolSize, all);
    if step.Tick? {
      PollKeepsSize(s, step.turn);
      assert PollPool(s.pool, step.turn.ready).placed == s.pool.placed;
    }
    if SlotsDistinct(s.pool.placed) {
      LiveConstant(s.pool, Busy(s.actors));
      LiveConstant(n.pool, Busy(n.actors));
    }
  }

  /** Putting back. In every poll of every run in which creation has written no
      slot twice, the VM of a completed interpretation finds its slot in bounds and
      empty, whatever actors were visited before. */
  lemma PutsFindEmptySlots(poolSize: nat, steps: seq<Step>, t: Turn, i: nat)
    requires SlotsDistinct(PollPool(Run(NewPlumber(poolSize), steps).pool, t.ready).placed) && i < |t.visit|
    ensures var g := Gather(Refilled(Run(NewPlumber(poolSize), steps), t), t.visit[..i], t).state;
            var k := t.visit[i];
            k in g.actors && Completes(g.actors[k], t.runs(k)) ==> EmptySlot(g.pool, g.actors[k].future.value.at)
  {
    var s := Run(NewPlumber(poolSize), steps);
    RunKeeps(poolSize, steps);
    ScheduledKeeps(s, t);
    GatherKeeps(Refilled(s, t), t.visit[..i], t);
    GatherKeepsPool(Refilled(s, t), t.visit[..i], t);
    var g := Gather(Refilled(s, t), t.visit[..i], t).state;
    if t.visit[i] in g.actors && g.actors[t.visit[i]].future.Some? { BusySlotIsEmpty(g, t.visit[i]); }
  }

  /** A VM borrowed from any pool and put back at once, for the clean-up or because
      an actor declines it, finds its slot empty and leaves the pool as it was. */
  lemma BorrowedSlotIsEmpty(p: PoolState)
    requires AnyFree(p)
    ensures EmptySlot(Take(p), Next(p)) && Put(Take(p), Next(p)) == p
  {
  }

  predicate EmptySlot(p: PoolState, at: Placed) {
    at.slot < |p.slots| && p.slots[at.slot].None?
  }

  /** The slot of a VM in use is in bounds, and empty unless some slot was written twice. */
  lemma BusySlotIsEmpty(s: PlumberState, k: Key)
    requires Inv(s) && k in s.actors && s.actors[k].future.Some?
    ensures s.actors[k].future.value.at.slot < |s.pool.slots|
    ensures SlotsDistinct(s.pool.placed) ==> EmptySlot(s.pool, s.actors[k].future.value.at)
  {
    TrackReturn(s.pool, Busy(s.actors), k);
    if SlotsDistinct(s.pool.placed) {
      Exclusive(s.pool, Busy(s.actors));
      assert !FreeAt(s.pool, Busy(s.actors)[k].slot);
    }
  }

  /** Particle order. In every state of every run, the particles an actor took
      for execution followed by its mailbox are exactly the particles accepted
      for it since its creation, in order of arrival, all with its particle id. */
  lemma ParticlesInOrder(poolSize: nat, steps: seq<Step>, k: Key)
    requires k in Run(NewPlumber(poolSize), steps).actors
    ensures var s := Run(NewPlumber(poolSize), steps);
            var a := s.actors[k];
            && a.born <= |s.arrivals|
            && Taken(a.launches) + a.mailbox == For(s.arrivals[a.born..], k)
            && Carries(a, k.particle)
  {
    RunKeeps(poolSize, steps);
  }

  /** Host calls. In every state of every run, for an actor whose call ids are
      fresh, every requested id is in exactly one place (see `CallsOnce`), and the
      running interpretation has the call results of the last launch; for any ids,
      results are stored exactly when statistics are. */
  lemma CallsExactlyOnce(poolSize: nat, steps: seq<Step>, k: Key)
    requires k in Run(NewPlumber(poolSize), steps).actors
    ensures var a := Run(NewPlumber(poolSize), steps).actors[k];
            && (Distinct(a.requested) ==> CallsOnce(a))
            && (a.future.Some? ==> a.launches != [] && a.launches[|a.launches| - 1].calls == a.future.value.calls)
            && ResultsMatchStats(a.functions)
  {
    RunKeeps(poolSize, steps);
    InvCalls(Run(NewPlumber(poolSize), steps), k);
  }

  lemma InvCalls(s: PlumberState, k: Key)
    requires Inv(s) && k in s.actors
    ensures ActorOk(s.actors[k], k.particle, k.peer) && Memoized(s.actors[k])
  {
    assert EntryOk(s.actors[k], s.arrivals, k);
  }

  /** What is interpreted. In every state of every run, a running interpretation has
      the particle of the last launch; a launch without a particle from the mailbox
      has the particle that created the actor, without its data; and the actor
      expires with that particle. */
  lemma InterpretsItsParticles(poolSize: nat, steps: seq<Step>, k: Key)
    requires k in Run(NewPlumber(poolSize), steps).actors
    ensures var a := Run(NewPlumber(poolSize), steps).actors[k];
            && Accepted(a) != []
            && a.deadline == DeadlineOf(Accepted(a)[0])
            && (forall l :: l in a.launches && !l.fromMailbox ==> l.particle == Accepted(a)[0].(data := ""))
            && (a.future.Some? ==>
                  a.launches != [] && a.launches[|a.launches| - 1].particle == a.future.value.particle)
  {
    RunKeeps(poolSize, steps);
    InvCalls(Run(NewPlumber(poolSize), steps), k);
  }

  /** The state in which the scheduling loop of a poll reaches its `j`-th actor. */
  function Offering(s: PlumberState, t: Turn, j: nat): PlumberState
    requires j <= |t.offer|
  {
    Offer(Reap(Gather(Refilled(s, t), t.visit, t).state, t.now), t.offer[..j], t)
  }

  lemma OfferingKeeps(s: PlumberState, t: Turn, j: nat)
    requires Inv(s) && j <= |t.offer|
    ensures Inv(Offering(s, t, j))
  {
    ScheduledKeeps(s, t);
    var g := Gather(Refilled(s, t), t.visit, t).state;
    GatherKeeps(Refilled(s, t), t.visit, t);
    ReapKeeps(g, t.now);
    OfferKeeps(Reap(g, t.now), t.offer[..j], t);
  }

  /** An actor with fresh call ids stores each result as the first with its id,
      however its calls finish. */
  ghost predicate StoresOnce(s: PlumberState, k: Key, done: seq<Completion>) {
    k in s.actors && Distinct(s.actors[k].requested) ==>
      forall i :: 0 <= i < |done| ==> StoresNew(PollCalls(s.actors[k].functions, done[..i]), done[i])
  }

  lemma InvStoresOnce(s: PlumberState, k: Key, done: seq<Completion>)
    requires Inv(s)
    ensures StoresOnce(s, k, done)
  {
    if k in s.actors && Distinct(s.actors[k].requested) {
      assert EntryOk(s.actors[k], s.arrivals, k);
      forall i | 0 <= i < |done| ensures StoresNew(PollCalls(s.actors[k].functions, done[..i]), done[i]) {
        StoredOnce(s.actors[k], done, i);
      }
    }
  }

  /** No overwriting. In every run, for an actor whose call ids are fresh, no call
      result is overwritten: neither when finished interpretations are gathered nor
      when the scheduling loop reaches the actor. */
  lemma ResultsAreNeverOverwritten(poolSize: nat, steps: seq<Step>, t: Turn, j: nat, k: Key, done: seq<Completion>)
    requires j <= |t.offer|
    ensures StoresOnce(Run(NewPlumber(poolSize), steps), k, done)
    ensures StoresOnce(Offering(Run(NewPlumber(poolSize), steps), t, j), k, done)
  {
    var s := Run(NewPlumber(poolSize), steps);
    RunKeeps(poolSize, steps);
    InvStoresOnce(s, k, done);
    OfferingKeeps(s, t, j);
    InvStoresOnce(Offering(s, t, j), k, done);
  }

  /** The ledger of one arrival: either one expiry event and nothing else, or
      one more particle at the end of one mailbox, with the particle function that
      came along, and nothing else. */
  lemma IngestLedger(s: PlumberState, p: Particle, f: bool, peer: PeerId, now: U64)
    ensures var n, k := Ingest(s, p, f, peer, now), Key(p.id, peer);
            && n.pool == s.pool
            && (DeadlineOf(p).IsExpired(now) ==>
                  n.actors == s.actors && n.arrivals == s.arrivals && n.events == s.events + [ParticleExpired(p.id)])
            && (!DeadlineOf(p).IsExpired(now) ==>
                  && n.events == s.events && n.arrivals == s.arrivals + [Arrival(k, p)]
                  && n.actors.Keys == s.actors.Keys + {k}
                  && (forall l :: l in s.actors && l != k ==> n.actors[l] == s.actors[l])
                  && n.actors[k].mailbox == (if k in s.actors then s.actors[k].mailbox else []) + [p]
                  && (n.actors[k].functions.hasFunction <==>
                        f || (k in s.actors && s.actors[k].functions.hasFunction))
                  && n.actors[k].future == (if k in s.actors then s.actors[k].future else None))
  {
  }

  /** An accepted arrival is the last of the history of its actor. */
  lemma IngestHistory(s: PlumberState, p: Particle, f: bool, peer: PeerId, now: U64)
    requires ActorsOk(s) && !DeadlineOf(p).IsExpired(now)
    ensures var n, k := Ingest(s, p, f, peer, now), Key(p.id, peer);
            For(n.arrivals[n.actors[k].born..], k)
              == (if k in s.actors then For(s.arrivals[s.actors[k].born..], k) else []) + [p]
  {
    var a, k := ActorFor(s, p, peer), Key(p.id, peer);
    if k in s.actors { assert EntryOk(a, s.arrivals, k); }
    ForAppend(s.arrivals, a.born, Arrival(k, p), k);
  }

  /** The same life of an actor, some interpretations later. */
  ghost predicate Continues(a: ActorState, b: ActorState) {
    && a.born == b.born
    && a.deadline == b.deadline
    && a.launches <= b.launches
    && a.requested <= b.requested
  }

  lemma {:induction false} GatherContinues(s: PlumberState, order: seq<Key>, t: Turn, k: Key)
    requires k in s.actors
    ensures var n := Gather(s, order, t).state; k in n.actors && Continues(s.actors[k], n.actors[k])
    ensures Gather(s, order, t).state.actors.Keys == s.actors.Keys
  {
    if order != [] { GatherContinues(s, order[..|order| - 1], t, k); }
  }

  lemma {:induction false} OfferContinues(s: PlumberState, order: seq<Key>, t: Turn, k: Key)
    ensures Offer(s, order, t).actors.Keys == s.actors.Keys
    ensures k in s.actors ==> Continues(s.actors[k], Offer(s, order, t).actors[k])
  {
    if order != [] { OfferContinues(s, order[..|order| - 1], t, k); }
  }

  lemma {:induction false} DeliverContinues(s: PlumberState, hops: seq<Hop>, clock: nat -> U64, k: Key)
    requires k in s.actors
    ensures var n := Deliver(s, hops, clock); k in n.actors && Continues(s.actors[k], n.actors[k])
  {
    if hops != [] { DeliverContinues(s, hops[..|hops| - 1], clock, k); }
  }

  /** An actor, with whatever is in its mailbox, goes away in a poll if and only
      if a VM was free for the clean-up and the actor had expired and was not
      executing; every other actor lives on and only adds to its history. */
  lemma LostOnlyByReaping(s: PlumberState, t: Turn, k: Key)
    requires k in s.actors && s.events == []
    ensures var g := Gather(Refilled(s, t), t.visit, t).state;
            && k in g.actors
            && (k !in Scheduled(s, t).actors <==>
                  AnyFree(g.pool) && s.actors[k].deadline.IsExpired(t.now) && !Executing(g.actors[k]))
            && (k in Scheduled(s, t).actors ==>
                  k in Poll(s, t).0.actors && Continues(s.actors[k], Poll(s, t).0.actors[k]))
  {
    var r := Refilled(s, t);
    var g := Gather(r, t.visit, t).state;
    GatherContinues(r, t.visit, t, k);
    var p := Reap(g, t.now);
    OfferContinues(p, t.offer, t, k);
    if k in p.actors {
      DeliverContinues(Scheduled(s, t), LocalHops(s, t), t.clock, k);
    }
  }

  // ---------------------------------------------------------------- work conservation

  ghost predicate Idle(a: ActorState) {
    a.mailbox == [] && |a.functions.results| == 0
  }

  /** Actors offered a VM so far are executing or have nothing to do. */
  ghost predicate Settled(s: PlumberState, order: seq<Key>) {
    forall k :: k in order && k in s.actors ==> Executing(s.actors[k]) || Idle(s.actors[k])
  }

  lemma OfferOneSettles(s: PlumberState, k: Key, t: Turn)
    requires ActorsOk(s) && AnyFree(s.pool) && k in s.actors
    ensures var n := OfferOne(s, k, t); Executing(n.actors[k]) || Idle(n.actors[k])
  {
    var a := s.actors[k];
    assert EntryOk(a, s.arrivals, k);
    if !Accepts(a, t.doneLater(k)) { DeclineIsIdle(a, Next(s.pool), t.doneLater(k)); }
  }

  /** One more offer settles its own actor and leaves the others alone. */
  lemma OfferOneMore(s: PlumberState, order: seq<Key>, k: Key, t: Turn)
    requires ActorsOk(s) && (!AnyFree(s.pool) || Settled(s, order))
    ensures var n := OfferOne(s, k, t); !AnyFree(n.pool) || Settled(n, order + [k])
  {
    if AnyFree(s.pool) {
      var n := OfferOne(s, k, t);
      if k in s.actors { OfferOneSettles(s, k, t); }
      forall l | l in order + [k] && l in n.actors ensures Executing(n.actors[l]) || Idle(n.actors[l]) {
        if l != k { assert l in order && n.actors[l] == s.actors[l]; }
      }
    }
  }

  lemma {:induction false} OfferSettles(s: PlumberState, order: seq<Key>, t: Turn)
    requires ActorsOk(s)
    ensures ActorsOk(Offer(s, order, t))
    ensures var n := Offer(s, order, t); !AnyFree(n.pool) || Settled(n, order)
  {
    if order != [] {
      var init, last := order[..|order| - 1], order[|order| - 1];
      OfferSettles(s, init, t);
      var m := Offer(s, init, t);
      OfferOneActors(m, last, t);
      OfferOneMore(m, init, last, t);
      assert order == init + [last];
    }
  }

  lemma ScheduledSettles(s: PlumberState, t: Turn)
    requires Inv(s) && s.events == [] && Fits(s, t)
    ensures var n := Scheduled(s, t);
            (!AnyFree(n.pool) || Settled(n, t.offer)) && forall k :: k in n.actors ==> k in t.offer
  {
    ScheduledKeeps(s, t);
    var g := Gather(Refilled(s, t), t.visit, t).state;
    GatherKeeps(Refilled(s, t), t.visit, t);
    ReapKeeps(g, t.now);
    OfferSettles(Reap(g, t.now), t.offer, t);
    OfferKeeps(Reap(g, t.now), t.offer, t);
  }

  /** When a poll has finished scheduling, either no VM is free or every actor
      is executing or has an empty mailbox and no undelivered results. */
  lemma WorkConservation(poolSize: nat, steps: seq<Step>, t: Turn)
    requires Fits(Run(NewPlumber(poolSize), steps), t)
    requires Run(NewPlumber(poolSize), steps).events == []
    ensures var n := Scheduled(Run(NewPlumber(poolSize), steps), t);
            !AnyFree(n.pool) || forall k :: k in n.actors ==> Executing(n.actors[k]) || Idle(n.actors[k])
  {
    RunKeeps(poolSize, steps);
    ScheduledSettles(Run(NewPlumber(poolSize), steps), t);
  }
}
