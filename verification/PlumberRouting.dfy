/** Routing of the scheduler: what becomes of the next peers of the completed
    interpretations, and the order in which events leave. */
module PlumbingRouting {
  import opened Base
  import opened Particles
  import opened VmPools
  import opened FunctionLedgers
  import opened Actors
  import opened Plumbing
  import opened PlumbingRuns

  // ---------------------------------------------------------------- completed interpretations

  /** The interpretation of an actor finishes in this turn. */
  predicate CompletesIn(s: PlumberState, t: Turn, k: Key) {
    k in s.actors && s.actors[k].future.Some? && t.runs(k).Some?
  }

  /** What the completed interpretation of an actor asks for. */
  function EffectIn(s: PlumberState, t: Turn, k: Key): RoutingEffects
    requires CompletesIn(s, t, k)
  {
    EffectsOf(s.actors[k], t.runs(k).value)
  }

  ghost function CompletedKeys(s: PlumberState, t: Turn): set<Key> {
    set k | k in s.actors && CompletesIn(s, t, k)
  }

  function CompletedAmong(s: PlumberState, t: Turn, order: seq<Key>): (keys: seq<Key>)
    ensures forall k :: k in keys <==> k in order && CompletesIn(s, t, k)
    ensures Distinct(order) ==> Distinct(keys)
  {
    if order == [] then []
    else
      var init, last := order[..|order| - 1], order[|order| - 1];
      assert order == init + [last];
      CompletedAmong(s, t, init) + (if CompletesIn(s, t, last) then [last] else [])
  }

  /** One effect per completed interpretation, as the interpreter returned it. */
  function EffectsOfAll(s: PlumberState, t: Turn, keys: seq<Key>): (effects: seq<RoutingEffects>)
    requires forall k :: k in keys ==> CompletesIn(s, t, k)
    ensures |effects| == |keys|
    ensures forall i :: 0 <= i < |keys| ==> keys[i] in keys && effects[i] == EffectIn(s, t, keys[i])
  {
    if keys == [] then []
    else EffectsOfAll(s, t, keys[..|keys| - 1]) + [EffectIn(s, t, keys[|keys| - 1])]
  }

  /** Gathering leaves the actors it has not visited, and the events, alone. */
  lemma {:induction false} GatherLeaves(s: PlumberState, order: seq<Key>, t: Turn)
    ensures var g := Gather(s, order, t).state;
            && g.actors.Keys == s.actors.Keys && g.events == s.events && g.arrivals == s.arrivals
            && forall k :: k in s.actors && k !in order ==> g.actors[k] == s.actors[k]
  {
    if order != [] {
      GatherLeaves(s, order[..|order| - 1], t);
      assert order == order[..|order| - 1] + [order[|order| - 1]];
    }
  }

  /** Gathering finds the completed interpretations of the actors it visits, one
      effect each, and nothing else. */
  lemma {:induction false} GatherFinds(s: PlumberState, order: seq<Key>, t: Turn)
    requires Distinct(order)
    ensures Gather(s, order, t).effects == EffectsOfAll(s, t, CompletedAmong(s, t, order))
  {
    if order != [] {
      var init, last := order[..|order| - 1], order[|order| - 1];
      GatherFinds(s, init, t);
      GatherLeaves(s, init, t);
      assert last !in init;
      var before, keys := CompletedAmong(s, t, init), CompletedAmong(s, t, order);
      if CompletesIn(s, t, last) { assert keys[..|keys| - 1] == before; } else { assert keys == before; }
    }
  }

  /** The answer of a completed interpretation: the particle it was launched with,
      with the data and for the next peers that the interpreter returned. */
  ghost predicate AnswerOf(s: PlumberState, t: Turn, k: Key, e: RoutingEffects) {
    && CompletesIn(s, t, k)
    && var a, run := s.actors[k], t.runs(k).value;
    && a.launches != []
    && e.particle == a.launches[|a.launches| - 1].particle.(data := run.data)
    && e.nextPeers == run.nextPeers
  }

  /** In a poll of any run the effects collected are the answers of exactly the
      actors whose interpretation completed, one each. */
  lemma FinishedExactly(poolSize: nat, steps: seq<Step>, t: Turn) returns (completed: seq<Key>)
    requires Fits(Run(NewPlumber(poolSize), steps), t) && Run(NewPlumber(poolSize), steps).events == []
    ensures var s := Run(NewPlumber(poolSize), steps);
            && Enumerates(completed, CompletedKeys(s, t))
            && |Finished(s, t)| == |completed|
            && forall i :: 0 <= i < |completed| ==> AnswerOf(s, t, completed[i], Finished(s, t)[i])
  {
    RunKeeps(poolSize, steps);
    completed := InvFinished(Run(NewPlumber(poolSize), steps), t);
  }

  lemma FinishedIs(s: PlumberState, t: Turn)
    requires Fits(s, t) && s.events == []
    ensures Finished(s, t) == EffectsOfAll(s, t, CompletedAmong(s, t, t.visit))
    ensures Enumerates(CompletedAmong(s, t, t.visit), CompletedKeys(s, t))
  {
    GatherFinds(Refilled(s, t), t.visit, t);
    SameCompletions(s, Refilled(s, t), t, t.visit);
  }

  lemma EffectIsAnswer(s: PlumberState, t: Turn, k: Key)
    requires k in s.actors && Current(s.actors[k]) && CompletesIn(s, t, k)
    ensures AnswerOf(s, t, k, EffectIn(s, t, k))
  {
  }

  lemma InvFinished(s: PlumberState, t: Turn) returns (completed: seq<Key>)
    requires Inv(s) && Fits(s, t) && s.events == []
    ensures Enumerates(completed, CompletedKeys(s, t))
    ensures |Finished(s, t)| == |completed|
    ensures forall i :: 0 <= i < |completed| ==> AnswerOf(s, t, completed[i], Finished(s, t)[i])
  {
    FinishedIs(s, t);
    completed := CompletedAmong(s, t, t.visit);
    forall i | 0 <= i < |completed| ensures AnswerOf(s, t, completed[i], Finished(s, t)[i]) {
      InvCalls(s, completed[i]);
      EffectIsAnswer(s, t, completed[i]);
    }
  }

  lemma {:induction false} SameCompletions(s: PlumberState, n: PlumberState, t: Turn, order: seq<Key>)
    requires n.actors == s.actors
    ensures CompletedAmong(n, t, order) == CompletedAmong(s, t, order)
    ensures EffectsOfAll(n, t, CompletedAmong(n, t, order)) == EffectsOfAll(s, t, CompletedAmong(s, t, order))
  {
    if order != [] { SameCompletions(s, n, t, order[..|order| - 1]); }
  }

  // ---------------------------------------------------------------- splitting by scope

  lemma {:induction false} HopsOfConcat(p: Particle, a: seq<PeerId>, b: seq<PeerId>)
    ensures HopsOf(RoutingEffects(p, a + b)) == HopsOf(RoutingEffects(p, a)) + HopsOf(RoutingEffects(p, b))
  {
  }

  lemma {:induction false} MatchingOnly(peers: seq<PeerId>, keep: PeerId -> bool)
    ensures forall q :: q in Matching(peers, keep) ==> keep(q)
  {
    if peers != [] { MatchingOnly(peers[..|peers| - 1], keep); }
  }

  /** Splitting the next peers of one particle loses and invents nothing. */
  lemma {:induction false} MatchingSplits(p: Particle, peers: seq<PeerId>, keep: PeerId -> bool)
    ensures multiset(HopsOf(RoutingEffects(p, peers)))
         == multiset(HopsOf(RoutingEffects(p, Matching(peers, keep))))
          + multiset(HopsOf(RoutingEffects(p, Matching(peers, (q: PeerId) => !keep(q)))))
  {
    var drop := (q: PeerId) => !keep(q);
    if peers != [] {
      var init, last := peers[..|peers| - 1], peers[|peers| - 1];
      MatchingSplits(p, init, keep);
      assert peers == init + [last];
      HopsOfConcat(p, init, [last]);
      if keep(last) {
        HopsOfConcat(p, Matching(init, keep), [last]);
        assert Matching(peers, drop) == Matching(init, drop);
      } else {
        HopsOfConcat(p, Matching(init, drop), [last]);
        assert Matching(peers, keep) == Matching(init, keep);
      }
    }
  }

  lemma {:induction false} HopsAppend(effects: seq<RoutingEffects>, e: RoutingEffects)
    ensures Hops(effects + [e]) == Hops(effects) + HopsOf(e)
  {
    assert (effects + [e])[..|effects|] == effects;
  }

  lemma TowardsHops(effects: seq<RoutingEffects>, keep: PeerId -> bool)
    requires effects != []
    ensures var init, last := effects[..|effects| - 1], effects[|effects| - 1];
            Hops(Towards(effects, keep))
              == Hops(Towards(init, keep)) + HopsOf(RoutingEffects(last.particle, Matching(last.nextPeers, keep)))
  {
    var init, last := effects[..|effects| - 1], effects[|effects| - 1];
    var peers := Matching(last.nextPeers, keep);
    if peers == [] {
      assert Towards(effects, keep) == Towards(init, keep);
    } else {
      HopsAppend(Towards(init, keep), RoutingEffects(last.particle, peers));
    }
  }

  lemma {:induction false} TowardsOnly(effects: seq<RoutingEffects>, keep: PeerId -> bool)
    ensures forall h :: h in Hops(Towards(effects, keep)) ==> keep(h.peer)
  {
    if effects != [] {
      var init, last := effects[..|effects| - 1], effects[|effects| - 1];
      TowardsOnly(init, keep);
      TowardsHops(effects, keep);
      MatchingOnly(last.nextPeers, keep);
    }
  }

  lemma SumOfSplits(a: seq<Hop>, b: seq<Hop>, la: seq<Hop>, lb: seq<Hop>, ra: seq<Hop>, rb: seq<Hop>)
    requires multiset(a) == multiset(la) + multiset(ra) && multiset(b) == multiset(lb) + multiset(rb)
    ensures multiset(a + b) == multiset(la + lb) + multiset(ra + rb)
  {
  }

  lemma {:induction false} TowardsSplits(effects: seq<RoutingEffects>, keep: PeerId -> bool)
    ensures multiset(Hops(effects))
         == multiset(Hops(Towards(effects, keep)))
          + multiset(Hops(Towards(effects, (q: PeerId) => !keep(q))))
  {
    if effects != [] {
      var drop := (q: PeerId) => !keep(q);
      var init, last := effects[..|effects| - 1], effects[|effects| - 1];
      TowardsSplits(init, keep);
      TowardsHops(effects, keep);
      TowardsHops(effects, drop);
      MatchingSplits(last.particle, last.nextPeers, keep);
      SumOfSplits(Hops(init), HopsOf(last),
        Hops(Towards(init, keep)), HopsOf(RoutingEffects(last.particle, Matching(last.nextPeers, keep))),
        Hops(Towards(init, drop)), HopsOf(RoutingEffects(last.particle, Matching(last.nextPeers, drop))));
    }
  }

  // ---------------------------------------------------------------- local delivery

  /** The arrivals among the hops: those that have not expired when their turn comes. */
  function ArrivalsOf(hops: seq<Hop>, clock: nat -> U64): seq<Arrival> {
    if hops == [] then []
    else
      var n := |hops| - 1;
      var h := hops[n];
      ArrivalsOf(hops[..n], clock)
        + (if DeadlineOf(h.particle).IsExpired(clock(n)) then [] else [Arrival(Key(h.particle.id, h.peer), h.particle)])
  }

  /** The events of the hops that have expired. */
  function ExpiriesOf(hops: seq<Hop>, clock: nat -> U64): seq<Event> {
    if hops == [] then []
    else
      var n := |hops| - 1;
      var h := hops[n];
      ExpiriesOf(hops[..n], clock)
        + (if DeadlineOf(h.particle).IsExpired(clock(n)) then [ParticleExpired(h.particle.id)] else [])
  }

  /** Local delivery accounts for every hop: the unexpired ones arrive, in order,
      the expired ones are announced, in order, and nothing else happens. */
  lemma {:induction false} DeliveryAccounts(s: PlumberState, hops: seq<Hop>, clock: nat -> U64)
    ensures var d := Deliver(s, hops, clock);
            && d.arrivals == s.arrivals + ArrivalsOf(hops, clock)
            && d.events == s.events + ExpiriesOf(hops, clock)
            && |ArrivalsOf(hops, clock)| + |ExpiriesOf(hops, clock)| == |hops|
            && d.pool == s.pool
  {
    if hops != [] { DeliveryAccounts(s, hops[..|hops| - 1], clock); }
  }

  /** `d` is `s` after the particles `more` arrived for the actor of `k`, without a
      particle function; an actor appears with the first of them. */
  predicate Filled(s: PlumberState, d: PlumberState, more: seq<Particle>, k: Key) {
    && (k in d.actors <==> k in s.actors || more != [])
    && (k in d.actors ==>
          && d.actors[k].mailbox == (if k in s.actors then s.actors[k].mailbox else []) + more
          && d.actors[k].future == (if k in s.actors then s.actors[k].future else None)
          && d.actors[k].functions == (if k in s.actors then s.actors[k].functions else NewFunctions()))
  }

  lemma IngestFills(s: PlumberState, m: PlumberState, h: Hop, now: U64, more: seq<Particle>, k: Key)
    requires Filled(s, m, more, k) && !DeadlineOf(h.particle).IsExpired(now)
    ensures var arrived := if Key(h.particle.id, h.peer) == k then [h.particle] else [];
            Filled(s, Ingest(m, h.particle, false, h.peer, now), more + arrived, k)
  {
  }

  /** What delivery does to one actor: its mailbox grows by the arrivals for it, in
      order, an actor appears exactly when the first particle for it arrives, and no
      particle function is set. */
  lemma {:induction false} DeliveryFills(s: PlumberState, hops: seq<Hop>, clock: nat -> U64, k: Key)
    ensures Filled(s, Deliver(s, hops, clock), For(ArrivalsOf(hops, clock), k), k)
  {
    if hops != [] {
      var n := |hops| - 1;
      DeliveryFills(s, hops[..n], clock, k);
      var m, h, before := Deliver(s, hops[..n], clock), hops[n], ArrivalsOf(hops[..n], clock);
      if DeadlineOf(h.particle).IsExpired(clock(n)) {
        assert ArrivalsOf(hops, clock) == before;
      } else {
        IngestFills(s, m, h, clock(n), For(before, k), k);
        ForAppend(before, 0, Arrival(Key(h.particle.id, h.peer), h.particle), k);
        assert before[0..] == before;
        assert ArrivalsOf(hops, clock)[0..] == ArrivalsOf(hops, clock);
      }
    }
  }

  // ---------------------------------------------------------------- what each phase does to an actor

  /** Gathering polls every actor once, with the calls and the interpretation that
      finished for it. */
  lemma {:induction false} GatherPolls(s: PlumberState, order: seq<Key>, t: Turn, k: Key)
    requires Distinct(order) && k in order && k in s.actors
    ensures k in Gather(s, order, t).state.actors
    ensures Gather(s, order, t).state.actors[k] == Polled(s.actors[k], t.done(k), t.runs(k))
  {
    var init, last := order[..|order| - 1], order[|order| - 1];
    assert order == init + [last];
    assert last !in init;
    GatherLeaves(s, init, t);
    if k != last { GatherPolls(s, init, t, k); }
  }

  /** Scheduling offers the VM of the lowest occupied slot to every actor, in order,
      as long as one is free, and leaves the others alone. */
  lemma {:induction false} OfferReaches(s: PlumberState, order: seq<Key>, t: Turn, i: nat)
    requires Distinct(order) && i < |order| && order[i] in s.actors
    ensures var m, n, k := Offer(s, order[..i], t), Offer(s, order[..i + 1], t), order[i];
            && k in m.actors && m.actors[k] == s.actors[k] && k in n.actors
            && n.actors[k] ==
                 if AnyFree(m.pool) then Offered(s.actors[k], Next(m.pool), t.doneLater(k)) else s.actors[k]
  {
    assert order[..i + 1][..i] == order[..i];
    OfferLeaves(s, order[..i], t);
  }

  lemma {:induction false} OfferLeaves(s: PlumberState, order: seq<Key>, t: Turn)
    ensures Offer(s, order, t).actors.Keys == s.actors.Keys
    ensures forall k :: k in s.actors && k !in order ==> Offer(s, order, t).actors[k] == s.actors[k]
  {
    if order != [] {
      OfferLeaves(s, order[..|order| - 1], t);
      assert order == order[..|order| - 1] + [order[|order| - 1]];
    }
  }

  /** Every actor is offered a VM once. */
  lemma {:induction false} OfferOnce(s: PlumberState, order: seq<Key>, t: Turn, i: nat)
    requires Distinct(order) && i < |order| && order[i] in s.actors
    ensures var m, n := Offer(s, order[..i + 1], t), Offer(s, order, t);
            order[i] in m.actors && order[i] in n.actors && n.actors[order[i]] == m.actors[order[i]]
  {
    OfferLeaves(s, order[..i + 1], t);
    if i + 1 == |order| {
      assert order[..i + 1] == order;
    } else {
      var init := order[..|order| - 1];
      assert init[..i + 1] == order[..i + 1];
      OfferOnce(s, init, t, i);
    }
  }

  /** What a poll that gathers does to an actor that is not reaped. It is polled;
      then, at its turn, it is offered the next free VM, if there is one; then the
      particles routed to it arrive. No VM is taken or put back after that. */
  lemma ActorThroughPoll(s: PlumberState, t: Turn, i: nat)
    requires s.events == [] && Fits(s, t) && i < |t.offer| && t.offer[i] in s.actors
    ensures var k, m, n := t.offer[i], Offering(s, t, i), Scheduled(s, t);
            var a := Polled(s.actors[k], t.done(k), t.runs(k));
            && k in n.actors
            && n.actors[k] == (if AnyFree(m.pool) then Offered(a, Next(m.pool), t.doneLater(k)) else a)
            && Filled(n, Poll(s, t).0, For(ArrivalsOf(LocalHops(s, t), t.clock), k), k)
            && Poll(s, t).0.pool == n.pool
  {
    var k, g := t.offer[i], Gather(Refilled(s, t), t.visit, t).state;
    GatherPolls(Refilled(s, t), t.visit, t, k);
    OfferReaches(Reap(g, t.now), t.offer, t, i);
    OfferOnce(Reap(g, t.now), t.offer, t, i);
    AfterScheduling(s, t, k);
  }

  lemma AfterScheduling(s: PlumberState, t: Turn, k: Key)
    requires s.events == []
    ensures Filled(Scheduled(s, t), Poll(s, t).0, For(ArrivalsOf(LocalHops(s, t), t.clock), k), k)
    ensures Poll(s, t).0.pool == Scheduled(s, t).pool
  {
    DeliveryFills(Scheduled(s, t), LocalHops(s, t), t.clock, k);
    DeliveryAccounts(Scheduled(s, t), LocalHops(s, t), t.clock);
  }

  /** What a poll leaves undone. After every poll of every run that gathers, no VM is
      free, or every actor is executing or has no undelivered result and nothing in
      its mailbox but the particles this poll has routed to it. */
  lemma OnlyNewWorkIsLeft(poolSize: nat, steps: seq<Step>, t: Turn)
    requires Fits(Run(NewPlumber(poolSize), steps), t) && Run(NewPlumber(poolSize), steps).events == []
    ensures var s := Run(NewPlumber(poolSize), steps);
            var n := Poll(s, t).0;
            !AnyFree(n.pool) || forall k :: k in n.actors ==>
              UpToDate(n.actors[k], For(ArrivalsOf(LocalHops(s, t), t.clock), k))
  {
    WorkConservation(poolSize, steps, t);
    var s := Run(NewPlumber(poolSize), steps);
    forall k | AnyFree(Poll(s, t).0.pool) && k in Poll(s, t).0.actors
      ensures UpToDate(Poll(s, t).0.actors[k], For(ArrivalsOf(LocalHops(s, t), t.clock), k))
    {
      AfterScheduling(s, t, k);
      FilledIsUpToDate(Scheduled(s, t), Poll(s, t).0, For(ArrivalsOf(LocalHops(s, t), t.clock), k), k);
    }
  }

  /** The actor is executing, or has no undelivered result and only `more` to do. */
  predicate UpToDate(a: ActorState, more: seq<Particle>) {
    a.future.Some? || (|a.functions.results| == 0 && a.mailbox == more)
  }

  lemma FilledIsUpToDate(s: PlumberState, d: PlumberState, more: seq<Particle>, k: Key)
    requires Filled(s, d, more, k) && k in d.actors
    requires k in s.actors ==> Executing(s.actors[k]) || Idle(s.actors[k])
    ensures UpToDate(d.actors[k], more)
  {
    assert [] + more == more;
  }

  lemma {:induction false} OfferKeepsEvents(s: PlumberState, order: seq<Key>, t: Turn)
    ensures Offer(s, order, t).events == s.events && Offer(s, order, t).arrivals == s.arrivals
  {
    if order != [] { OfferKeepsEvents(s, order[..|order| - 1], t); }
  }

  lemma ScheduledKeepsEvents(s: PlumberState, t: Turn)
    ensures Scheduled(s, t).events == s.events && Scheduled(s, t).arrivals == s.arrivals
  {
    GatherLeaves(Refilled(s, t), t.visit, t);
    OfferKeepsEvents(Reap(Gather(Refilled(s, t), t.visit, t).state, t.now), t.offer, t);
  }

  // ---------------------------------------------------------------- counting pairs

  function Times(peers: seq<PeerId>, peer: PeerId): nat {
    if peers == [] then 0
    else Times(peers[..|peers| - 1], peer) + if peers[|peers| - 1] == peer then 1 else 0
  }

  /** How often the effects ask for a particle to be sent to a peer. */
  function Asked(effects: seq<RoutingEffects>, h: Hop): nat {
    if effects == [] then 0
    else
      var last := effects[|effects| - 1];
      Asked(effects[..|effects| - 1], h) + if last.particle == h.particle then Times(last.nextPeers, h.peer) else 0
  }

  lemma {:induction false} HopsOfCount(p: Particle, peers: seq<PeerId>, h: Hop)
    ensures multiset(HopsOf(RoutingEffects(p, peers)))[h] == if p == h.particle then Times(peers, h.peer) else 0
  {
    if peers != [] {
      var init, last := peers[..|peers| - 1], peers[|peers| - 1];
      HopsOfCount(p, init, h);
      HopsOfConcat(p, init, [last]);
      assert peers == init + [last];
      assert HopsOf(RoutingEffects(p, [last])) == [Hop(p, last)];
    }
  }

  lemma {:induction false} HopsCount(effects: seq<RoutingEffects>, h: Hop)
    ensures multiset(Hops(effects))[h] == Asked(effects, h)
  {
    if effects != [] {
      var last := effects[|effects| - 1];
      HopsCount(effects[..|effects| - 1], h);
      HopsOfCount(last.particle, last.nextPeers, h);
    }
  }

  // ---------------------------------------------------------------- main theorems

  /** Routing. In every poll of every run that gathers, each pair of a particle and
      a next peer is asked for by the answers of the completed interpretations as
      often as it is delivered locally or sent to a remote peer. Each local pair is
      a scope of this node and becomes one arrival or one expiry event, in order;
      each remote effect becomes one event, and none of its targets is a scope. The
      poll hands out the first of these events, and none only if there is none. */
  lemma RoutingConserves(poolSize: nat, steps: seq<Step>, t: Turn)
    returns (completed: seq<Key>, answers: seq<RoutingEffects>, local: seq<Hop>, remote: seq<RoutingEffects>)
    requires Fits(Run(NewPlumber(poolSize), steps), t) && Run(NewPlumber(poolSize), steps).events == []
    ensures var s := Run(NewPlumber(poolSize), steps);
            && Enumerates(completed, CompletedKeys(s, t)) && |answers| == |completed|
            && (forall i :: 0 <= i < |completed| ==> AnswerOf(s, t, completed[i], answers[i]))
            && (forall h :: Asked(answers, h) == multiset(local)[h] + Asked(remote, h))
            && (forall h :: h in local ==> t.isScope(h.peer))
            && (forall e, q :: e in remote && q in e.nextPeers ==> !t.isScope(q))
            && var (n, event) := Poll(s, t);
            && n.arrivals == s.arrivals + ArrivalsOf(local, t.clock)
            && (if event.Some? then [event.value] else []) + n.events
                 == ExpiriesOf(local, t.clock) + AsEvents(remote)
            && (event.None? ==> n.events == [])
  {
    var s := Run(NewPlumber(poolSize), steps);
    completed := FinishedExactly(poolSize, steps, t);
    answers, local, remote := Finished(s, t), LocalHops(s, t), RemoteEffects(s, t);
    EffectsSplit(s, t);
    HandsOut(s, t);
  }

  lemma HandsOut(s: PlumberState, t: Turn)
    requires s.events == []
    ensures var (n, event) := Poll(s, t);
            && n.arrivals == s.arrivals + ArrivalsOf(LocalHops(s, t), t.clock)
            && (if event.Some? then [event.value] else []) + n.events
                 == ExpiriesOf(LocalHops(s, t), t.clock) + AsEvents(RemoteEffects(s, t))
            && (event.None? ==> n.events == [])
  {
    TurnedIs(s, t);
  }

  lemma EffectsSplit(s: PlumberState, t: Turn)
    ensures forall h :: Asked(Finished(s, t), h) == multiset(LocalHops(s, t))[h] + Asked(RemoteEffects(s, t), h)
    ensures forall h :: h in LocalHops(s, t) ==> t.isScope(h.peer)
    ensures forall e, q :: e in RemoteEffects(s, t) && q in e.nextPeers ==> !t.isScope(q)
  {
    var others := (p: PeerId) => !t.isScope(p);
    TowardsSplits(Finished(s, t), t.isScope);
    TowardsOnly(Finished(s, t), t.isScope);
    TowardsPeers(Finished(s, t), others);
    forall e, q | e in RemoteEffects(s, t) && q in e.nextPeers ensures !t.isScope(q) { assert others(q); }
    forall h ensures Asked(Finished(s, t), h) == multiset(LocalHops(s, t))[h] + Asked(RemoteEffects(s, t), h) {
      HopsCount(Finished(s, t), h);
      HopsCount(RemoteEffects(s, t), h);
    }
  }

  lemma {:induction false} TowardsPeers(effects: seq<RoutingEffects>, keep: PeerId -> bool)
    ensures forall e, q :: e in Towards(effects, keep) && q in e.nextPeers ==> keep(q)
  {
    if effects != [] {
      TowardsPeers(effects[..|effects| - 1], keep);
      MatchingOnly(effects[|effects| - 1].nextPeers, keep);
    }
  }

  lemma TurnedIs(s: PlumberState, t: Turn)
    requires s.events == []
    ensures Turned(s, t).arrivals == s.arrivals + ArrivalsOf(LocalHops(s, t), t.clock)
    ensures Turned(s, t).events == ExpiriesOf(LocalHops(s, t), t.clock) + AsEvents(RemoteEffects(s, t))
  {
    var n, local := Scheduled(s, t), LocalHops(s, t);
    ScheduledKeepsEvents(s, t);
    DeliveryAccounts(n, local, t.clock);
    var d := Deliver(n, local, t.clock);
    assert Turned(s, t) == d.(events := d.events + AsEvents(RemoteEffects(s, t)));
  }

  /** A poll that finds an event waiting refills the pool, hands the event out and
      does nothing else. */
  lemma EarlyPollOnlyRefills(s: PlumberState, t: Turn)
    requires s.events != []
    ensures Poll(s, t) == (s.(pool := PollPool(s.pool, t.ready), events := s.events[1..]), Some(s.events[0]))
  {
  }

  /** The events one step adds to the queue. */
  function QueuedBy(s: PlumberState, step: Step): seq<Event> {
    match step
    case Arrive(p, _, _, now) => if DeadlineOf(p).IsExpired(now) then [ParticleExpired(p.id)] else []
    case Tick(t) =>
      if s.events != [] then [] else ExpiriesOf(LocalHops(s, t), t.clock) + AsEvents(RemoteEffects(s, t))
  }

  /** The event one step hands out. */
  function ReturnedBy(s: PlumberState, step: Step): seq<Event> {
    match step
    case Arrive(_, _, _, _) => []
    case Tick(t) => var e := Poll(s, t).1; if e.Some? then [e.value] else []
  }

  /** The events queued so far, in order. */
  ghost function Queued(poolSize: nat, steps: seq<Step>): seq<Event> {
    if steps == [] then []
    else
      var init, last := steps[..|steps| - 1], steps[|steps| - 1];
      Queued(poolSize, init) + QueuedBy(Run(NewPlumber(poolSize), init), last)
  }

  /** The events handed out so far, in order. */
  ghost function Returned(poolSize: nat, steps: seq<Step>): seq<Event> {
    if steps == [] then []
    else
      var init, last := steps[..|steps| - 1], steps[|steps| - 1];
      Returned(poolSize, init) + ReturnedBy(Run(NewPlumber(poolSize), init), last)
  }

  lemma StepQueues(s: PlumberState, step: Step)
    ensures ReturnedBy(s, step) + Apply(s, step).events == s.events + QueuedBy(s, step)
  {
    if step.Tick? && s.events == [] { HandsOut(s, step.turn); }
  }

  /** Events leave first in, first out: in every run, early returns included, the
      events handed out followed by those still queued are the events queued so
      far, in order. */
  lemma {:induction false} EventsLeaveInOrder(poolSize: nat, steps: seq<Step>)
    ensures Returned(poolSize, steps) + Run(NewPlumber(poolSize), steps).events == Queued(poolSize, steps)
  {
    if steps != [] {
      var init, last := steps[..|steps| - 1], steps[|steps| - 1];
      EventsLeaveInOrder(poolSize, init);
      var s := Run(NewPlumber(poolSize), init);
      StepQueues(s, last);
      QueueShift(Returned(poolSize, init), s.events, ReturnedBy(s, last), Apply(s, last).events, QueuedBy(s, last));
    }
  }
}
