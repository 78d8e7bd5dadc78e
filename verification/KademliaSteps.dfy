/** What each step of the discovery does, stated on the state before it: who is
    answered and who goes on waiting, whose failures count, who is banned, and for
    what the wake-up timer is armed. */
module KademliaSteps {
  import opened Base
  import opened Kademlia
  import opened KademliaRuns

  // ---------------------------------------------------------------- requests

  /** A request is answered at once with the addresses that are known, or with a ban;
      otherwise it waits behind the others for its peer, and a query is started if it
      is the only one. */
  lemma DiscoverExactly(c: Config, s: State, out: Out, peer: PeerId, local: seq<Addr>, id: QueryId, now: Instant)
    ensures var n := Apply(c, s, DoDiscover(out, peer, local, id, now));
            var banned := peer in s.failed && s.failed[peer].ban.Some?;
            var waits := local == [] && !banned;
            && n.answers == s.answers + (if local != [] then [Answer(out, Found(local))]
                                         else if banned then [Answer(out, PeerBanned)] else [])
            && Waiting(n, peer) == Waiting(s, peer) + (if waits then [Pending(out, now)] else [])
            && (forall p :: p != peer ==> Waiting(n, p) == Waiting(s, p))
            && n.queries == (if waits && Waiting(s, peer) == [] then s.queries[id := peer] else s.queries)
            && n.failed == s.failed && n.timer == s.timer
  {
    if local == [] && !Banned(s.failed, peer) { assert s.answers + [] == s.answers; }
  }

  /** The peer was found: everybody who waited for it is answered with the addresses,
      in order, nobody waits for it any more, its failures are forgotten, and no other
      peer is concerned. */
  ghost predicate FoundFor(s: State, n: State, peer: PeerId, addresses: seq<Addr>) {
    && |n.answers| == |s.answers| + |Waiting(s, peer)| && s.answers <= n.answers
    && (forall i :: 0 <= i < |Waiting(s, peer)| ==>
          n.answers[|s.answers| + i] == Answer(Waiting(s, peer)[i].out, Found(addresses)))
    && peer !in n.pending && peer !in n.failed
    && (forall p :: p != peer ==> Waiting(n, p) == Waiting(s, p) && FailedOf(n, p) == FailedOf(s, p))
    && n.timer == s.timer
  }

  lemma PeerDiscoveredFinds(s: State, peer: PeerId, addresses: seq<Addr>)
    ensures FoundFor(s, PeerDiscovered(s, peer, addresses), peer, addresses)
    ensures PeerDiscovered(s, peer, addresses).queries == s.queries
  {
    AnswersAre(Waiting(s, peer), Found(addresses));
    var n := PeerDiscovered(s, peer, addresses);
    assert n.answers == s.answers + Answers(Waiting(s, peer), Found(addresses));
  }

  /** A routing event for a peer answers all who wait for it. */
  lemma RoutingAnswersAll(c: Config, s: State, peer: PeerId, addresses: seq<Addr>)
    ensures FoundFor(s, Apply(c, s, OnRouting(peer, addresses)), peer, addresses)
    ensures Apply(c, s, OnRouting(peer, addresses)).queries == s.queries
  {
    PeerDiscoveredFinds(s, peer, addresses);
  }

  /** A finished query answers all who wait for its peer if addresses are known by
      then; otherwise they go on waiting. A query nobody started changes nothing. */
  lemma QueryAnswersAll(c: Config, s: State, id: QueryId, addresses: seq<Addr>)
    ensures var n := Apply(c, s, OnQuery(id, addresses));
            && (id !in s.queries ==> n == s)
            && (id in s.queries ==> n.queries == s.queries - {id})
            && (id in s.queries && addresses == [] ==> n == s.(queries := s.queries - {id}))
            && (id in s.queries && addresses != [] ==> FoundFor(s, n, s.queries[id], addresses))
  {
    if id in s.queries && addresses != [] {
      var m := s.(queries := s.queries - {id});
      PeerDiscoveredFinds(m, s.queries[id], addresses);
      assert forall p :: Waiting(m, p) == Waiting(s, p) && FailedOf(m, p) == FailedOf(s, p);
    }
  }

  // ---------------------------------------------------------------- failures and bans

  /** A request for the peer has waited too long. */
  ghost predicate SomeDue(c: Config, s: State, p: PeerId, now: Instant) {
    exists r :: r in Waiting(s, p) && now - r.created >= 2 * c.queryTimeout
  }

  /** Failures and bans after a full poll. A ban whose stamp is as old as the cooldown
      is lifted and its failures forgotten. Otherwise one failure is counted if a
      request timed out, and the peer is banned, as of now, exactly if the failures
      have reached the threshold. */
  lemma PollBansExactly(c: Config, steps: seq<Step>, now: Instant, pendingOrder: seq<PeerId>,
                        failedOrder: seq<PeerId>, p: PeerId)
    requires ValidRun(c, steps) && Allowed(c, Run(c, steps), DoPoll(now, pendingOrder, failedOrder))
    requires Run(c, steps).pending != map[] || Run(c, steps).failed != map[]
    ensures BannedAfter(c, Run(c, steps), Poll(c, Run(c, steps), now, pendingOrder, failedOrder), p, now)
  {
    RunKeeps(c, steps);
    PollBansStep(c, Run(c, steps), now, pendingOrder, failedOrder, p);
  }

  ghost predicate BannedAfter(c: Config, s: State, n: State, p: PeerId, now: Instant) {
    var due := SomeDue(c, s, p, now);
    var failures := (if p in s.failed then s.failed[p].count else 0) + if due then 1 else 0;
    var lifted := p in s.failed && s.failed[p].ban.Some? && now - s.failed[p].ban.value >= c.banCooldown;
    && (p in n.failed <==> !lifted && (p in s.failed || due))
    && (p in n.failed ==>
          n.failed[p] == Failed(if failures >= c.failThreshold then Some(now) else None, failures))
  }

  lemma DueIsExpiredList(c: Config, s: State, now: Instant, p: PeerId)
    requires Inv(c, s) && s.clock <= now
    ensures Expired(Waiting(s, p), now, 2 * c.queryTimeout) != [] <==> SomeDue(c, s, p, now)
  {
    var waiting, t := Waiting(s, p), 2 * c.queryTimeout;
    var expired := Expired(waiting, now, t);
    DrainIs(waiting, now, t);
    assert WaitsForIts(s, p);
    if expired != [] { assert expired[0] in expired; }
    if SomeDue(c, s, p, now) {
      var r :| r in waiting && now - r.created >= t;
      assert r in expired;
    }
  }

  lemma PollBansStep(c: Config, s: State, now: Instant, pendingOrder: seq<PeerId>, failedOrder: seq<PeerId>, p: PeerId)
    requires Inv(c, s) && Allowed(c, s, DoPoll(now, pendingOrder, failedOrder)) && !Idle(s)
    ensures BannedAfter(c, s, Poll(c, s, now, pendingOrder, failedOrder), p, now)
  {
    var n := Poll(c, s, now, pendingOrder, failedOrder);
    PollIs(c, s, now, pendingOrder, failedOrder);
    assert PeerPolled(c, s, n, p, now);
    DueIsExpiredList(c, s, now, p);
    if p in s.failed { assert Banned(s.failed, p) || s.failed[p].ban.None?; }
  }

  /** With nothing pending and nobody failed, a poll does nothing. */
  lemma IdlePollDoesNothing(c: Config, s: State, now: Instant, pendingOrder: seq<PeerId>, failedOrder: seq<PeerId>)
    requires s.pending == map[] && s.failed == map[]
    ensures Poll(c, s, now, pendingOrder, failedOrder) == s.(clock := now)
  {
  }

  // ---------------------------------------------------------------- the wake-up

  lemma {:induction false} WakeForAttained(wake: Duration, pending: seq<Pending>, now: Instant, t: Duration)
    ensures var w := WakeFor(wake, pending, now, t);
            w == wake || exists r :: r in pending && !TimedOut(now, r.created, t) && w == t - Elapsed(now, r.created)
  {
    if pending != [] {
      var init, last := pending[..|pending| - 1], pending[|pending| - 1];
      WakeForAttained(wake, init, now, t);
      assert pending == init + [last];
      assert last in pending;
    }
  }

  /** The wake-up is for a request that waits and is not due. */
  ghost predicate ForRequest(c: Config, s: State, wake: Duration, now: Instant) {
    exists p, r :: r in Waiting(s, p) && !TimedOut(now, r.created, 2 * c.queryTimeout)
                   && wake == 2 * c.queryTimeout - Elapsed(now, r.created)
  }

  /** The wake-up is for a ban that is not over. */
  ghost predicate ForBan(c: Config, s: State, wake: Duration, now: Instant) {
    exists p :: Banned(s.failed, p) && !TimedOut(now, s.failed[p].ban.value, c.banCooldown)
                && wake == c.banCooldown - Elapsed(now, s.failed[p].ban.value)
  }

  lemma {:induction false} SweepPendingAttained(c: Config, w: Sweep, order: seq<PeerId>, now: Instant)
    requires Distinct(order) && forall p :: p in order ==> p in w.s.pending
    ensures var n := SweepPending(c, w, order, now); n.wake == w.wake || ForRequest(c, w.s, n.wake, now)
  {
    if order != [] {
      var init, last := order[..|order| - 1], order[|order| - 1];
      assert order == init + [last];
      assert last !in init;
      SweepPendingAttained(c, w, init, now);
      SweepPendingIs(c, w, init, now);
      var m := SweepPending(c, w, init, now);
      assert PeerSame(w.s, m.s, last);
      WakeForAttained(m.wake, m.s.pending[last], now, 2 * c.queryTimeout);
      var n := SweepPending(c, w, order, now);
      if n.wake != m.wake {
        var r :| r in m.s.pending[last] && !TimedOut(now, r.created, 2 * c.queryTimeout)
                 && n.wake == 2 * c.queryTimeout - Elapsed(now, r.created);
        assert r in Waiting(w.s, last);
      }
    }
  }

  lemma {:induction false} SweepBansAttained(c: Config, w: Sweep, order: seq<PeerId>, now: Instant)
    requires Distinct(order) && forall p :: p in order ==> p in w.s.failed
    ensures var n := SweepBans(c, w, order, now); n.wake == w.wake || ForBan(c, w.s, n.wake, now)
  {
    if order != [] {
      var init, last := order[..|order| - 1], order[|order| - 1];
      assert order == init + [last];
      assert last !in init;
      SweepBansAttained(c, w, init, now);
      SweepBansIs(c, w, init, now);
      var m := SweepBans(c, w, init, now);
      assert FailedOf(m.s, last) == FailedOf(w.s, last);
    }
  }

  /** The wake-up is no earlier than needed: a full poll arms the timer for the
      smaller of the two settings, or for the deadline of a request that still waits,
      or for the end of a ban that was in force. */
  lemma WakeUpIsNeeded(c: Config, s: State, now: Instant, pendingOrder: seq<PeerId>, failedOrder: seq<PeerId>)
    requires Allowed(c, s, DoPoll(now, pendingOrder, failedOrder)) && !Idle(s)
    ensures var n := Poll(c, s, now, pendingOrder, failedOrder);
            && n.timer >= now
            && (|| n.timer - now == Min(c.queryTimeout, c.banCooldown)
                || ForRequest(c, s, n.timer - now, now) || ForBan(c, s, n.timer - now, now))
  {
    var start := Sweep(s, Min(c.queryTimeout, c.banCooldown));
    var w := Swept(c, s, now, pendingOrder);
    SweepPendingAttained(c, start, pendingOrder, now);
    SweepPendingIs(c, start, pendingOrder, now);
    SweepBansAttained(c, w, failedOrder, now);
    var n := SweepBans(c, w, failedOrder, now);
    if n.wake != w.wake { SameBans(c, s, w.s, pendingOrder, n.wake, now); }
  }

  /** Sweeping requests leaves the bans alone. */
  lemma SameBans(c: Config, s: State, m: State, order: seq<PeerId>, wake: Duration, now: Instant)
    requires ForBan(c, m, wake, now)
    requires forall p :: p in order ==> PeerSwept(c, s, m, p, now)
    requires forall p :: p !in order ==> PeerSame(s, m, p)
    ensures ForBan(c, s, wake, now)
  {
    var p :| Banned(m.failed, p) && !TimedOut(now, m.failed[p].ban.value, c.banCooldown)
             && wake == c.banCooldown - Elapsed(now, m.failed[p].ban.value);
    if p in order { assert PeerSwept(c, s, m, p, now); } else { assert PeerSame(s, m, p); }
    assert FailedOf(m, p) == Some(m.failed[p]);
    assert FailedOf(s, p).Some? && FailedOf(s, p).value.ban == m.failed[p].ban;
  }
}
