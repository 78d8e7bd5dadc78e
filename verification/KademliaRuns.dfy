/** What every run of the discovery keeps: the ledger of requests, the coverage
    of every deadline by the wake-up timer, and the life of a ban. */
module KademliaRuns {
  import opened Base
  import opened Kademlia

  // ---------------------------------------------------------------- filters

  /** How often a request waits in a list. */
  function Waits(pending: seq<Pending>, o: Out): nat {
    if pending == [] then 0
    else Waits(pending[..|pending| - 1], o) + if pending[|pending| - 1].out == o then 1 else 0
  }

  lemma {:induction false} WaitsHas(pending: seq<Pending>, o: Out)
    ensures Waits(pending, o) > 0 <==> exists r :: r in pending && r.out == o
  {
    if pending != [] {
      var init, last := pending[..|pending| - 1], pending[|pending| - 1];
      WaitsHas(init, o);
      assert pending == init + [last];
    }
  }

  lemma WaitsOneMore(pending: seq<Pending>, r: Pending, o: Out)
    ensures Waits(pending + [r], o) == Waits(pending, o) + if r.out == o then 1 else 0
  {
    assert (pending + [r])[..|pending|] == pending;
  }

  /** Draining splits a list: nothing is lost and nothing is duplicated. */
  lemma {:induction false} DrainSplits(pending: seq<Pending>, now: Instant, t: Duration, o: Out)
    ensures Waits(Expired(pending, now, t), o) + Waits(Alive(pending, now, t), o) == Waits(pending, o)
  {
    if pending != [] {
      var init, last := pending[..|pending| - 1], pending[|pending| - 1];
      DrainSplits(init, now, t, o);
      WaitsOneMore(Expired(init, now, t), last, o);
      WaitsOneMore(Alive(init, now, t), last, o);
    }
  }

  lemma {:induction false} DrainIs(pending: seq<Pending>, now: Instant, t: Duration)
    ensures forall r :: r in Expired(pending, now, t) <==> r in pending && TimedOut(now, r.created, t)
    ensures forall r :: r in Alive(pending, now, t) <==> r in pending && !TimedOut(now, r.created, t)
  {
    if pending != [] {
      var init, last := pending[..|pending| - 1], pending[|pending| - 1];
      DrainIs(init, now, t);
      assert pending == init + [last];
    }
  }

  /** The wake-up never grows, stays positive, and is not after any deadline
      that has not passed. */
  lemma {:induction false} WakeForCovers(wake: Duration, pending: seq<Pending>, now: Instant, t: Duration)
    ensures WakeFor(wake, pending, now, t) <= wake
    ensures wake > 0 ==> WakeFor(wake, pending, now, t) > 0
    ensures forall r :: r in pending && !TimedOut(now, r.created, t) ==>
              WakeFor(wake, pending, now, t) <= t - Elapsed(now, r.created)
  {
    if pending != [] {
      var init, last := pending[..|pending| - 1], pending[|pending| - 1];
      WakeForCovers(wake, init, now, t);
      assert pending == init + [last];
    }
  }

  // ---------------------------------------------------------------- one sweep

  function Waiting(s: State, p: PeerId): seq<Pending> {
    if p in s.pending then s.pending[p] else []
  }

  function FailedOf(s: State, p: PeerId): Option<Failed> {
    if p in s.failed then Some(s.failed[p]) else None
  }

  /** The entry of a peer after one more failure, if it failed. */
  function AfterSweep(f: Option<Failed>, timedOut: bool): Option<Failed> {
    if !timedOut then f
    else if f.None? then Some(Failed(None, 1)) else Some(f.value.(count := f.value.count + 1))
  }

  ghost predicate SameRest(s: State, n: State) {
    && n.queries == s.queries && n.timer == s.timer && n.issued == s.issued
    && n.lastPoll == s.lastPoll && n.clock == s.clock
  }

  /** What a sweep has done to one peer. */
  ghost predicate PeerSwept(c: Config, s: State, n: State, p: PeerId, now: Instant) {
    && Waiting(n, p) == Alive(Waiting(s, p), now, 2 * c.queryTimeout)
    && (p in n.pending ==> n.pending[p] != [])
    && FailedOf(n, p) == AfterSweep(FailedOf(s, p), Expired(Waiting(s, p), now, 2 * c.queryTimeout) != [])
  }

  ghost predicate PeerSame(s: State, n: State, p: PeerId) {
    && (p in n.pending <==> p in s.pending)
    && Waiting(n, p) == Waiting(s, p) && FailedOf(n, p) == FailedOf(s, p)
  }

  ghost predicate WakeCovers(c: Config, s: State, wake: Duration, p: PeerId, now: Instant) {
    forall r :: r in Waiting(s, p) && !TimedOut(now, r.created, 2 * c.queryTimeout) ==>
      wake <= 2 * c.queryTimeout - Elapsed(now, r.created)
  }

  lemma SweepPeerIs(c: Config, w: Sweep, p: PeerId, now: Instant)
    requires p in w.s.pending
    ensures var n := SweepPeer(c, w, p, now);
            && PeerSwept(c, w.s, n.s, p, now) && SameRest(w.s, n.s)
            && (forall q :: q != p ==> PeerSame(w.s, n.s, q))
            && n.wake <= w.wake && (w.wake > 0 ==> n.wake > 0) && WakeCovers(c, w.s, n.wake, p, now)
            && n.s.answers == w.s.answers + Answers(Expired(w.s.pending[p], now, 2 * c.queryTimeout), PeerTimedOut)
  {
    WakeForCovers(w.wake, w.s.pending[p], now, 2 * c.queryTimeout);
  }

  lemma {:induction false} SweepPendingIs(c: Config, w: Sweep, order: seq<PeerId>, now: Instant)
    requires Distinct(order) && forall p :: p in order ==> p in w.s.pending
    ensures var n := SweepPending(c, w, order, now);
            && SameRest(w.s, n.s)
            && (forall p :: p in order ==> PeerSwept(c, w.s, n.s, p, now) && WakeCovers(c, w.s, n.wake, p, now))
            && (forall p :: p !in order ==> PeerSame(w.s, n.s, p))
            && n.wake <= w.wake && (w.wake > 0 ==> n.wake > 0)
  {
    if order != [] {
      var init, last := order[..|order| - 1], order[|order| - 1];
      assert order == init + [last];
      assert last !in init;
      SweepPendingIs(c, w, init, now);
      var m := SweepPending(c, w, init, now);
      assert PeerSame(w.s, m.s, last);
      SweepPeerIs(c, m, last, now);
      var n := SweepPending(c, w, order, now);
      assert n == SweepPeer(c, m, last, now);
      forall p | p in order ensures PeerSwept(c, w.s, n.s, p, now) && WakeCovers(c, w.s, n.wake, p, now) {
        if p != last { assert PeerSame(m.s, n.s, p); }
      }
      forall p | p !in order ensures PeerSame(w.s, n.s, p) {
        assert PeerSame(m.s, n.s, p) && PeerSame(w.s, m.s, p);
      }
    }
  }

  /** What a ban sweep leaves of an entry. */
  function AfterBan(c: Config, f: Option<Failed>, now: Instant): Option<Failed> {
    if f.None? || Unbans(c, f.value, now) then None else Some(Stamped(c, f.value, now))
  }

  lemma {:induction false} SweepBansIs(c: Config, w: Sweep, order: seq<PeerId>, now: Instant)
    requires Distinct(order) && forall p :: p in order ==> p in w.s.failed
    ensures var n := SweepBans(c, w, order, now);
            && SameRest(w.s, n.s) && n.s.pending == w.s.pending && n.s.answers == w.s.answers
            && (forall p ::
                  FailedOf(n.s, p) == if p in order then AfterBan(c, FailedOf(w.s, p), now) else FailedOf(w.s, p))
            && n.wake <= w.wake && (w.wake > 0 ==> n.wake > 0)
  {
    if order != [] {
      var init, last := order[..|order| - 1], order[|order| - 1];
      assert order == init + [last];
      assert last !in init;
      SweepBansIs(c, w, init, now);
      assert FailedOf(SweepBans(c, w, init, now).s, last) == FailedOf(w.s, last);
    }
  }

  // ---------------------------------------------------------------- a full poll

  /** What a full poll has done to one peer. */
  ghost predicate PeerPolled(c: Config, s: State, n: State, p: PeerId, now: Instant) {
    && Waiting(n, p) == Alive(Waiting(s, p), now, 2 * c.queryTimeout)
    && (p in n.pending ==> n.pending[p] != [])
    && FailedOf(n, p) ==
         AfterBan(c, AfterSweep(FailedOf(s, p), Expired(Waiting(s, p), now, 2 * c.queryTimeout) != []), now)
    && (forall r :: r in Waiting(s, p) && !TimedOut(now, r.created, 2 * c.queryTimeout) ==>
          n.timer <= now + 2 * c.queryTimeout - Elapsed(now, r.created))
  }

  lemma PollIs(c: Config, s: State, now: Instant, pendingOrder: seq<PeerId>, failedOrder: seq<PeerId>)
    requires Allowed(c, s, DoPoll(now, pendingOrder, failedOrder)) && !Idle(s)
    ensures var n := Poll(c, s, now, pendingOrder, failedOrder);
            && (forall p :: PeerPolled(c, s, n, p, now))
            && n.queries == s.queries && n.issued == s.issued && n.lastPoll == Some(now) && n.clock == now
            && now <= n.timer <= now + Min(c.queryTimeout, c.banCooldown)
            && (c.queryTimeout > 0 && c.banCooldown > 0 ==> now < n.timer)
            && n.answers == Swept(c, s, now, pendingOrder).s.answers
  {
    var start := Sweep(s, Min(c.queryTimeout, c.banCooldown));
    var w := Swept(c, s, now, pendingOrder);
    assert w == SweepPending(c, start, pendingOrder, now);
    SweepPendingIs(c, start, pendingOrder, now);
    SweepBansIs(c, w, failedOrder, now);
    var n := Poll(c, s, now, pendingOrder, failedOrder);
    forall p ensures PeerPolled(c, s, n, p, now) {
      if p in pendingOrder {
        assert PeerSwept(c, s, w.s, p, now) && WakeCovers(c, s, w.wake, p, now);
      } else {
        assert p !in s.pending;
        assert PeerSame(s, w.s, p);
      }
    }
  }

  // ---------------------------------------------------------------- invariants

  /** How often a request has been answered. */
  function Replies(answers: seq<Answer>, o: Out): nat {
    if answers == [] then 0
    else Replies(answers[..|answers| - 1], o) + if answers[|answers| - 1].out == o then 1 else 0
  }

  lemma {:induction false} RepliesSum(a: seq<Answer>, b: seq<Answer>, o: Out)
    ensures Replies(a + b, o) == Replies(a, o) + Replies(b, o)
  {
    if b == [] {
      assert a + b == a;
    } else {
      RepliesSum(a, b[..|b| - 1], o);
      assert (a + b)[..|a + b| - 1] == a + b[..|b| - 1];
    }
  }

  lemma {:induction false} AnswersCount(pending: seq<Pending>, outcome: Outcome, o: Out)
    ensures Replies(Answers(pending, outcome), o) == Waits(pending, o)
  {
    if pending != [] {
      var init, last := pending[..|pending| - 1], pending[|pending| - 1];
      AnswersCount(init, outcome, o);
      var rest := Answers(init, outcome);
      assert (rest + [Answer(last.out, outcome)])[..|rest|] == rest;
    }
  }

  lemma {:induction false} AnswersAre(pending: seq<Pending>, outcome: Outcome)
    ensures |Answers(pending, outcome)| == |pending|
    ensures forall i :: 0 <= i < |pending| ==> Answers(pending, outcome)[i] == Answer(pending[i].out, outcome)
  {
    if pending != [] { AnswersAre(pending[..|pending| - 1], outcome); }
  }

  /** The places of a request: its answers, and where it waits for its peer. */
  ghost predicate Once(s: State, o: Out) {
    && o in s.issued
    && Replies(s.answers, o) + Waits(Waiting(s, s.issued[o].peer), o) == 1
  }

  ghost predicate WaitsForIts(s: State, p: PeerId) {
    forall r :: r in Waiting(s, p) ==> r.out in s.issued && s.issued[r.out] == Request(p, r.created)
  }

  /** Every request is answered exactly once or waits exactly once, and then
      for the peer it asked about. */
  ghost predicate Ledger(s: State) {
    && (forall o :: o in s.issued ==> Once(s, o))
    && (forall o :: Replies(s.answers, o) > 0 ==> o in s.issued)
    && (forall p :: WaitsForIts(s, p))
  }

  ghost predicate PendingOk(s: State) {
    && (forall p :: p in s.pending ==> s.pending[p] != [])
    && (forall o :: o in s.issued ==> s.issued[o].created <= s.clock)
  }

  /** Every ban carries the time of the last full poll. */
  ghost predicate BansOk(c: Config, s: State) {
    && (s.lastPoll.Some? ==> s.lastPoll.value <= s.clock)
    && forall p :: Banned(s.failed, p) ==> s.failed[p].count >= c.failThreshold && s.failed[p].ban == s.lastPoll
  }

  /** The timer is armed for no later than any deadline. */
  ghost predicate TimerOk(c: Config, s: State) {
    && s.timer <= s.clock + c.queryTimeout
    && (forall p, r :: r in Waiting(s, p) ==> s.timer <= r.created + 2 * c.queryTimeout)
    && (forall p :: Banned(s.failed, p) ==>
          s.lastPoll.Some? && s.timer <= s.lastPoll.value + Min(c.queryTimeout, c.banCooldown))
  }

  ghost predicate Inv(c: Config, s: State) {
    Ledger(s) && PendingOk(s) && BansOk(c, s) && TimerOk(c, s)
  }

  // ---------------------------------------------------------------- the ledger over the steps

  /** Part of one list is answered, the rest stays. */
  ghost predicate Flushed(s: State, n: State, p: PeerId, gone: seq<Pending>, outcome: Outcome) {
    && n.issued == s.issued && n.answers == s.answers + Answers(gone, outcome)
    && (forall o :: Waits(gone, o) + Waits(Waiting(n, p), o) == Waits(Waiting(s, p), o))
    && (forall r :: r in Waiting(n, p) ==> r in Waiting(s, p))
    && (forall q :: q != p ==> Waiting(n, q) == Waiting(s, q))
  }

  lemma FlushedOnce(s: State, n: State, p: PeerId, gone: seq<Pending>, outcome: Outcome, o: Out)
    requires Ledger(s) && Flushed(s, n, p, gone, outcome)
    ensures Replies(n.answers, o) == Replies(s.answers, o) + Waits(gone, o)
    ensures Waits(gone, o) > 0 ==> o in s.issued && s.issued[o].peer == p
  {
    RepliesSum(s.answers, Answers(gone, outcome), o);
    AnswersCount(gone, outcome, o);
    if Waits(gone, o) > 0 {
      assert Waits(Waiting(s, p), o) > 0;
      WaitsHas(Waiting(s, p), o);
      assert WaitsForIts(s, p);
    }
  }

  lemma FlushedLedger(s: State, n: State, p: PeerId, gone: seq<Pending>, outcome: Outcome)
    requires Ledger(s) && Flushed(s, n, p, gone, outcome)
    ensures Ledger(n)
  {
    forall o ensures (o in n.issued ==> Once(n, o)) && (Replies(n.answers, o) > 0 ==> o in n.issued) {
      FlushedOnce(s, n, p, gone, outcome, o);
      if o in s.issued { assert Once(s, o); }
    }
    forall q ensures WaitsForIts(n, q) { assert WaitsForIts(s, q); }
  }

  ghost predicate Enqueued(s: State, n: State, p: PeerId, r: Pending) {
    && r.out !in s.issued && n.issued == s.issued[r.out := Request(p, r.created)]
    && n.answers == s.answers
    && Waiting(n, p) == Waiting(s, p) + [r]
    && (forall q :: q != p ==> Waiting(n, q) == Waiting(s, q))
  }

  lemma EnqueuedLedger(s: State, n: State, p: PeerId, r: Pending)
    requires Ledger(s) && Enqueued(s, n, p, r)
    ensures Ledger(n)
  {
    forall o | o in n.issued ensures Once(n, o) { EnqueuedOnce(s, n, p, r, o); }
    forall q ensures WaitsForIts(n, q) { assert WaitsForIts(s, q); }
  }

  lemma EnqueuedOnce(s: State, n: State, p: PeerId, r: Pending, o: Out)
    requires Ledger(s) && Enqueued(s, n, p, r) && o in n.issued
    ensures Once(n, o)
  {
    WaitsOneMore(Waiting(s, p), r, o);
    if o == r.out {
      assert WaitsForIts(s, p);
      WaitsHas(Waiting(s, p), o);
    } else {
      assert Once(s, o);
    }
  }

  ghost predicate Replied(s: State, n: State, p: PeerId, a: Answer, now: Instant) {
    && a.out !in s.issued && n.issued == s.issued[a.out := Request(p, now)]
    && n.answers == s.answers + [a] && n.pending == s.pending
  }

  lemma RepliedLedger(s: State, n: State, p: PeerId, a: Answer, now: Instant)
    requires Ledger(s) && Replied(s, n, p, a, now)
    ensures Ledger(n)
  {
    assert WaitsForIts(s, p);
    WaitsHas(Waiting(s, p), a.out);
    assert n.answers[..|n.answers| - 1] == s.answers;
    forall o | o in n.issued ensures Once(n, o) {
      if o != a.out { assert Once(s, o); }
    }
    forall q ensures WaitsForIts(n, q) { assert WaitsForIts(s, q); }
  }

  lemma DiscoverLedger(s: State, out: Out, peer: PeerId, local: seq<Addr>, id: QueryId, now: Instant)
    requires Ledger(s) && out !in s.issued
    ensures Ledger(Discover(s, out, peer, local, id, now))
  {
    var n := Discover(s, out, peer, local, id, now);
    if local != [] {
      RepliedLedger(s, n, peer, Answer(out, Found(local)), now);
    } else if Banned(s.failed, peer) {
      RepliedLedger(s, n, peer, Answer(out, PeerBanned), now);
    } else {
      EnqueuedLedger(s, n, peer, Pending(out, now));
    }
  }

  lemma PeerDiscoveredLedger(s: State, peer: PeerId, addresses: seq<Addr>)
    requires Ledger(s)
    ensures Ledger(PeerDiscovered(s, peer, addresses))
  {
    var n := PeerDiscovered(s, peer, addresses);
    assert n.answers == s.answers + Answers(Waiting(s, peer), Found(addresses));
    assert Flushed(s, n, peer, Waiting(s, peer), Found(addresses));
    FlushedLedger(s, n, peer, Waiting(s, peer), Found(addresses));
  }

  lemma SweepPeerLedger(c: Config, w: Sweep, p: PeerId, now: Instant)
    requires Ledger(w.s) && p in w.s.pending
    ensures Ledger(SweepPeer(c, w, p, now).s)
  {
    var n, t := SweepPeer(c, w, p, now), 2 * c.queryTimeout;
    SweepPeerIs(c, w, p, now);
    var gone := Expired(w.s.pending[p], now, t);
    assert Flushed(w.s, n.s, p, gone, PeerTimedOut) by {
      forall o ensures Waits(gone, o) + Waits(Waiting(n.s, p), o) == Waits(Waiting(w.s, p), o) {
        DrainSplits(w.s.pending[p], now, t, o);
      }
      DrainIs(w.s.pending[p], now, t);
      assert forall q :: q != p ==> PeerSame(w.s, n.s, q);
    }
    FlushedLedger(w.s, n.s, p, gone, PeerTimedOut);
  }

  lemma {:induction false} SweepPendingLedger(c: Config, w: Sweep, order: seq<PeerId>, now: Instant)
    requires Ledger(w.s)
    ensures Ledger(SweepPending(c, w, order, now).s)
  {
    if order != [] {
      var m := SweepPending(c, w, order[..|order| - 1], now);
      SweepPendingLedger(c, w, order[..|order| - 1], now);
      if order[|order| - 1] in m.s.pending { SweepPeerLedger(c, m, order[|order| - 1], now); }
    }
  }

  lemma SameLedger(s: State, n: State)
    requires Ledger(s) && n.issued == s.issued && n.answers == s.answers && n.pending == s.pending
    ensures Ledger(n)
  {
    forall o | o in n.issued ensures Once(n, o) { assert Once(s, o); }
    forall p ensures WaitsForIts(n, p) { assert WaitsForIts(s, p); }
  }

  lemma PollLedger(c: Config, s: State, now: Instant, pendingOrder: seq<PeerId>, failedOrder: seq<PeerId>)
    requires Ledger(s) && Allowed(c, s, DoPoll(now, pendingOrder, failedOrder))
    ensures Ledger(Poll(c, s, now, pendingOrder, failedOrder))
  {
    var n := Poll(c, s, now, pendingOrder, failedOrder);
    if Idle(s) {
      SameLedger(s, n);
    } else {
      var w := Swept(c, s, now, pendingOrder);
      SweepPendingLedger(c, Sweep(s, Min(c.queryTimeout, c.banCooldown)), pendingOrder, now);
      SweepBansIs(c, w, failedOrder, now);
      SweepPendingIs(c, Sweep(s, Min(c.queryTimeout, c.banCooldown)), pendingOrder, now);
      SameLedger(w.s, n);
    }
  }

  // ---------------------------------------------------------------- the other invariants

  lemma DiscoverTimer(c: Config, s: State, out: Out, peer: PeerId, local: seq<Addr>, id: QueryId, now: Instant)
    requires TimerOk(c, s) && s.clock <= now
    ensures TimerOk(c, Discover(s, out, peer, local, id, now))
  {
    var n := Discover(s, out, peer, local, id, now);
    forall p, r | r in Waiting(n, p) ensures s.timer <= r.created + 2 * c.queryTimeout {
      if r !in Waiting(s, p) { assert r == Pending(out, now); }
    }
  }

  lemma DiscoverKeeps(c: Config, s: State, out: Out, peer: PeerId, local: seq<Addr>, id: QueryId, now: Instant)
    requires Inv(c, s) && out !in s.issued && s.clock <= now
    ensures Inv(c, Discover(s, out, peer, local, id, now))
  {
    DiscoverLedger(s, out, peer, local, id, now);
    DiscoverTimer(c, s, out, peer, local, id, now);
    DiscoverBans(c, s, out, peer, local, id, now);
    DiscoverPending(s, out, peer, local, id, now);
  }

  lemma DiscoverBans(c: Config, s: State, out: Out, peer: PeerId, local: seq<Addr>, id: QueryId, now: Instant)
    requires BansOk(c, s) && s.clock <= now
    ensures BansOk(c, Discover(s, out, peer, local, id, now))
  {
    var n := Discover(s, out, peer, local, id, now);
    assert n.failed == s.failed && n.lastPoll == s.lastPoll && n.clock == now;
  }

  lemma DiscoverPending(s: State, out: Out, peer: PeerId, local: seq<Addr>, id: QueryId, now: Instant)
    requires PendingOk(s) && s.clock <= now
    ensures PendingOk(Discover(s, out, peer, local, id, now))
  {
  }

  lemma PeerDiscoveredKeeps(c: Config, s: State, peer: PeerId, addresses: seq<Addr>)
    requires Inv(c, s)
    ensures Inv(c, PeerDiscovered(s, peer, addresses))
  {
    PeerDiscoveredLedger(s, peer, addresses);
    var n := PeerDiscovered(s, peer, addresses);
    assert forall p, r :: r in Waiting(n, p) ==> r in Waiting(s, p);
  }

  lemma ClosestFinishedKeeps(c: Config, s: State, id: QueryId, addresses: seq<Addr>)
    requires Inv(c, s)
    ensures Inv(c, ClosestFinished(s, id, addresses))
  {
    if id in s.queries {
      var n := s.(queries := s.queries - {id});
      SameLedger(s, n);
      assert forall p :: Waiting(n, p) == Waiting(s, p);
      assert Inv(c, n);
      if addresses != [] { PeerDiscoveredKeeps(c, n, s.queries[id], addresses); }
    }
  }

  lemma PollTimer(c: Config, s: State, now: Instant, pendingOrder: seq<PeerId>, failedOrder: seq<PeerId>)
    requires Inv(c, s) && Allowed(c, s, DoPoll(now, pendingOrder, failedOrder)) && !Idle(s)
    ensures TimerOk(c, Poll(c, s, now, pendingOrder, failedOrder))
  {
    var n := Poll(c, s, now, pendingOrder, failedOrder);
    PollIs(c, s, now, pendingOrder, failedOrder);
    forall p, r | r in Waiting(n, p) ensures n.timer <= r.created + 2 * c.queryTimeout {
      assert PeerPolled(c, s, n, p, now);
      DrainIs(Waiting(s, p), now, 2 * c.queryTimeout);
    }
  }

  lemma PollBans(c: Config, s: State, now: Instant, pendingOrder: seq<PeerId>, failedOrder: seq<PeerId>)
    requires BansOk(c, s) && Allowed(c, s, DoPoll(now, pendingOrder, failedOrder)) && !Idle(s)
    ensures BansOk(c, Poll(c, s, now, pendingOrder, failedOrder))
  {
    var n := Poll(c, s, now, pendingOrder, failedOrder);
    PollIs(c, s, now, pendingOrder, failedOrder);
    forall p | Banned(n.failed, p) ensures n.failed[p].count >= c.failThreshold && n.failed[p].ban == n.lastPoll {
      assert PeerPolled(c, s, n, p, now);
      if p in s.failed { assert Banned(s.failed, p) || s.failed[p].ban.None?; }
    }
  }

  lemma PollKeeps(c: Config, s: State, now: Instant, pendingOrder: seq<PeerId>, failedOrder: seq<PeerId>)
    requires Inv(c, s) && Allowed(c, s, DoPoll(now, pendingOrder, failedOrder))
    ensures Inv(c, Poll(c, s, now, pendingOrder, failedOrder))
  {
    PollLedger(c, s, now, pendingOrder, failedOrder);
    if !Idle(s) {
      PollTimer(c, s, now, pendingOrder, failedOrder);
      PollBans(c, s, now, pendingOrder, failedOrder);
      PollIs(c, s, now, pendingOrder, failedOrder);
      var n := Poll(c, s, now, pendingOrder, failedOrder);
      forall p | p in n.pending ensures n.pending[p] != [] { assert PeerPolled(c, s, n, p, now); }
    }
  }

  lemma ApplyKeeps(c: Config, s: State, step: Step)
    requires Inv(c, s) && Allowed(c, s, step)
    ensures Inv(c, Apply(c, s, step))
  {
    match step
    case DoDiscover(out, peer, local, id, now) => DiscoverKeeps(c, s, out, peer, local, id, now);
    case OnRouting(peer, addresses) => PeerDiscoveredKeeps(c, s, peer, addresses);
    case OnQuery(id, addresses) => ClosestFinishedKeeps(c, s, id, addresses);
    case DoPoll(now, pendingOrder, failedOrder) => PollKeeps(c, s, now, pendingOrder, failedOrder);
  }

  lemma {:induction false} RunKeeps(c: Config, steps: seq<Step>)
    requires ValidRun(c, steps)
    ensures Inv(c, Run(c, steps))
  {
    if steps != [] {
      RunKeeps(c, steps[..|steps| - 1]);
      ApplyKeeps(c, Run(c, steps[..|steps| - 1]), steps[|steps| - 1]);
    }
  }

  // ---------------------------------------------------------------- main theorems

  /** In every state of every run each request has been answered exactly once
      or waits exactly once, in the list of its peer; no list is empty. */
  lemma RequestLedger(c: Config, steps: seq<Step>)
    requires ValidRun(c, steps)
    ensures Ledger(Run(c, steps)) && PendingOk(Run(c, steps))
  {
    RunKeeps(c, steps);
  }

  /** In every state of every run the wake-up timer is armed for no later than
      the deadline of any waiting request and of any ban. */
  lemma WakeUpCoversDeadlines(c: Config, steps: seq<Step>)
    requires ValidRun(c, steps)
    ensures var s := Run(c, steps);
            && (forall p, r :: p in s.pending && r in s.pending[p] ==> s.timer <= r.created + 2 * c.queryTimeout)
            && (forall p :: Banned(s.failed, p) ==>
                  s.timer <= s.failed[p].ban.value + c.banCooldown && s.failed[p].count >= c.failThreshold)
  {
    RunKeeps(c, steps);
    var s := Run(c, steps);
    assert forall p :: p in s.pending ==> Waiting(s, p) == s.pending[p];
  }

  /** A request is due when it has waited for twice the query time-out. */
  ghost predicate Due(c: Config, s: State, o: Out, now: Instant) {
    && o in s.issued
    && (exists r :: r in Waiting(s, s.issued[o].peer) && r.out == o)
    && now - s.issued[o].created >= 2 * c.queryTimeout
  }

  ghost predicate Told(s: State, n: State, o: Out) {
    exists i :: |s.answers| <= i < |n.answers| && n.answers[i] == Answer(o, PeerTimedOut)
  }

  /** The requests that still wait are those that waited and are not due. */
  ghost predicate OnlyYounger(c: Config, s: State, n: State, p: PeerId, now: Instant) {
    forall r :: r in Waiting(n, p) <==> r in Waiting(s, p) && now - r.created < 2 * c.queryTimeout
  }

  /** A new answer that a sweep of the given peers may send. */
  ghost predicate Deserved(c: Config, s: State, order: seq<PeerId>, now: Instant, a: Answer) {
    exists p, r ::
      p in order && r in Expired(Waiting(s, p), now, 2 * c.queryTimeout) && a == Answer(r.out, PeerTimedOut)
  }

  /** The answers of a sweep over one more peer. */
  lemma SweepOneMore(c: Config, w: Sweep, order: seq<PeerId>, now: Instant)
    requires order != [] && Distinct(order) && forall p :: p in order ==> p in w.s.pending
    ensures var init, last := order[..|order| - 1], order[|order| - 1];
            SweepPending(c, w, order, now).s.answers == SweepPending(c, w, init, now).s.answers
              + Answers(Expired(Waiting(w.s, last), now, 2 * c.queryTimeout), PeerTimedOut)
  {
    var init, last := order[..|order| - 1], order[|order| - 1];
    assert last !in init;
    SweepPendingIs(c, w, init, now);
    assert PeerSame(w.s, SweepPending(c, w, init, now).s, last);
  }

  /** A sweep answers only expired requests of its peers. */
  lemma {:induction false} SweepAnswersOnly(c: Config, w: Sweep, order: seq<PeerId>, now: Instant)
    requires Distinct(order) && forall p :: p in order ==> p in w.s.pending
    ensures var n := SweepPending(c, w, order, now);
            && w.s.answers <= n.s.answers
            && (forall i :: |w.s.answers| <= i < |n.s.answers| ==> Deserved(c, w.s, order, now, n.s.answers[i]))
  {
    if order != [] {
      var init, last := order[..|order| - 1], order[|order| - 1];
      SweepAnswersOnly(c, w, init, now);
      SweepOneMore(c, w, order, now);
      var m, n := SweepPending(c, w, init, now), SweepPending(c, w, order, now);
      var expired := Expired(Waiting(w.s, last), now, 2 * c.queryTimeout);
      AnswersAre(expired, PeerTimedOut);
      forall i | |w.s.answers| <= i < |n.s.answers| ensures Deserved(c, w.s, order, now, n.s.answers[i]) {
        if i >= |m.s.answers| {
          assert expired[i - |m.s.answers|] in expired;
        } else {
          assert Deserved(c, w.s, init, now, m.s.answers[i]);
        }
      }
    }
  }

  /** A sweep answers every expired request of its peers. */
  lemma {:induction false} SweepAnswersAll(c: Config, w: Sweep, order: seq<PeerId>, now: Instant, p: PeerId, r: Pending)
    requires Distinct(order) && forall q :: q in order ==> q in w.s.pending
    requires p in order && r in Expired(Waiting(w.s, p), now, 2 * c.queryTimeout)
    ensures w.s.answers <= SweepPending(c, w, order, now).s.answers
    ensures Told(w.s, SweepPending(c, w, order, now).s, r.out)
  {
    var init, last := order[..|order| - 1], order[|order| - 1];
    SweepOneMore(c, w, order, now);
    SweepAnswersOnly(c, w, init, now);
    var m, n := SweepPending(c, w, init, now), SweepPending(c, w, order, now);
    if p == last {
      var expired := Expired(Waiting(w.s, last), now, 2 * c.queryTimeout);
      AnswersAre(expired, PeerTimedOut);
      var k :| 0 <= k < |expired| && expired[k] == r;
      assert n.s.answers[|m.s.answers| + k] == Answer(r.out, PeerTimedOut);
    } else {
      SweepAnswersAll(c, w, init, now, p, r);
      var i :| |w.s.answers| <= i < |m.s.answers| && m.s.answers[i] == Answer(r.out, PeerTimedOut);
      assert n.s.answers[i] == m.s.answers[i];
    }
  }

  /** The new answers are time-outs of due requests. */
  ghost predicate OnlyDueTold(c: Config, s: State, n: State, now: Instant) {
    && s.answers <= n.answers
    && forall i :: |s.answers| <= i < |n.answers| ==>
         n.answers[i].outcome == PeerTimedOut && Due(c, s, n.answers[i].out, now)
  }

  /** A poll answers exactly the due requests, each with a time-out, and leaves
      only younger ones; if anything remains to be watched and the settings are
      positive, the next wake-up lies in the future. */
  lemma PollAnswersExactlyTheDue(c: Config, steps: seq<Step>, now: Instant,
                                 pendingOrder: seq<PeerId>, failedOrder: seq<PeerId>)
    requires ValidRun(c, steps) && Allowed(c, Run(c, steps), DoPoll(now, pendingOrder, failedOrder))
    ensures var s, n := Run(c, steps), Poll(c, Run(c, steps), now, pendingOrder, failedOrder);
            && OnlyDueTold(c, s, n, now)
            && (forall o :: Due(c, s, o, now) ==> Told(s, n, o))
            && (forall p :: OnlyYounger(c, s, n, p, now))
            && (!Idle(s) && c.queryTimeout > 0 && c.banCooldown > 0 ==> now < n.timer)
  {
    RunKeeps(c, steps);
    var s := Run(c, steps);
    PollTellsOnlyDue(c, s, now, pendingOrder, failedOrder);
    PollTellsAllDue(c, s, now, pendingOrder, failedOrder);
    PollLeavesYounger(c, s, now, pendingOrder, failedOrder);
    if !Idle(s) { PollIs(c, s, now, pendingOrder, failedOrder); }
  }

  lemma PollLeavesYounger(c: Config, s: State, now: Instant, pendingOrder: seq<PeerId>, failedOrder: seq<PeerId>)
    requires Inv(c, s) && Allowed(c, s, DoPoll(now, pendingOrder, failedOrder))
    ensures forall p :: OnlyYounger(c, s, Poll(c, s, now, pendingOrder, failedOrder), p, now)
  {
    var n := Poll(c, s, now, pendingOrder, failedOrder);
    if Idle(s) {
      assert forall p :: Waiting(s, p) == [] && Waiting(n, p) == [];
    } else {
      PollIs(c, s, now, pendingOrder, failedOrder);
      forall p ensures OnlyYounger(c, s, n, p, now) {
        DrainIs(Waiting(s, p), now, 2 * c.queryTimeout);
        assert PeerPolled(c, s, n, p, now) && WaitsForIts(s, p);
      }
    }
  }

  lemma DeservedIsDue(c: Config, s: State, order: seq<PeerId>, now: Instant, a: Answer)
    requires Inv(c, s) && s.clock <= now && Deserved(c, s, order, now, a)
    ensures a.outcome == PeerTimedOut && Due(c, s, a.out, now)
  {
    var p, r :| p in order && r in Expired(Waiting(s, p), now, 2 * c.queryTimeout) && a == Answer(r.out, PeerTimedOut);
    DrainIs(Waiting(s, p), now, 2 * c.queryTimeout);
    assert WaitsForIts(s, p) && r in Waiting(s, p);
  }

  lemma PollTellsOnlyDue(c: Config, s: State, now: Instant, pendingOrder: seq<PeerId>, failedOrder: seq<PeerId>)
    requires Inv(c, s) && Allowed(c, s, DoPoll(now, pendingOrder, failedOrder))
    ensures OnlyDueTold(c, s, Poll(c, s, now, pendingOrder, failedOrder), now)
  {
    if !Idle(s) {
      var n := Poll(c, s, now, pendingOrder, failedOrder);
      PollIs(c, s, now, pendingOrder, failedOrder);
      SweepAnswersOnly(c, Sweep(s, Min(c.queryTimeout, c.banCooldown)), pendingOrder, now);
      forall i | |s.answers| <= i < |n.answers|
        ensures n.answers[i].outcome == PeerTimedOut && Due(c, s, n.answers[i].out, now)
      {
        DeservedIsDue(c, s, pendingOrder, now, n.answers[i]);
      }
    }
  }

  lemma DueIsExpired(c: Config, s: State, now: Instant, o: Out) returns (p: PeerId, r: Pending)
    requires Inv(c, s) && s.clock <= now && Due(c, s, o, now)
    ensures p in s.pending && r in Expired(Waiting(s, p), now, 2 * c.queryTimeout) && r.out == o
  {
    p := s.issued[o].peer;
    r :| r in Waiting(s, p) && r.out == o;
    DrainIs(Waiting(s, p), now, 2 * c.queryTimeout);
    assert WaitsForIts(s, p);
  }

  lemma PollTellsAllDue(c: Config, s: State, now: Instant, pendingOrder: seq<PeerId>, failedOrder: seq<PeerId>)
    requires Inv(c, s) && Allowed(c, s, DoPoll(now, pendingOrder, failedOrder))
    ensures forall o :: Due(c, s, o, now) ==> Told(s, Poll(c, s, now, pendingOrder, failedOrder), o)
  {
    forall o | Due(c, s, o, now) ensures Told(s, Poll(c, s, now, pendingOrder, failedOrder), o) {
      var p, r := DueIsExpired(c, s, now, o);
      PollIs(c, s, now, pendingOrder, failedOrder);
      SweepAnswersAll(c, Sweep(s, Min(c.queryTimeout, c.banCooldown)), pendingOrder, now, p, r);
    }
  }

  // ---------------------------------------------------------------- what replies mean

  /** The reasons for a reply: addresses that are known or were found for the
      peer of the request, a ban when no address is known, or a request that is due. */
  ghost predicate Justified(c: Config, s: State, step: Step, a: Answer) {
    match step
    case DoDiscover(out, peer, local, _, _) =>
      && a.out == out
      && a.outcome == (if local != [] then Found(local) else PeerBanned)
      && (local == [] ==> Banned(s.failed, peer))
    case OnRouting(peer, addresses) => a.outcome == Found(addresses) && Asked(s, a.out, peer)
    case OnQuery(id, addresses) =>
      a.outcome == Found(addresses) && addresses != [] && id in s.queries && Asked(s, a.out, s.queries[id])
    case DoPoll(now, _, _) => a.outcome == PeerTimedOut && Due(c, s, a.out, now)
  }

  ghost predicate Asked(s: State, o: Out, peer: PeerId) {
    o in s.issued && s.issued[o].peer == peer
  }

  lemma DiscoveredAnswers(s: State, peer: PeerId, addresses: seq<Addr>, i: nat)
    requires Ledger(s) && |s.answers| <= i < |PeerDiscovered(s, peer, addresses).answers|
    ensures var a := PeerDiscovered(s, peer, addresses).answers[i];
            a.outcome == Found(addresses) && Asked(s, a.out, peer)
  {
    var waiting := Waiting(s, peer);
    AnswersAre(waiting, Found(addresses));
    assert WaitsForIts(s, peer) && waiting[i - |s.answers|] in waiting;
  }

  lemma AnswerStep(c: Config, s: State, step: Step, i: nat)
    requires Inv(c, s) && Allowed(c, s, step) && |s.answers| <= i < |Apply(c, s, step).answers|
    ensures Justified(c, s, step, Apply(c, s, step).answers[i])
  {
    match step
    case DoDiscover(out, peer, local, id, now) =>
    case OnRouting(peer, addresses) => DiscoveredAnswers(s, peer, addresses, i);
    case OnQuery(id, addresses) =>
      var n := s.(queries := s.queries - {id});
      SameLedger(s, n);
      DiscoveredAnswers(n, s.queries[id], addresses, i);
    case DoPoll(now, pendingOrder, failedOrder) => PollTellsOnlyDue(c, s, now, pendingOrder, failedOrder);
  }

  /** In every run, every reply has one of those reasons at the step that sends it. */
  lemma RepliesAreJustified(c: Config, steps: seq<Step>, step: Step, i: nat)
    requires ValidRun(c, steps + [step]) && |Run(c, steps).answers| <= i < |Run(c, steps + [step]).answers|
    ensures Justified(c, Run(c, steps), step, Run(c, steps + [step]).answers[i])
  {
    assert (steps + [step])[..|steps|] == steps;
    RunKeeps(c, steps);
    AnswerStep(c, Run(c, steps), step, i);
  }

  // ---------------------------------------------------------------- bans

  /** The events that end a ban: the peer is found, or a poll comes at least
      the cooldown after the previous full poll. */
  predicate Releases(c: Config, s: State, step: Step, p: PeerId) {
    match step
    case DoDiscover(_, _, _, _, _) => false
    case OnRouting(peer, _) => peer == p
    case OnQuery(id, addresses) => id in s.queries && s.queries[id] == p && addresses != []
    case DoPoll(now, _, _) => s.lastPoll.Some? && now - s.lastPoll.value >= c.banCooldown
  }

  lemma BanStep(c: Config, s: State, step: Step, p: PeerId)
    requires Inv(c, s) && Allowed(c, s, step) && Banned(s.failed, p)
    ensures Banned(Apply(c, s, step).failed, p) <==> !Releases(c, s, step, p)
    ensures !Banned(Apply(c, s, step).failed, p) ==> p !in Apply(c, s, step).failed
  {
    if step.DoPoll? {
      PollIs(c, s, step.now, step.pendingOrder, step.failedOrder);
      assert PeerPolled(c, s, Apply(c, s, step), p, step.now);
    }
  }

  /** A ban ends in a step exactly when that step releases the peer: time since
      the ban was first imposed plays no part, only the gap between polls. */
  lemma BanEndsIffReleased(c: Config, steps: seq<Step>, step: Step, p: PeerId)
    requires ValidRun(c, steps + [step]) && Banned(Run(c, steps).failed, p)
    ensures Banned(Run(c, steps + [step]).failed, p) <==> !Releases(c, Run(c, steps), step, p)
  {
    assert (steps + [step])[..|steps|] == steps;
    RunKeeps(c, steps);
    BanStep(c, Run(c, steps), step, p);
  }

  /** Polls that come no later than the armed timer. */
  predicate Punctual(s: State, step: Step) {
    step.DoPoll? ==> step.now <= s.timer
  }

  predicate Finds(s: State, step: Step, p: PeerId) {
    || (step.OnRouting? && step.peer == p)
    || (step.OnQuery? && step.id in s.queries && s.queries[step.id] == p && step.addresses != [])
  }

  /** With a cooldown longer than the query time-out, polls that come by the
      armed timer never lift a ban, however long it lasts: the peer stays
      banned until it is found. */
  lemma {:induction false} PunctualPollsNeverUnban(c: Config, steps: seq<Step>, k: nat, p: PeerId)
    requires ValidRun(c, steps) && k <= |steps| && c.queryTimeout < c.banCooldown
    requires Banned(Run(c, steps[..k]).failed, p)
    requires forall i :: k <= i < |steps| ==>
               Punctual(Run(c, steps[..i]), steps[i]) && !Finds(Run(c, steps[..i]), steps[i], p)
    ensures Banned(Run(c, steps).failed, p)
  {
    if k == |steps| {
      assert steps[..k] == steps;
    } else {
      var init, last := steps[..|steps| - 1], steps[|steps| - 1];
      assert init[..k] == steps[..k];
      assert forall i :: k <= i < |init| ==> init[..i] == steps[..i];
      PunctualPollsNeverUnban(c, init, k, p);
      RunKeeps(c, init);
      assert Punctual(Run(c, init), last) && !Finds(Run(c, init), last, p);
      BanStep(c, Run(c, init), last, p);
    }
  }

  lemma RunOneMore(c: Config, steps: seq<Step>, step: Step)
    requires ValidRun(c, steps) && Allowed(c, Run(c, steps), step)
    ensures ValidRun(c, steps + [step]) && Run(c, steps + [step]) == Apply(c, Run(c, steps), step)
  {
    assert (steps + [step])[..|steps|] == steps;
  }

  /** A peer banned at time 4 with a cooldown of 3 is still banned at time 7,
      the wake-up armed for the end of its ban: each poll stamps the ban anew. */
  lemma BanOutlivesCooldown() returns (banned: seq<Step>, later: seq<Step>, last: seq<Step>)
    ensures var c := Config(2, 3, 1);
            && later == banned + [DoPoll(6, [], [7])] && last == later + [DoPoll(7, [], [7])] && ValidRun(c, last)
            && Run(c, banned).failed == map[7 := Failed(Some(4), 1)] && Run(c, banned).timer == 6
            && Run(c, later).failed == map[7 := Failed(Some(6), 1)] && Run(c, later).timer == 7
            && Run(c, last).failed == map[7 := Failed(Some(7), 1)]
  {
    var c, r := Config(2, 3, 1), Pending(0, 0);
    var s1 := State(map[7 := [r]], map[], map[0 := 7], 2, [], map[0 := Request(7, 0)], None, 0);
    var told := [Answer(0, PeerTimedOut)];
    var s2 := State(map[], map[7 := Failed(Some(4), 1)], map[0 := 7], 6, told, s1.issued, Some(4), 4);
    var s3 := s2.(failed := map[7 := Failed(Some(6), 1)], timer := 7, lastPoll := Some(6), clock := 6);
    BanExampleStart();
    BanExampleRestamp(s2, s3);
    assert Discover(New(c), 0, 7, [], 0, 0) == s1 by { assert [] + [r] == [r]; }
    RunOneMore(c, [], DoDiscover(0, 7, [], 0, 0));
    var start := [] + [DoDiscover(0, 7, [], 0, 0)];
    RunOneMore(c, start, DoPoll(4, [7], [7]));
    banned := start + [DoPoll(4, [7], [7])];
    RunOneMore(c, banned, DoPoll(6, [], [7]));
    later := banned + [DoPoll(6, [], [7])];
    RunOneMore(c, later, DoPoll(7, [], [7]));
    last := later + [DoPoll(7, [], [7])];
  }

  lemma BanExampleStart()
    ensures var c, r := Config(2, 3, 1), Pending(0, 0);
            var s := State(map[7 := [r]], map[], map[0 := 7], 2, [], map[0 := Request(7, 0)], None, 0);
            && Allowed(c, s, DoPoll(4, [7], [7]))
            && Poll(c, s, 4, [7], [7]) ==
                 State(map[], map[7 := Failed(Some(4), 1)], map[0 := 7], 6,
                       [Answer(0, PeerTimedOut)], s.issued, Some(4), 4)
  {
    var c, r := Config(2, 3, 1), Pending(0, 0);
    var s := State(map[7 := [r]], map[], map[0 := 7], 2, [], map[0 := Request(7, 0)], None, 0);
    assert [7][..0] == [] && [r][..0] == [];
    assert Expired([r], 4, 4) == [r] && Alive([r], 4, 4) == [];
    assert WakeFor(2, [], 4, 4) == 2 && WakeFor(2, [r], 4, 4) == Earlier(2, 4, 0, 4);
    assert Answers([r], PeerTimedOut) == [Answer(0, PeerTimedOut)];
    var w := Sweep(s.(pending := map[], answers := [Answer(0, PeerTimedOut)], failed := map[7 := Failed(None, 1)]), 2);
    assert SweepPeer(c, Sweep(s, 2), 7, 4) == w;
    assert SweepPending(c, Sweep(s, 2), [], 4) == Sweep(s, 2);
    assert Swept(c, s, 4, [7]) == w;
    assert SweepBans(c, w, [], 4) == w;
    assert SweepBans(c, w, [7], 4) == SweepBan(c, w, 7, 4);
  }

  lemma BanExampleRestamp(s: State, n: State)
    requires s.pending == map[] && s.failed == map[7 := Failed(Some(4), 1)] && s.clock == 4
    requires n == s.(failed := map[7 := Failed(Some(6), 1)], timer := 7, lastPoll := Some(6), clock := 6)
    ensures var c := Config(2, 3, 1);
            && Allowed(c, s, DoPoll(6, [], [7])) && Poll(c, s, 6, [], [7]) == n
            && Allowed(c, n, DoPoll(7, [], [7])) && Poll(c, n, 7, [], [7]).failed == map[7 := Failed(Some(7), 1)]
  {
    var c := Config(2, 3, 1);
    assert [7][..0] == [];
    assert Swept(c, s, 6, []) == Sweep(s, 2) && Swept(c, n, 7, []) == Sweep(n, 2);
    assert SweepBans(c, Sweep(s, 2), [], 6) == Sweep(s, 2) && SweepBans(c, Sweep(n, 2), [], 7) == Sweep(n, 2);
    assert SweepBans(c, Sweep(s, 2), [7], 6) == SweepBan(c, Sweep(s, 2), 7, 6);
    assert SweepBans(c, Sweep(n, 2), [7], 7) == SweepBan(c, Sweep(n, 2), 7, 7);
  }
}
