/** The discovery behaviour as an object updated in place, proved against module
    `Kademlia`. Replies are appended to `answers`. */
module KademliaObject {
  import opened Base
  import opened Kademlia

  class Behaviour {
    const config: Config
    var pending: map<PeerId, seq<Pending>>
    var failed: map<PeerId, Failed>
    var queries: map<QueryId, PeerId>
    var timer: Instant
    var answers: seq<Answer>
    ghost var issued: map<Out, Request>
    ghost var lastPoll: Option<Instant>
    ghost var clock: Instant

    ghost function View(): State
      reads this
    {
      State(pending, failed, queries, timer, answers, issued, lastPoll, clock)
    }

    constructor (config: Config)
      ensures this.config == config && View() == New(config)
    {
      this.config := config;
      pending, failed, queries, timer, answers := map[], map[], map[], config.queryTimeout, [];
      issued, lastPoll, clock := map[], None, 0;
    }

    /** Answers a list of requests, in order. */
    method SendAll(requests: seq<Pending>, outcome: Outcome)
      modifies this`answers
      ensures answers == old(answers) + Answers(requests, outcome)
    {
      for i := 0 to |requests|
        invariant answers == old(answers) + Answers(requests[..i], outcome)
      {
        assert requests[..i + 1][..i] == requests[..i];
        answers := answers + [Answer(requests[i].out, outcome)];
      }
      assert requests[..|requests|] == requests;
    }

    method DiscoverPeer(out: Out, peer: PeerId, local: seq<Addr>, id: QueryId, now: Instant)
      modifies this
      ensures View() == old(Discover(View(), out, peer, local, id, now))
    {
      issued, clock := issued[out := Request(peer, now)], now;
      if local != [] {
        answers := answers + [Answer(out, Found(local))];
        return;
      }
      if peer in failed && failed[peer].ban.Some? {
        answers := answers + [Answer(out, PeerBanned)];
        return;
      }
      var outlets := if peer in pending then pending[peer] else [];
      var discovering := outlets != [];
      pending := pending[peer := outlets + [Pending(out, now)]];
      if !discovering {
        queries := queries[id := peer];
      }
    }

    method PeerDiscovered(peer: PeerId, addresses: seq<Addr>)
      modifies this
      ensures View() == old(Kademlia.PeerDiscovered(View(), peer, addresses))
    {
      if peer in pending {
        var waiting := pending[peer];
        pending := pending - {peer};
        SendAll(waiting, Found(addresses));
      }
      failed := failed - {peer};
    }

    method ClosestFinished(id: QueryId, addresses: seq<Addr>)
      modifies this
      ensures View() == old(Kademlia.ClosestFinished(View(), id, addresses))
    {
      if id in queries {
        var peer := queries[id];
        queries := queries - {id};
        if addresses != [] {
          PeerDiscovered(peer, addresses);
        }
      }
    }

    /** Whether a deadline has passed; if not, the wake-up is brought forward to it. */
    method HasTimedOut(now: Instant, timestamp: Instant, timeout: Duration, wake: Duration)
      returns (expired: bool, wake': Duration)
      ensures expired == TimedOut(now, timestamp, timeout)
      ensures wake' == Earlier(wake, now, timestamp, timeout)
      ensures wake' <= wake && (wake > 0 ==> wake' > 0)
      ensures !expired && now >= timestamp ==> now + wake' <= timestamp + timeout
    {
      var elapsed := if now >= timestamp then now - timestamp else 0;
      if elapsed < timeout {
        expired, wake' := false, if timeout - elapsed < wake then timeout - elapsed else wake;
      } else {
        expired, wake' := true, wake;
      }
    }

    /** Splits off the requests that waited too long. */
    method Drain(requests: seq<Pending>, now: Instant, timeout: Duration, wake: Duration)
      returns (expired: seq<Pending>, alive: seq<Pending>, wake': Duration)
      ensures expired == Expired(requests, now, timeout)
      ensures alive == Alive(requests, now, timeout)
      ensures wake' == WakeFor(wake, requests, now, timeout)
    {
      expired, alive, wake' := [], [], wake;
      for i := 0 to |requests|
        invariant expired == Expired(requests[..i], now, timeout)
        invariant alive == Alive(requests[..i], now, timeout)
        invariant wake' == WakeFor(wake, requests[..i], now, timeout)
      {
        assert requests[..i + 1][..i] == requests[..i];
        var out;
        out, wake' := HasTimedOut(now, requests[i].created, timeout, wake');
        if out {
          expired := expired + [requests[i]];
        } else {
          alive := alive + [requests[i]];
        }
      }
      assert requests[..|requests|] == requests;
    }

    method SweepOne(peer: PeerId, now: Instant, wake: Duration) returns (wake': Duration)
      requires peer in pending
      modifies this
      ensures Sweep(View(), wake') == old(SweepPeer(config, Sweep(View(), wake), peer, now))
    {
      var expired, alive;
      expired, alive, wake' := Drain(pending[peer], now, 2 * config.queryTimeout, wake);
      SendAll(expired, PeerTimedOut);
      if expired != [] {
        var f := if peer in failed then failed[peer] else Failed(None, 0);
        failed := failed[peer := f.(count := f.count + 1)];
      }
      pending := if alive == [] then pending - {peer} else pending[peer := alive];
    }

    method SweepAll(order: seq<PeerId>, now: Instant, wake: Duration) returns (wake': Duration)
      modifies this
      ensures Sweep(View(), wake') == old(SweepPending(config, Sweep(View(), wake), order, now))
    {
      wake' := wake;
      for i := 0 to |order|
        invariant Sweep(View(), wake') == old(SweepPending(config, Sweep(View(), wake), order[..i], now))
      {
        assert order[..i + 1][..i] == order[..i];
        if order[i] in pending {
          wake' := SweepOne(order[i], now, wake');
        }
      }
      assert order[..|order|] == order;
    }

    method BanOne(peer: PeerId, now: Instant, wake: Duration) returns (wake': Duration)
      requires peer in failed
      modifies this
      ensures Sweep(View(), wake') == old(SweepBan(config, Sweep(View(), wake), peer, now))
    {
      wake' := wake;
      var f := failed[peer];
      if f.ban.Some? {
        var unban;
        unban, wake' := HasTimedOut(now, f.ban.value, config.banCooldown, wake');
        if unban {
          failed := failed - {peer};
          return;
        }
      }
      failed := failed[peer := if f.count >= config.failThreshold then f.(ban := Some(now)) else f];
    }

    method BanAll(order: seq<PeerId>, now: Instant, wake: Duration) returns (wake': Duration)
      modifies this
      ensures Sweep(View(), wake') == old(SweepBans(config, Sweep(View(), wake), order, now))
    {
      wake' := wake;
      for i := 0 to |order|
        invariant Sweep(View(), wake') == old(SweepBans(config, Sweep(View(), wake), order[..i], now))
      {
        assert order[..i + 1][..i] == order[..i];
        if order[i] in failed {
          wake' := BanOne(order[i], now, wake');
        }
      }
      assert order[..|order|] == order;
    }

    /** Poll without its command loop. */
    method Poll(now: Instant, pendingOrder: seq<PeerId>, failedOrder: seq<PeerId>)
      modifies this
      ensures View() == old(Kademlia.Poll(config, View(), now, pendingOrder, failedOrder))
    {
      if pending == map[] && failed == map[] {
        clock := now;
        return;
      }
      var nextWake := if config.queryTimeout < config.banCooldown then config.queryTimeout else config.banCooldown;
      nextWake := SweepAll(pendingOrder, now, nextWake);
      nextWake := BanAll(failedOrder, now, nextWake);
      timer := now + nextWake;
      lastPoll, clock := Some(now), now;
    }
  }
}
