/** The subscriptions as an object that the loop of the bus updates in place
    (`SubscribersState` and `PeerEventSubscribers`), proved against module
    `SpellBus`. Sent triggers are appended to `triggers`. */
module SpellBusObject {
  import opened Base
  import opened SpellBus

  class SubscribersState {
    var subscribers: Subscriptions
    var scheduled: seq<Scheduled>
    var triggers: seq<Trigger>
    ghost var clock: Instant
    ghost var timers: seq<TimerSubscription>
    ghost var fired: seq<Firing>

    /** Number of timer subscriptions so far, the name of the next one. */
    var count: nat

    ghost function View(): State
      reads this
    {
      State(subscribers, scheduled, clock, timers, fired, triggers)
    }

    ghost predicate Valid()
      reads this
    {
      count == |timers|
    }

    constructor ()
      ensures Valid() && View() == New()
    {
      subscribers, scheduled, triggers := map[], [], [];
      clock, timers, fired, count := 0, [], [], 0;
    }

    method AddPeerSubscriptions(spell: SpellId, events: seq<PeerEventType>)
      modifies this`subscribers
      ensures subscribers == AddPeerEvents(old(subscribers), spell, events)
    {
      for i := 0 to |events|
        invariant subscribers == AddPeerEvents(old(subscribers), spell, events[..i])
      {
        assert events[..i + 1][..i] == events[..i];
        var e := events[i];
        subscribers := subscribers[e := (if e in subscribers then subscribers[e] else []) + [spell]];
      }
      assert events[..|events|] == events;
    }

    method Subscribe(spell: SpellId, configs: seq<TriggerConfig>)
      requires Valid()
      modifies this
      ensures Valid() && View() == old(SpellBus.Subscribe(View(), spell, configs))
    {
      ghost var start := View();
      for i := 0 to |configs|
        invariant Valid() && View() == SpellBus.Subscribe(start, spell, configs[..i])
      {
        assert configs[..i + 1][..i] == configs[..i];
        match configs[i] {
          case Timer(t) =>
            scheduled := scheduled + [Scheduled(Periodic(spell, t.period, t.endAt, count), t.startAt)];
            timers := timers + [TimerSubscription(spell, t)];
            count := count + 1;
          case PeerEvents(events) =>
            AddPeerSubscriptions(spell, events);
        }
      }
      assert configs[..|configs|] == configs;
    }

    method RetainTimers(spell: SpellId)
      modifies this`scheduled
      ensures scheduled == WithoutSpell(old(scheduled), spell)
    {
      var kept := [];
      for i := 0 to |scheduled|
        invariant scheduled == old(scheduled)
        invariant kept == WithoutSpell(scheduled[..i], spell)
      {
        assert scheduled[..i + 1][..i] == scheduled[..i];
        if scheduled[i].data.id != spell {
          kept := kept + [scheduled[i]];
        }
      }
      assert scheduled[..|scheduled|] == scheduled;
      scheduled := kept;
    }

    method RetainSpells(spells: seq<SpellId>, spell: SpellId) returns (kept: seq<SpellId>)
      ensures kept == Others(spells, spell)
    {
      kept := [];
      for i := 0 to |spells|
        invariant kept == Others(spells[..i], spell)
      {
        assert spells[..i + 1][..i] == spells[..i];
        if spells[i] != spell {
          kept := kept + [spells[i]];
        }
      }
      assert spells[..|spells|] == spells;
    }

    method Unsubscribe(spell: SpellId)
      requires Valid()
      modifies this
      ensures Valid() && View() == old(SpellBus.Unsubscribe(View(), spell))
    {
      RetainTimers(spell);
      var todo := subscribers.Keys;
      while todo != {}
        invariant todo <= subscribers.Keys == old(subscribers).Keys
        invariant forall e :: e in subscribers ==>
          subscribers[e] == if e in todo then old(subscribers)[e] else Others(old(subscribers)[e], spell)
        invariant View() == old(View()).(scheduled := WithoutSpell(old(scheduled), spell), subscribers := subscribers)
        invariant Valid()
        decreases todo
      {
        var e :| e in todo;
        var kept := RetainSpells(subscribers[e], spell);
        subscribers := subscribers[e := kept];
        todo := todo - {e};
      }
    }

    /** Notifies in order until a send fails. */
    method Notify(event: PeerEventType, sent: nat)
      requires Valid()
      modifies this
      ensures Valid() && View() == old(OnPeerEvent(View(), event, sent))
    {
      var spells := if event in subscribers then subscribers[event] else [];
      var stop := if sent < |spells| then sent else |spells|;
      for i := 0 to stop
        invariant Valid()
        invariant View() == old(View()).(triggers := old(triggers) + PeerTriggers(spells[..i], event))
      {
        assert spells[..i + 1][..i] == spells[..i];
        triggers := triggers + [PeerTrigger(spells[i], event)];
      }
    }

    /** The timer branch of the loop: pop the top entry, send its trigger, push
        it again unless it has ended. */
    method Tick(top: nat, at: Instant, sendOk: bool, now: Instant, overflows: bool)
      requires Valid() && IsTop(scheduled, top)
      modifies this
      ensures Valid() && View() == old(OnTimer(View(), top, at, sendOk, now, overflows))
    {
      var e := scheduled[top];
      scheduled := scheduled[..top] + scheduled[top + 1..];
      clock := now;
      if sendOk {
        triggers := triggers + [TimerTrigger(e.data.id)];
        fired := fired + [Firing(e.data.timer, at)];
        var again := Reschedule(e.data, now, overflows);
        if again.Some? {
          scheduled := scheduled + [again.value];
        }
      }
    }
  }
}
