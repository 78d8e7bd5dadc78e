/** When each timer is due and who hears of a peer event, in every run: a step either
    changes this as its subscription says or not at all. */
module SpellBusTimers {
  import opened Base
  import opened SpellBus
  import opened SpellBusRuns

  // ---------------------------------------------------------------- when a timer is due

  ghost predicate EntryFor(heap: seq<Scheduled>, timer: nat, due: Instant) {
    exists i :: 0 <= i < |heap| && heap[i].data.timer == timer && heap[i].runAt == due
  }

  /** The timer is armed for exactly this instant. */
  ghost predicate DueAt(s: State, timer: nat, due: Instant) {
    EntryFor(s.scheduled, timer, due)
  }

  /** The timers among the triggers of a configuration, in order. */
  function TimersIn(configs: seq<TriggerConfig>): seq<TimerConfig> {
    if configs == [] then []
    else
      var last := configs[|configs| - 1];
      TimersIn(configs[..|configs| - 1]) + if last.Timer? then [last.timer] else []
  }

  /** When a timer is due after a step. A new subscription is due at its start; a
      timer that has fired and goes on is due one period after the firing was
      handled; a timer whose spell unsubscribes, or that fires and does not go on,
      is not due at all; every other timer is due as before. */
  ghost predicate DueAfter(s: State, step: Step, timer: nat, due: Instant) {
    match step
    case DoSubscribe(_, configs) =>
      || DueAt(s, timer, due)
      || (|s.timers| <= timer < |s.timers| + |TimersIn(configs)|
          && due == TimersIn(configs)[timer - |s.timers|].startAt)
    case DoUnsubscribe(spell) => DueAt(s, timer, due) && timer < |s.timers| && s.timers[timer].spell != spell
    case PeerEvent(_, _) => DueAt(s, timer, due)
    case TimerTick(top, _, _, sendOk, now, overflows) =>
      if top < |s.scheduled| && s.scheduled[top].data.timer == timer
      then
        && sendOk && timer < |s.timers| && GoesOn(s.timers[timer].config, now, overflows)
        && due == now + s.timers[timer].config.period
      else DueAt(s, timer, due)
  }

  lemma PushEntry(heap: seq<Scheduled>, e: Scheduled, timer: nat, due: Instant)
    ensures EntryFor(heap + [e], timer, due) <==>
              EntryFor(heap, timer, due) || (e.data.timer == timer && e.runAt == due)
  {
    if EntryFor(heap, timer, due) {
      var i :| 0 <= i < |heap| && heap[i].data.timer == timer && heap[i].runAt == due;
      assert (heap + [e])[i] == heap[i];
    }
    assert (heap + [e])[|heap|] == e;
  }

  lemma DropEntry(heap: seq<Scheduled>, top: nat, timer: nat, due: Instant)
    requires OnePerTimer(heap) && top < |heap|
    ensures EntryFor(DropAt(heap, top), timer, due) <==>
              EntryFor(heap, timer, due) && heap[top].data.timer != timer
  {
    var rest := DropAt(heap, top);
    DropAtIs(heap, top);
    if EntryFor(heap, timer, due) && heap[top].data.timer != timer {
      var i :| 0 <= i < |heap| && heap[i].data.timer == timer && heap[i].runAt == due;
      assert rest[if i < top then i else i - 1] == heap[i];
    }
    if EntryFor(rest, timer, due) {
      var j :| 0 <= j < |rest| && rest[j].data.timer == timer && rest[j].runAt == due;
      assert rest[j] == heap[if j < top then j else j + 1];
    }
  }

  lemma {:induction false} SubscribeDue(s: State, spell: SpellId, configs: seq<TriggerConfig>, timer: nat, due: Instant)
    ensures |Subscribe(s, spell, configs).timers| == |s.timers| + |TimersIn(configs)|
    ensures s.timers <= Subscribe(s, spell, configs).timers
    ensures forall i :: 0 <= i < |TimersIn(configs)| ==>
              Subscribe(s, spell, configs).timers[|s.timers| + i] == TimerSubscription(spell, TimersIn(configs)[i])
    ensures DueAt(Subscribe(s, spell, configs), timer, due) <==> DueAfter(s, DoSubscribe(spell, configs), timer, due)
  {
    if configs != [] {
      var init, last := configs[..|configs| - 1], configs[|configs| - 1];
      SubscribeDue(s, spell, init, timer, due);
      var m := Subscribe(s, spell, init);
      if last.Timer? {
        var data := Periodic(spell, last.timer.period, last.timer.endAt, |m.timers|);
        PushEntry(m.scheduled, Scheduled(data, last.timer.startAt), timer, due);
      }
    }
  }

  lemma UnsubscribeDue(s: State, spell: SpellId, timer: nat, due: Instant)
    requires Inv(s)
    ensures DueAt(Unsubscribe(s, spell), timer, due) <==> DueAfter(s, DoUnsubscribe(spell), timer, due)
  {
    var n := Unsubscribe(s, spell);
    if DueAt(s, timer, due) {
      var i :| 0 <= i < |s.scheduled| && s.scheduled[i].data.timer == timer && s.scheduled[i].runAt == due;
      assert EntryOk(s, s.scheduled[i]);
      WithoutSpellKeeps(s.scheduled, spell, s.scheduled[i]);
    }
    if DueAt(n, timer, due) {
      var j :| 0 <= j < |n.scheduled| && n.scheduled[j].data.timer == timer && n.scheduled[j].runAt == due;
      WithoutSpellKeeps(s.scheduled, spell, n.scheduled[j]);
      var m :| 0 <= m < |s.scheduled| && s.scheduled[m] == n.scheduled[j];
      assert EntryOk(s, s.scheduled[m]);
    }
  }

  lemma TickDue(s: State, step: Step, timer: nat, due: Instant)
    requires Inv(s) && step.TimerTick? && step.top < |s.scheduled|
    ensures DueAt(Apply(s, step), timer, due) <==> DueAfter(s, step, timer, due)
  {
    var e := s.scheduled[step.top];
    assert EntryOk(s, e);
    var rest, again := DropAt(s.scheduled, step.top), Reschedule(e.data, step.now, step.overflows);
    DropEntry(s.scheduled, step.top, timer, due);
    if step.sendOk && again.Some? { PushEntry(rest, again.value, timer, due); }
    assert Apply(s, step).scheduled == if step.sendOk && again.Some? then rest + [again.value] else rest;
  }

  /** In every run, whether and when a timer is due after a step is exactly what
      `DueAfter` says, and subscriptions are recorded in order. */
  lemma TimersAreDueExactly(steps: seq<Step>, step: Step, timer: nat, due: Instant)
    requires ValidRun(New(), steps) && Allowed(Run(New(), steps), step)
    ensures var s, n := Run(New(), steps), Apply(Run(New(), steps), step);
            && (DueAt(n, timer, due) <==> DueAfter(s, step, timer, due))
            && s.timers <= n.timers
            && |n.timers| == |s.timers| + (if step.DoSubscribe? then |TimersIn(step.configs)| else 0)
            && (step.DoSubscribe? ==> forall i :: 0 <= i < |TimersIn(step.configs)| ==>
                  n.timers[|s.timers| + i] == TimerSubscription(step.spell, TimersIn(step.configs)[i]))
  {
    RunKeeps(New(), steps);
    StepDue(Run(New(), steps), step, timer, due);
  }

  lemma StepDue(s: State, step: Step, timer: nat, due: Instant)
    requires Inv(s) && Allowed(s, step)
    ensures var n := Apply(s, step);
            && (DueAt(n, timer, due) <==> DueAfter(s, step, timer, due))
            && s.timers <= n.timers
            && |n.timers| == |s.timers| + (if step.DoSubscribe? then |TimersIn(step.configs)| else 0)
            && (step.DoSubscribe? ==> forall i :: 0 <= i < |TimersIn(step.configs)| ==>
                  n.timers[|s.timers| + i] == TimerSubscription(step.spell, TimersIn(step.configs)[i]))
  {
    match step
    case DoSubscribe(spell, configs) => SubscribeDue(s, spell, configs, timer, due);
    case DoUnsubscribe(spell) => UnsubscribeDue(s, spell, timer, due);
    case PeerEvent(_, _) =>
    case TimerTick(_, _, _, _, _, _) => TickDue(s, step, timer, due);
  }

  // ---------------------------------------------------------------- who hears of a peer event

  /** How often a list of event types mentions one of them. */
  function Mentions(events: seq<PeerEventType>, event: PeerEventType): nat {
    if events == [] then 0
    else Mentions(events[..|events| - 1], event) + if events[|events| - 1] == event then 1 else 0
  }

  function EventMentions(configs: seq<TriggerConfig>, event: PeerEventType): nat {
    if configs == [] then 0
    else EventMentions(configs[..|configs| - 1], event) + TriggerMentions(configs[|configs| - 1], event)
  }

  function Repeat(spell: SpellId, n: nat): seq<SpellId> {
    if n == 0 then [] else Repeat(spell, n - 1) + [spell]
  }

  lemma {:induction false} RepeatSum(spell: SpellId, m: nat, n: nat)
    ensures Repeat(spell, m + n) == Repeat(spell, m) + Repeat(spell, n)
  {
    if n > 0 { RepeatSum(spell, m, n - 1); }
  }

  /** Who hears of an event after a run: each subscription adds its spell at the end,
      as often as it mentions the event, and unsubscribing takes the spell out. */
  function Heard(before: seq<SpellId>, steps: seq<Step>, event: PeerEventType): seq<SpellId>
    decreases |steps|
  {
    if steps == [] then before
    else
      var after := match steps[0]
        case DoSubscribe(spell, configs) => before + Repeat(spell, EventMentions(configs, event))
        case DoUnsubscribe(spell) => Others(before, spell)
        case _ => before;
      Heard(after, steps[1..], event)
  }

  lemma {:induction false} AddPeerEventsHeard(subs: Subscriptions, spell: SpellId,
                                              events: seq<PeerEventType>, event: PeerEventType)
    ensures Listeners(AddPeerEvents(subs, spell, events), event)
              == Listeners(subs, event) + Repeat(spell, Mentions(events, event))
  {
    if events == [] {
      assert Repeat(spell, 0) == [];
    } else {
      var init, last := events[..|events| - 1], events[|events| - 1];
      AddPeerEventsHeard(subs, spell, init, event);
      var m := AddPeerEvents(subs, spell, init);
      assert AddPeerEvents(subs, spell, events) == m[last := Listeners(m, last) + [spell]];
      if last == event {
        OneMore(Listeners(subs, event), spell, Mentions(init, event));
      }
    }
  }

  lemma OneMore(before: seq<SpellId>, spell: SpellId, n: nat)
    ensures before + Repeat(spell, n) + [spell] == before + Repeat(spell, n + 1)
  {
  }

  /** How often one trigger of a configuration mentions an event. */
  function TriggerMentions(c: TriggerConfig, event: PeerEventType): nat {
    if c.PeerEvents? then Mentions(c.events, event) else 0
  }

  lemma AddTriggerHeard(s: State, spell: SpellId, c: TriggerConfig, event: PeerEventType)
    ensures Listeners(AddTrigger(s, spell, c).subscribers, event)
              == Listeners(s.subscribers, event) + Repeat(spell, TriggerMentions(c, event))
  {
    if c.PeerEvents? {
      AddPeerEventsHeard(s.subscribers, spell, c.events, event);
    } else {
      assert Repeat(spell, 0) == [];
    }
  }

  lemma {:induction false} SubscribeHeard(s: State, spell: SpellId, configs: seq<TriggerConfig>, event: PeerEventType)
    ensures Listeners(Subscribe(s, spell, configs).subscribers, event)
              == Listeners(s.subscribers, event) + Repeat(spell, EventMentions(configs, event))
  {
    if configs == [] {
      assert Repeat(spell, 0) == [];
    } else {
      var init, last := configs[..|configs| - 1], configs[|configs| - 1];
      SubscribeHeard(s, spell, init, event);
      AddTriggerHeard(Subscribe(s, spell, init), spell, last, event);
      HeardTogether(Listeners(s.subscribers, event), spell, EventMentions(init, event), TriggerMentions(last, event));
    }
  }

  lemma HeardTogether(before: seq<SpellId>, spell: SpellId, m: nat, n: nat)
    ensures before + Repeat(spell, m) + Repeat(spell, n) == before + Repeat(spell, m + n)
  {
    RepeatSum(spell, m, n);
  }

  lemma {:induction false} ListenersAre(s: State, steps: seq<Step>, event: PeerEventType)
    requires ValidRun(s, steps)
    ensures Listeners(Run(s, steps).subscribers, event) == Heard(Listeners(s.subscribers, event), steps, event)
    decreases |steps|
  {
    if steps != [] {
      if steps[0].DoSubscribe? { SubscribeHeard(s, steps[0].spell, steps[0].configs, event); }
      ListenersAre(Apply(s, steps[0]), steps[1..], event);
    }
  }

  /** In every run a peer event is sent to those who hear of it, in the order of their
      subscriptions, until a send fails, and to nobody else. */
  lemma PeerEventsReachListeners(steps: seq<Step>, event: PeerEventType, sent: nat)
    requires ValidRun(New(), steps)
    ensures var s, n := Run(New(), steps), Apply(Run(New(), steps), PeerEvent(event, sent));
            var heard := Heard([], steps, event);
            var reached := if sent < |heard| then sent else |heard|;
            && |n.triggers| == |s.triggers| + reached && s.triggers <= n.triggers
            && (forall i :: 0 <= i < reached ==> n.triggers[|s.triggers| + i] == PeerTrigger(heard[i], event))
            && n == s.(triggers := n.triggers)
  {
    ListenersAre(New(), steps, event);
    NotifiesInOrder(Run(New(), steps), event, sent);
  }

  lemma NotifiesInOrder(s: State, event: PeerEventType, sent: nat)
    ensures var n, heard := OnPeerEvent(s, event, sent), Listeners(s.subscribers, event);
            var reached := if sent < |heard| then sent else |heard|;
            && |n.triggers| == |s.triggers| + reached && s.triggers <= n.triggers
            && (forall i :: 0 <= i < reached ==> n.triggers[|s.triggers| + i] == PeerTrigger(heard[i], event))
            && n == s.(triggers := n.triggers)
  {
    var heard := Listeners(s.subscribers, event);
    PeerTriggersAre(heard[..if sent < |heard| then sent else |heard|], event);
  }
}
