/** What every run of the spell event bus keeps. */
module SpellBusRuns {
  import opened Base
  import opened SpellBus

  // ---------------------------------------------------------------- firings of one timer

  function Times(fired: seq<Firing>, timer: nat): seq<Instant> {
    if fired == [] then []
    else
      var init, last := fired[..|fired| - 1], fired[|fired| - 1];
      Times(init, timer) + (if last.timer == timer then [last.at] else [])
  }

  /** Firings start no earlier than the configuration says and are a period apart. */
  ghost predicate Spaced(times: seq<Instant>, c: TimerConfig) {
    && (times != [] ==> times[0] >= c.startAt)
    && forall i, j :: 0 <= i < j < |times| && j == i + 1 ==> times[i] + c.period <= times[j]
  }

  ghost predicate BeforeEnd(times: seq<Instant>, c: TimerConfig) {
    forall i :: 0 <= i < |times| ==> c.endAt.Some? ==> times[i] < c.endAt.value
  }

  ghost predicate HistoryOk(times: seq<Instant>, c: TimerConfig) {
    Spaced(times, c) && (times != [] ==> BeforeEnd(times[..|times| - 1], c))
  }

  /** The earliest instant at which the timer may fire next. */
  function Due(times: seq<Instant>, c: TimerConfig): Instant {
    if times == [] then c.startAt else times[|times| - 1] + c.period
  }

  /** A heap entry belongs to a subscription and continues its firings. */
  ghost predicate EntryOk(s: State, e: Scheduled) {
    && e.data.timer < |s.timers|
    && var t := s.timers[e.data.timer];
       && e.data.id == t.spell && e.data.period == t.config.period && e.data.endAt == t.config.endAt
       && Due(Times(s.fired, e.data.timer), t.config) <= e.runAt
       && BeforeEnd(Times(s.fired, e.data.timer), t.config)
  }

  ghost predicate OnePerTimer(heap: seq<Scheduled>) {
    forall i, j :: 0 <= i < j < |heap| ==> heap[i].data.timer != heap[j].data.timer
  }

  /** The spells that were sent a timer trigger, in order. */
  function TimerSpells(triggers: seq<Trigger>): seq<SpellId> {
    if triggers == [] then []
    else
      var last := triggers[|triggers| - 1];
      TimerSpells(triggers[..|triggers| - 1]) + if last.TimerTrigger? then [last.spell] else []
  }

  /** The spells whose timers fired, in order. */
  function FiredSpells(timers: seq<TimerSubscription>, fired: seq<Firing>): seq<SpellId> {
    if fired == [] then []
    else
      var last := fired[|fired| - 1];
      FiredSpells(timers, fired[..|fired| - 1]) + if last.timer < |timers| then [timers[last.timer].spell] else []
  }

  /** Every firing is one timer trigger sent to the spell of the timer, and there
      are no other timer triggers. */
  ghost predicate Announced(s: State) {
    TimerSpells(s.triggers) == FiredSpells(s.timers, s.fired)
  }

  ghost predicate Inv(s: State) {
    && (forall i :: 0 <= i < |s.scheduled| ==> EntryOk(s, s.scheduled[i]))
    && OnePerTimer(s.scheduled)
    && (forall f :: f in s.fired ==> f.timer < |s.timers|)
    && (forall k :: 0 <= k < |s.timers| ==> HistoryOk(Times(s.fired, k), s.timers[k].config))
    && Announced(s)
  }

  lemma {:induction false} TimerSpellsSum(a: seq<Trigger>, b: seq<Trigger>)
    ensures TimerSpells(a + b) == TimerSpells(a) + TimerSpells(b)
  {
    if b == [] {
      assert a + b == a;
    } else {
      TimerSpellsSum(a, b[..|b| - 1]);
      assert (a + b)[..|a + b| - 1] == a + b[..|b| - 1];
    }
  }

  lemma {:induction false} NoTimerSpells(spells: seq<SpellId>, event: PeerEventType)
    ensures TimerSpells(PeerTriggers(spells, event)) == []
  {
    if spells != [] {
      var init := spells[..|spells| - 1];
      NoTimerSpells(init, event);
      TimerSpellsSum(PeerTriggers(init, event), [PeerTrigger(spells[|spells| - 1], event)]);
      assert [PeerTrigger(spells[|spells| - 1], event)][..0] == [];
    }
  }

  lemma {:induction false} FiredSpellsOfMore(timers: seq<TimerSubscription>, t: TimerSubscription, fired: seq<Firing>)
    requires forall f :: f in fired ==> f.timer < |timers|
    ensures FiredSpells(timers + [t], fired) == FiredSpells(timers, fired)
  {
    if fired != [] { FiredSpellsOfMore(timers, t, fired[..|fired| - 1]); }
  }

  /** One more firing and its trigger. */
  lemma AnnouncedOneMore(s: State, n: State, f: Firing)
    requires Announced(s) && n.timers == s.timers && f.timer < |s.timers|
    requires n.fired == s.fired + [f] && n.triggers == s.triggers + [TimerTrigger(s.timers[f.timer].spell)]
    ensures Announced(n)
  {
    assert n.fired[..|s.fired|] == s.fired && n.triggers[..|s.triggers|] == s.triggers;
  }

  lemma {:induction false} NoTimes(fired: seq<Firing>, timer: nat)
    requires forall f :: f in fired ==> f.timer != timer
    ensures Times(fired, timer) == []
  {
    if fired != [] { NoTimes(fired[..|fired| - 1], timer); }
  }

  lemma TimesAppend(fired: seq<Firing>, f: Firing, timer: nat)
    ensures Times(fired + [f], timer) == Times(fired, timer) + (if f.timer == timer then [f.at] else [])
  {
    assert (fired + [f])[..|fired|] == fired;
  }

  lemma AddTriggerKeeps(s: State, spell: SpellId, c: TriggerConfig)
    requires Inv(s)
    ensures Inv(AddTrigger(s, spell, c))
  {
    var n := AddTrigger(s, spell, c);
    if c.Timer? {
      NoTimes(s.fired, |s.timers|);
      FiredSpellsOfMore(s.timers, TimerSubscription(spell, c.timer), s.fired);
      forall i | 0 <= i < |n.scheduled| ensures EntryOk(n, n.scheduled[i]) {
        if i < |s.scheduled| { assert EntryOk(s, s.scheduled[i]); }
      }
    } else {
      forall i | 0 <= i < |n.scheduled| ensures EntryOk(n, n.scheduled[i]) { assert EntryOk(s, s.scheduled[i]); }
    }
  }

  lemma {:induction false} SubscribeKeeps(s: State, spell: SpellId, configs: seq<TriggerConfig>)
    requires Inv(s)
    ensures Inv(Subscribe(s, spell, configs))
  {
    if configs != [] {
      SubscribeKeeps(s, spell, configs[..|configs| - 1]);
      AddTriggerKeeps(Subscribe(s, spell, configs[..|configs| - 1]), spell, configs[|configs| - 1]);
    }
  }

  /** Entry `i` of a filtered heap is entry `from[i]` of the heap. */
  ghost predicate KeptAt(heap: seq<Scheduled>, kept: seq<Scheduled>, from: seq<nat>, i: nat) {
    i < |from| == |kept| && from[i] < |heap| && heap[from[i]] == kept[i]
  }

  /** Filtering keeps the order and drops the entries of the spell. */
  lemma {:induction false} WithoutSpellFrom(heap: seq<Scheduled>, spell: SpellId) returns (from: seq<nat>)
    ensures |from| == |WithoutSpell(heap, spell)|
    ensures forall i :: 0 <= i < |from| ==> KeptAt(heap, WithoutSpell(heap, spell), from, i)
    ensures forall i :: 0 <= i < |from| ==> WithoutSpell(heap, spell)[i].data.id != spell
    ensures forall i, j :: 0 <= i < j < |from| ==> from[i] < from[j]
  {
    if heap == [] {
      from := [];
    } else {
      var init, last := heap[..|heap| - 1], heap[|heap| - 1];
      var rest := WithoutSpellFrom(init, spell);
      from := if last.data.id == spell then rest else rest + [|heap| - 1];
      var kept := WithoutSpell(heap, spell);
      forall i | 0 <= i < |from| ensures KeptAt(heap, kept, from, i) && kept[i].data.id != spell {
        if i < |rest| { assert KeptAt(init, WithoutSpell(init, spell), rest, i); }
      }
      forall i, j | 0 <= i < j < |from| ensures from[i] < from[j] {
        assert KeptAt(init, WithoutSpell(init, spell), rest, i);
      }
    }
  }

  lemma UnsubscribeKeeps(s: State, spell: SpellId)
    requires Inv(s)
    ensures Inv(Unsubscribe(s, spell))
  {
    var n := Unsubscribe(s, spell);
    var from := WithoutSpellFrom(s.scheduled, spell);
    forall i | 0 <= i < |n.scheduled| ensures EntryOk(n, n.scheduled[i]) {
      assert KeptAt(s.scheduled, n.scheduled, from, i);
      SameEntry(s, n, s.scheduled[from[i]]);
    }
    forall i, j | 0 <= i < j < |n.scheduled| ensures n.scheduled[i].data.timer != n.scheduled[j].data.timer {
      assert KeptAt(s.scheduled, n.scheduled, from, i) && KeptAt(s.scheduled, n.scheduled, from, j);
    }
  }

  lemma DropAtIs<T>(s: seq<T>, i: nat)
    requires i < |s|
    ensures |DropAt(s, i)| == |s| - 1
    ensures forall j :: 0 <= j < |s| - 1 ==> DropAt(s, i)[j] == s[if j < i then j else j + 1]
  {
  }

  /** Entries other than the fired one are as good as before. */
  lemma OtherEntry(s: State, e: Scheduled, f: Firing)
    requires EntryOk(s, e) && f.timer != e.data.timer
    ensures EntryOk(s.(fired := s.fired + [f]), e)
  {
    TimesAppend(s.fired, f, e.data.timer);
  }

  lemma FiredHistory(s: State, e: Scheduled, at: Instant)
    requires Inv(s) && EntryOk(s, e) && e.runAt <= at
    ensures HistoryOk(Times(s.fired + [Firing(e.data.timer, at)], e.data.timer), s.timers[e.data.timer].config)
  {
    var c, times := s.timers[e.data.timer].config, Times(s.fired, e.data.timer);
    TimesAppend(s.fired, Firing(e.data.timer, at), e.data.timer);
    assert HistoryOk(times, c);
    var more := times + [at];
    assert more[..|more| - 1] == times;
  }

  lemma FiredEntry(s: State, e: Scheduled, at: Instant, now: Instant)
    requires Inv(s) && EntryOk(s, e) && e.runAt <= at <= now
    requires Reschedule(e.data, now, false).Some?
    ensures EntryOk(s.(fired := s.fired + [Firing(e.data.timer, at)]), Scheduled(e.data, now + e.data.period))
  {
    TimesAppend(s.fired, Firing(e.data.timer, at), e.data.timer);
  }

  lemma OneEntryEach(s: State, top: nat, again: Option<Scheduled>)
    requires OnePerTimer(s.scheduled)
    requires top < |s.scheduled| && (again.Some? ==> again.value.data == s.scheduled[top].data)
    ensures var rest := DropAt(s.scheduled, top);
            var heap := if again.Some? then rest + [again.value] else rest;
            && (forall j :: 0 <= j < |rest| ==> rest[j].data.timer != s.scheduled[top].data.timer)
            && OnePerTimer(heap)
  {
    DropAtIs(s.scheduled, top);
  }

  lemma RestOk(s: State, top: nat, f: Firing)
    requires Inv(s) && top < |s.scheduled| && f.timer == s.scheduled[top].data.timer
    ensures var rest := DropAt(s.scheduled, top);
            forall j :: 0 <= j < |rest| ==> EntryOk(s, rest[j]) && EntryOk(s.(fired := s.fired + [f]), rest[j])
  {
    var rest := DropAt(s.scheduled, top);
    DropAtIs(s.scheduled, top);
    forall j | 0 <= j < |rest| ensures EntryOk(s, rest[j]) && EntryOk(s.(fired := s.fired + [f]), rest[j]) {
      assert EntryOk(s, rest[j]);
      OtherEntry(s, rest[j], f);
    }
  }

  lemma HistoriesOk(s: State, e: Scheduled, at: Instant)
    requires Inv(s) && EntryOk(s, e) && e.runAt <= at
    ensures forall k :: 0 <= k < |s.timers| ==>
      HistoryOk(Times(s.fired + [Firing(e.data.timer, at)], k), s.timers[k].config)
  {
    var f := Firing(e.data.timer, at);
    forall k | 0 <= k < |s.timers| ensures HistoryOk(Times(s.fired + [f], k), s.timers[k].config) {
      if k == e.data.timer { FiredHistory(s, e, at); } else { TimesAppend(s.fired, f, k); }
    }
  }

  lemma SameEntry(s: State, n: State, e: Scheduled)
    requires EntryOk(s, e) && n.timers == s.timers && n.fired == s.fired
    ensures EntryOk(n, e)
  {
  }

  /** The top entry is gone and nothing has fired. */
  lemma DroppedKeeps(s: State, n: State, top: nat)
    requires Inv(s) && top < |s.scheduled|
    requires n.scheduled == DropAt(s.scheduled, top)
    requires n.timers == s.timers && n.fired == s.fired && n.triggers == s.triggers
    ensures Inv(n)
  {
    DropAtIs(s.scheduled, top);
    forall j | 0 <= j < |n.scheduled| ensures EntryOk(n, n.scheduled[j]) { SameEntry(s, n, n.scheduled[j]); }
  }

  /** The entries after the top one has fired. */
  lemma FiredEntries(s: State, top: nat, at: Instant, now: Instant, overflows: bool)
    requires Inv(s) && top < |s.scheduled| && s.scheduled[top].runAt <= at <= now
    ensures var n := OnTimer(s, top, at, true, now, overflows);
            OnePerTimer(n.scheduled) && forall j :: 0 <= j < |n.scheduled| ==> EntryOk(n, n.scheduled[j])
  {
    var e, n := s.scheduled[top], OnTimer(s, top, at, true, now, overflows);
    var f, again := Firing(e.data.timer, at), Reschedule(e.data, now, overflows);
    var m := s.(fired := s.fired + [f]);
    assert EntryOk(s, e);
    RestOk(s, top, f);
    OneEntryEach(s, top, again);
    if again.Some? { FiredEntry(s, e, at, now); }
    forall j | 0 <= j < |n.scheduled| ensures EntryOk(n, n.scheduled[j]) {
      assert EntryOk(m, n.scheduled[j]);
      SameEntry(m, n, n.scheduled[j]);
    }
  }

  lemma FiredKeeps(s: State, n: State, e: Scheduled, at: Instant)
    requires Inv(s) && EntryOk(s, e) && e.runAt <= at
    requires n.timers == s.timers && n.fired == s.fired + [Firing(e.data.timer, at)]
    requires n.triggers == s.triggers + [TimerTrigger(e.data.id)]
    requires OnePerTimer(n.scheduled) && forall j :: 0 <= j < |n.scheduled| ==> EntryOk(n, n.scheduled[j])
    ensures Inv(n)
  {
    HistoriesOk(s, e, at);
    AnnouncedOneMore(s, n, Firing(e.data.timer, at));
  }

  lemma TimerKeeps(s: State, top: nat, at: Instant, sendOk: bool, now: Instant, overflows: bool)
    requires Inv(s) && top < |s.scheduled| && s.scheduled[top].runAt <= at <= now
    ensures Inv(OnTimer(s, top, at, sendOk, now, overflows))
  {
    var n := OnTimer(s, top, at, sendOk, now, overflows);
    if sendOk {
      FiredEntries(s, top, at, now, overflows);
      FiredKeeps(s, n, s.scheduled[top], at);
    } else {
      DroppedKeeps(s, n, top);
    }
  }

  lemma PeerEventKeeps(s: State, event: PeerEventType, sent: nat)
    requires Inv(s)
    ensures Inv(OnPeerEvent(s, event, sent))
  {
    var n, spells := OnPeerEvent(s, event, sent), Listeners(s.subscribers, event);
    var reached := spells[..if sent < |spells| then sent else |spells|];
    TimerSpellsSum(s.triggers, PeerTriggers(reached, event));
    NoTimerSpells(reached, event);
    forall j | 0 <= j < |s.scheduled| ensures EntryOk(n, s.scheduled[j]) { assert EntryOk(s, s.scheduled[j]); }
  }

  lemma ApplyKeeps(s: State, step: Step)
    requires Inv(s) && Allowed(s, step)
    ensures Inv(Apply(s, step))
  {
    match step
    case DoSubscribe(spell, configs) => SubscribeKeeps(s, spell, configs);
    case DoUnsubscribe(spell) => UnsubscribeKeeps(s, spell);
    case PeerEvent(event, sent) => PeerEventKeeps(s, event, sent);
    case TimerTick(_, _, _, _, _, _) => TickKeeps(s, step);
  }

  /** The timer fires for an entry that is due, and no entry is due earlier. */
  lemma DueBeforeFiring(s: State, step: Step)
    requires step.TimerTick? && Allowed(s, step)
    ensures s.scheduled[step.top].runAt <= step.looped + step.waited <= step.now
    ensures forall i :: 0 <= i < |s.scheduled| ==> s.scheduled[step.top].runAt <= s.scheduled[i].runAt
  {
  }

  lemma TickKeeps(s: State, step: Step)
    requires Inv(s) && Allowed(s, step) && step.TimerTick?
    ensures Inv(Apply(s, step))
  {
    var at: Instant := step.looped + step.waited;
    DueBeforeFiring(s, step);
    assert Apply(s, step) == OnTimer(s, step.top, at, step.sendOk, step.now, step.overflows);
    TimerKeeps(s, step.top, at, step.sendOk, step.now, step.overflows);
  }

  lemma {:induction false} RunKeeps(s: State, steps: seq<Step>)
    requires Inv(s) && ValidRun(s, steps)
    ensures Inv(Run(s, steps))
    decreases |steps|
  {
    if steps != [] {
      ApplyKeeps(s, steps[0]);
      RunKeeps(Apply(s, steps[0]), steps[1..]);
    }
  }

  /** A tick has fired the timer that was due earliest, not before it was due, and
      has sent one trigger, to the spell that subscribed it. */
  ghost predicate FiredEarliest(s: State, n: State, e: Scheduled, at: Instant) {
    && e in s.scheduled && e.runAt <= at
    && (forall i :: 0 <= i < |s.scheduled| ==> e.runAt <= s.scheduled[i].runAt)
    && e.data.timer < |s.timers|
    && n.fired == s.fired + [Firing(e.data.timer, at)]
    && n.triggers == s.triggers + [TimerTrigger(s.timers[e.data.timer].spell)]
  }

  lemma EntryFires(s: State, top: nat, at: Instant, now: Instant, overflows: bool)
    requires top < |s.scheduled| && EntryOk(s, s.scheduled[top]) && s.scheduled[top].runAt <= at
    requires forall i :: 0 <= i < |s.scheduled| ==> s.scheduled[top].runAt <= s.scheduled[i].runAt
    ensures FiredEarliest(s, OnTimer(s, top, at, true, now, overflows), s.scheduled[top], at)
  {
  }

  lemma TickFires(s: State, step: Step)
    requires step.TimerTick? && Allowed(s, step) && step.sendOk && EntryOk(s, s.scheduled[step.top])
    ensures FiredEarliest(s, Apply(s, step), s.scheduled[step.top], step.looped + step.waited)
  {
    var at: Instant := step.looped + step.waited;
    DueBeforeFiring(s, step);
    EntryFires(s, step.top, at, step.now, step.overflows);
    assert Apply(s, step) == OnTimer(s, step.top, at, true, step.now, step.overflows);
  }

  /** In every run, a tick that can send fires the timer that is due earliest. */
  lemma FiresTheEarliest(steps: seq<Step>, step: Step)
    requires ValidRun(New(), steps) && Allowed(Run(New(), steps), step) && step.TimerTick? && step.sendOk
    ensures var s := Run(New(), steps);
            FiredEarliest(s, Apply(s, step), s.scheduled[step.top], step.looped + step.waited)
  {
    RunKeeps(New(), steps);
    TickFires(Run(New(), steps), step);
  }

  // ---------------------------------------------------------------- how often a timer fires

  lemma {:induction false} SpacedFrom(times: seq<Instant>, c: TimerConfig, i: nat)
    requires Spaced(times, c) && i < |times|
    ensures times[i] >= c.startAt + i * c.period
  {
    if i > 0 {
      SpacedFrom(times, c, i - 1);
      assert times[i - 1] + c.period <= times[i];
      assert (i - 1) * c.period + c.period == i * c.period;
    }
  }

  function CeilDiv(a: nat, b: nat): nat
    requires b > 0
  {
    (a + b - 1) / b
  }

  lemma FitsInto(k: nat, p: nat, x: nat)
    requires p > 0 && k * p < x
    ensures k + 1 <= CeilDiv(x, p)
  {
    var q := (x + p - 1) / p;
    assert x + p - 1 < q * p + p;
    if q <= k { MulMonotone(q, k, p); }
  }

  lemma MulMonotone(a: nat, b: nat, p: nat)
    requires a <= b
    ensures a * p <= b * p
  {
  }

  lemma CountBound(times: seq<Instant>, c: TimerConfig)
    requires HistoryOk(times, c) && c.endAt.Some? && c.period > 0
    ensures |times| <= CeilDiv(Minus(c.endAt.value, c.startAt), c.period) + 1
  {
    if |times| >= 2 {
      var k := |times| - 2;
      SpacedFrom(times, c, k);
      assert times[..|times| - 1][k] == times[k];
      FitsInto(k, c.period, Minus(c.endAt.value, c.startAt));
    }
  }

  /** Bounded periodic triggers. In every run on a monotone clock, for every
      timer subscription: no firing before `startAt`, consecutive firings at
      least a period apart, at most the last one at or after `endAt`, at most
      ceil((endAt - startAt) / period) + 1 firings in all, and at most one when
      the timer ends where it starts. The timer triggers sent are the firings, one
      each and in order, to the spells of the timers. */
  lemma BoundedTriggers(steps: seq<Step>, timer: nat)
    requires ValidRun(New(), steps) && timer < |Run(New(), steps).timers|
    ensures var s := Run(New(), steps);
            var c, times := s.timers[timer].config, Times(s.fired, timer);
            && (forall i :: 0 <= i < |times| ==> times[i] >= c.startAt)
            && (forall i, j :: 0 <= i < j < |times| && j == i + 1 ==> times[i] + c.period <= times[j])
            && (forall i :: 0 <= i < |times| - 1 && c.endAt.Some? ==> times[i] < c.endAt.value)
            && (c.endAt.Some? && c.period > 0 ==>
                  |times| <= CeilDiv(Minus(c.endAt.value, c.startAt), c.period) + 1)
            && (c.endAt == Some(c.startAt) ==> |times| <= 1)
            && TimerSpells(s.triggers) == FiredSpells(s.timers, s.fired)
  {
    RunKeeps(New(), steps);
    TimesBounded(Run(New(), steps), timer);
  }

  lemma TimesBounded(s: State, timer: nat)
    requires Inv(s) && timer < |s.timers|
    ensures var c, times := s.timers[timer].config, Times(s.fired, timer);
            && (forall i :: 0 <= i < |times| ==> times[i] >= c.startAt)
            && (forall i, j :: 0 <= i < j < |times| && j == i + 1 ==> times[i] + c.period <= times[j])
            && (forall i :: 0 <= i < |times| - 1 && c.endAt.Some? ==> times[i] < c.endAt.value)
            && (c.endAt.Some? && c.period > 0 ==>
                  |times| <= CeilDiv(Minus(c.endAt.value, c.startAt), c.period) + 1)
            && (c.endAt == Some(c.startAt) ==> |times| <= 1)
  {
    var c, times := s.timers[timer].config, Times(s.fired, timer);
    assert HistoryOk(times, c);
    forall i | 0 <= i < |times| ensures times[i] >= c.startAt { SpacedFrom(times, c, i); }
    forall i | 0 <= i < |times| - 1 && c.endAt.Some? ensures times[i] < c.endAt.value {
      assert times[..|times| - 1][i] == times[i];
    }
    if c.endAt.Some? && c.period > 0 { CountBound(times, c); }
  }

  /** A timer that a user configured fires at most once without a period, and with
      a period and an end at most ceil((endAt - startAt) / period) + 1 times, a
      period apart. */
  lemma UserTimersAreBounded(steps: seq<Step>, timer: nat, u: UserConfig, atEnd: Reading,
                             atStart: Reading, later: Instant)
    requires ValidRun(New(), steps) && timer < |Run(New(), steps).timers|
    requires FromUserConfig(u, atEnd, atStart, later).Ok? && u.clock.startSec != 0
    requires var configs := FromUserConfig(u, atEnd, atStart, later).value;
             configs.Some? && Timer(Run(New(), steps).timers[timer].config) in configs.value
    ensures var s := Run(New(), steps);
            var c, times, period := s.timers[timer].config, Times(s.fired, timer), u.clock.periodSec * NANOS;
            && (period == 0 ==> |times| <= 1)
            && (period > 0 && u.clock.endSec != 0 ==>
                  c.endAt.Some? && |times| <= CeilDiv(Minus(c.endAt.value, c.startAt), period) + 1)
            && (forall i, j :: 0 <= i < j < |times| && j == i + 1 ==> times[i] + period <= times[j])
  {
    RunKeeps(New(), steps);
    TimesBounded(Run(New(), steps), timer);
  }

  // ---------------------------------------------------------------- timers are not forgotten

  ghost predicate ArmedIn(heap: seq<Scheduled>, timer: nat) {
    exists i :: 0 <= i < |heap| && heap[i].data.timer == timer
  }

  /** The timer is in the heap and will fire again. */
  ghost predicate Armed(s: State, timer: nat) {
    ArmedIn(s.scheduled, timer)
  }

  lemma {:induction false} SubscribeExtends(s: State, spell: SpellId, configs: seq<TriggerConfig>)
    ensures s.scheduled <= Subscribe(s, spell, configs).scheduled
  {
    if configs != [] { SubscribeExtends(s, spell, configs[..|configs| - 1]); }
  }

  lemma {:induction false} WithoutSpellKeeps(heap: seq<Scheduled>, spell: SpellId, e: Scheduled)
    ensures e in WithoutSpell(heap, spell) <==> e in heap && e.data.id != spell
  {
    if heap != [] {
      WithoutSpellKeeps(heap[..|heap| - 1], spell, e);
      assert heap == heap[..|heap| - 1] + [heap[|heap| - 1]];
    }
  }

  lemma UnsubscribeDisarms(s: State, spell: SpellId, timer: nat)
    requires Inv(s) && Armed(s, timer)
    ensures timer < |s.timers|
    ensures Armed(Unsubscribe(s, spell), timer) <==> s.timers[timer].spell != spell
  {
    var n := Unsubscribe(s, spell);
    var i :| 0 <= i < |s.scheduled| && s.scheduled[i].data.timer == timer;
    assert EntryOk(s, s.scheduled[i]);
    WithoutSpellKeeps(s.scheduled, spell, s.scheduled[i]);
    if Armed(n, timer) {
      var j :| 0 <= j < |n.scheduled| && n.scheduled[j].data.timer == timer;
      WithoutSpellKeeps(s.scheduled, spell, n.scheduled[j]);
      var m :| 0 <= m < |s.scheduled| && s.scheduled[m] == n.scheduled[j];
      assert EntryOk(s, s.scheduled[m]);
    }
  }

  /** Dropping an entry disarms its own timer and no other. */
  lemma DropDisarms(heap: seq<Scheduled>, top: nat, timer: nat)
    requires OnePerTimer(heap) && top < |heap| && ArmedIn(heap, timer)
    ensures ArmedIn(DropAt(heap, top), timer) <==> heap[top].data.timer != timer
  {
    var rest := DropAt(heap, top);
    DropAtIs(heap, top);
    var i :| 0 <= i < |heap| && heap[i].data.timer == timer;
    if i != top {
      assert rest[if i < top then i else i - 1] == heap[i];
    } else {
      forall j | 0 <= j < |rest| ensures rest[j].data.timer != timer {
        assert rest[j] == heap[if j < top then j else j + 1];
      }
    }
  }

  lemma PushArms(heap: seq<Scheduled>, e: Scheduled, timer: nat)
    ensures ArmedIn(heap + [e], timer) <==> ArmedIn(heap, timer) || e.data.timer == timer
  {
    if ArmedIn(heap, timer) {
      var i :| 0 <= i < |heap| && heap[i].data.timer == timer;
      assert (heap + [e])[i] == heap[i];
    }
    assert (heap + [e])[|heap|] == e;
  }

  lemma TickDisarms(s: State, top: nat, at: Instant, sendOk: bool, now: Instant, overflows: bool, timer: nat)
    requires OnePerTimer(s.scheduled) && top < |s.scheduled| && Armed(s, timer)
    ensures Armed(OnTimer(s, top, at, sendOk, now, overflows), timer) <==>
              || s.scheduled[top].data.timer != timer
              || (sendOk && Reschedule(s.scheduled[top].data, now, overflows).Some?)
  {
    var again := Reschedule(s.scheduled[top].data, now, overflows);
    DropDisarms(s.scheduled, top, timer);
    if sendOk && again.Some? { PushArms(DropAt(s.scheduled, top), again.value, timer); }
  }

  /** A subscription goes on after a firing that was handled at `now`. */
  predicate GoesOn(c: TimerConfig, now: Instant, overflows: bool) {
    !overflows && (c.endAt.None? || now < c.endAt.value)
  }

  /** A timer leaves the heap in a step exactly when its spell is unsubscribed, or
      when it fires and its trigger cannot be sent, its end has come or its next
      firing is out of range. */
  predicate Disarms(s: State, step: Step, timer: nat) {
    && timer < |s.timers|
    && (|| (step.DoUnsubscribe? && s.timers[timer].spell == step.spell)
        || (step.TimerTick? && step.top < |s.scheduled| && s.scheduled[step.top].data.timer == timer
            && !(step.sendOk && GoesOn(s.timers[timer].config, step.now, step.overflows))))
  }

  lemma DisarmedExactlyBy(steps: seq<Step>, step: Step, timer: nat)
    requires ValidRun(New(), steps) && Allowed(Run(New(), steps), step) && Armed(Run(New(), steps), timer)
    ensures Armed(Apply(Run(New(), steps), step), timer) <==> !Disarms(Run(New(), steps), step, timer)
  {
    RunKeeps(New(), steps);
    DisarmStep(Run(New(), steps), step, timer);
  }

  lemma DisarmStep(s: State, step: Step, timer: nat)
    requires Inv(s) && Allowed(s, step) && Armed(s, timer)
    ensures Armed(Apply(s, step), timer) <==> !Disarms(s, step, timer)
  {
    match step
    case DoSubscribe(spell, configs) =>
      SubscribeExtends(s, spell, configs);
      var i :| 0 <= i < |s.scheduled| && s.scheduled[i].data.timer == timer;
      assert Apply(s, step).scheduled[i] == s.scheduled[i];
    case DoUnsubscribe(spell) => UnsubscribeDisarms(s, spell, timer);
    case PeerEvent(_, _) =>
    case TimerTick(top, looped, waited, sendOk, now, overflows) =>
      assert EntryOk(s, s.scheduled[top]);
      TickDisarms(s, top, looped + waited, sendOk, now, overflows, timer);
  }

  // ---------------------------------------------------------------- unsubscribing

  /** No timer and no peer subscription of the spell is left. */
  ghost predicate Silent(s: State, spell: SpellId) {
    && (forall i :: 0 <= i < |s.scheduled| ==> s.scheduled[i].data.id != spell)
    && (forall e :: e in s.subscribers ==> spell !in s.subscribers[e])
  }

  lemma {:induction false} OthersIs(spells: seq<SpellId>, spell: SpellId)
    ensures spell !in Others(spells, spell)
    ensures forall x :: x != spell ==> multiset(Others(spells, spell))[x] == multiset(spells)[x]
  {
    if spells != [] {
      OthersIs(spells[..|spells| - 1], spell);
      assert spells == spells[..|spells| - 1] + [spells[|spells| - 1]];
    }
  }

  /** Unsubscribing leaves nothing of the spell, and leaves the timers and the
      peer subscriptions of every other spell alone, with multiplicity and
      order. */
  lemma UnsubscribeIsLocal(s: State, spell: SpellId)
    ensures var n := Unsubscribe(s, spell);
            && Silent(n, spell)
            && n.triggers == s.triggers && n.fired == s.fired
            && n.subscribers.Keys == s.subscribers.Keys
            && (forall e :: e in s.subscribers ==> Subsequence(n.subscribers[e], s.subscribers[e], x => x != spell))
            && Subsequence(n.scheduled, s.scheduled, (x: Scheduled) => x.data.id != spell)
  {
    var n := Unsubscribe(s, spell);
    var from := WithoutSpellFrom(s.scheduled, spell);
    WithoutSpellSubsequence(s.scheduled, spell);
    forall e | e in s.subscribers
      ensures spell !in n.subscribers[e] && Subsequence(n.subscribers[e], s.subscribers[e], x => x != spell)
    {
      OthersIs(s.subscribers[e], spell);
      OthersSubsequence(s.subscribers[e], spell);
    }
  }

  /** `kept` is `all` without the elements that fail the test: nothing else is
      dropped, repeated or moved. */
  ghost predicate Subsequence<T>(kept: seq<T>, all: seq<T>, keep: T -> bool)
    decreases |all|
  {
    if all == [] then kept == []
    else if keep(all[|all| - 1]) then
      kept != [] && kept[|kept| - 1] == all[|all| - 1] && Subsequence(kept[..|kept| - 1], all[..|all| - 1], keep)
    else Subsequence(kept, all[..|all| - 1], keep)
  }

  lemma {:induction false} WithoutSpellSubsequence(heap: seq<Scheduled>, spell: SpellId)
    ensures Subsequence(WithoutSpell(heap, spell), heap, (x: Scheduled) => x.data.id != spell)
  {
    if heap != [] {
      var init, last := heap[..|heap| - 1], heap[|heap| - 1];
      WithoutSpellSubsequence(init, spell);
      if last.data.id != spell {
        assert WithoutSpell(heap, spell)[..|WithoutSpell(heap, spell)| - 1] == WithoutSpell(init, spell);
      } else {
        assert WithoutSpell(heap, spell) == WithoutSpell(init, spell);
      }
    }
  }

  lemma {:induction false} OthersSubsequence(spells: seq<SpellId>, spell: SpellId)
    ensures Subsequence(Others(spells, spell), spells, x => x != spell)
  {
    if spells != [] {
      var init, last := spells[..|spells| - 1], spells[|spells| - 1];
      OthersSubsequence(init, spell);
      if last != spell {
        assert Others(spells, spell)[..|Others(spells, spell)| - 1] == Others(init, spell);
      } else {
        assert Others(spells, spell) == Others(init, spell);
      }
    }
  }

  function Spell(t: Trigger): SpellId {
    t.spell
  }

  ghost predicate Unheard(before: seq<Trigger>, after: seq<Trigger>, spell: SpellId) {
    before <= after && forall i :: |before| <= i < |after| ==> Spell(after[i]) != spell
  }

  lemma {:induction false} AddPeerEventsOther(subs: Subscriptions, other: SpellId, events: seq<PeerEventType>,
                                              spell: SpellId)
    requires other != spell && forall e :: e in subs ==> spell !in subs[e]
    ensures forall e :: e in AddPeerEvents(subs, other, events) ==> spell !in AddPeerEvents(subs, other, events)[e]
  {
    if events != [] { AddPeerEventsOther(subs, other, events[..|events| - 1], spell); }
  }

  lemma {:induction false} SubscribeOther(s: State, other: SpellId, configs: seq<TriggerConfig>, spell: SpellId)
    requires Silent(s, spell) && other != spell
    ensures Silent(Subscribe(s, other, configs), spell)
    ensures Subscribe(s, other, configs).triggers == s.triggers
  {
    if configs != [] {
      var m, last := Subscribe(s, other, configs[..|configs| - 1]), configs[|configs| - 1];
      SubscribeOther(s, other, configs[..|configs| - 1], spell);
      if last.PeerEvents? { AddPeerEventsOther(m.subscribers, other, last.events, spell); }
    }
  }

  lemma {:induction false} PeerTriggersAre(spells: seq<SpellId>, event: PeerEventType)
    ensures |PeerTriggers(spells, event)| == |spells|
    ensures forall i :: 0 <= i < |spells| ==> PeerTriggers(spells, event)[i] == PeerTrigger(spells[i], event)
  {
    if spells != [] { PeerTriggersAre(spells[..|spells| - 1], event); }
  }

  lemma SilentStep(s: State, step: Step, spell: SpellId)
    requires Silent(s, spell) && Allowed(s, step) && !(step.DoSubscribe? && step.spell == spell)
    ensures Silent(Apply(s, step), spell)
    ensures Unheard(s.triggers, Apply(s, step).triggers, spell)
  {
    match step
    case DoSubscribe(other, configs) => SubscribeOther(s, other, configs, spell);
    case DoUnsubscribe(other) => UnsubscribeSilent(s, other, spell);
    case PeerEvent(event, sent) =>
      var spells := Listeners(s.subscribers, event);
      PeerTriggersAre(spells[..if sent < |spells| then sent else |spells|], event);
    case TimerTick(top, looped, waited, sendOk, now, overflows) =>
      DropAtIs(s.scheduled, top);
  }

  lemma UnsubscribeSilent(s: State, other: SpellId, spell: SpellId)
    requires Silent(s, spell)
    ensures Silent(Unsubscribe(s, other), spell)
  {
    var n := Unsubscribe(s, other);
    var from := WithoutSpellFrom(s.scheduled, other);
    forall i | 0 <= i < |n.scheduled| ensures n.scheduled[i].data.id != spell {
      assert KeptAt(s.scheduled, n.scheduled, from, i);
    }
    forall e | e in s.subscribers ensures spell !in Others(s.subscribers[e], other) {
      OthersIs(s.subscribers[e], other);
      if spell != other {
        assert multiset(Others(s.subscribers[e], other))[spell] == multiset(s.subscribers[e])[spell] == 0;
      }
    }
  }

  lemma {:induction false} SilenceLasts(s: State, steps: seq<Step>, spell: SpellId)
    requires Silent(s, spell) && ValidRun(s, steps)
    requires forall i :: 0 <= i < |steps| ==> !(steps[i].DoSubscribe? && steps[i].spell == spell)
    ensures Silent(Run(s, steps), spell)
    ensures Unheard(s.triggers, Run(s, steps).triggers, spell)
    decreases |steps|
  {
    if steps != [] {
      SilentStep(s, steps[0], spell);
      SilenceLasts(Apply(s, steps[0]), steps[1..], spell);
    }
  }

  /** Unsubscribing is complete: from any state, after the spell unsubscribes no
      run without a new subscription of it ever sends a trigger for it. */
  lemma UnsubscribedStaysSilent(s: State, spell: SpellId, steps: seq<Step>)
    requires ValidRun(Unsubscribe(s, spell), steps)
    requires forall i :: 0 <= i < |steps| ==> !(steps[i].DoSubscribe? && steps[i].spell == spell)
    ensures Silent(Run(Unsubscribe(s, spell), steps), spell)
    ensures Unheard(s.triggers, Run(Unsubscribe(s, spell), steps).triggers, spell)
  {
    UnsubscribeIsLocal(s, spell);
    SilenceLasts(Unsubscribe(s, spell), steps, spell);
  }
}
