/** The spell event bus (crates/spell-event-bus/src/bus.rs, config.rs): timers
    in a heap ordered by their next run, and lists of subscribers per kind of
    peer event. Instants and durations are nanoseconds.

    `timers`, `fired` and `triggers` are histories: every timer subscription
    ever made, every timer firing with its time, and every trigger sent. */
module SpellBus {
  import opened Base

  type SpellId = nat
  type Instant = nat

  const NANOS := 1_000_000_000
  const MAX_PERIOD_SEC := 60 * 60 * 24 * 365 * 100
  const U32_LIMIT := 0x1_0000_0000

  type Seconds = n: nat | n < U32_LIMIT

  datatype PeerEventType = ConnectedEvent | DisconnectedEvent

  datatype TimerConfig = TimerConfig(period: nat, startAt: Instant, endAt: Option<Instant>)

  datatype TriggerConfig = Timer(timer: TimerConfig) | PeerEvents(events: seq<PeerEventType>)

  // ---------------------------------------------------------------- user configuration

  datatype ClockConfig = ClockConfig(startSec: Seconds, endSec: Seconds, periodSec: Seconds)
  datatype UserConfig = UserConfig(clock: ClockConfig, connect: bool, disconnect: bool)
  datatype ConfigError = InvalidPeriod | InvalidEndSec
  datatype Result<T> = Ok(value: T) | Err(error: ConfigError)

  /** One reading of the system clock (since the epoch) and of the monotone clock. */
  datatype Reading = Reading(system: nat, instant: Instant)

  /** Fails for a time in the past. */
  function ToInstant(sec: Seconds, now: Reading): Option<Instant> {
    if sec * NANOS < now.system then None else Some(now.instant + (sec * NANOS - now.system))
  }

  function OneShot(startAt: Instant): TimerConfig {
    TimerConfig(0, startAt, Some(startAt))
  }

  /** The end is read before the start, and the clock once more when the start has passed. */
  function FromClockConfig(c: ClockConfig, atEnd: Reading, atStart: Reading, later: Instant): Result<TimerConfig> {
    if c.periodSec > MAX_PERIOD_SEC then Err(InvalidPeriod)
    else if c.endSec != 0 && (c.endSec < c.startSec || ToInstant(c.endSec, atEnd).None?) then Err(InvalidEndSec)
    else
      var endAt := if c.endSec == 0 then None else ToInstant(c.endSec, atEnd);
      var start := ToInstant(c.startSec, atStart);
      var startAt := if start.Some? then start.value else later;
      Ok(if c.periodSec == 0 then OneShot(startAt) else TimerConfig(c.periodSec * NANOS, startAt, endAt))
  }

  function FromConnectionConfig(connect: bool, disconnect: bool): seq<PeerEventType> {
    (if connect then [ConnectedEvent] else []) + (if disconnect then [DisconnectedEvent] else [])
  }

  function FromUserConfig(u: UserConfig, atEnd: Reading, atStart: Reading, later: Instant)
    : Result<Option<seq<TriggerConfig>>>
  {
    var events := FromConnectionConfig(u.connect, u.disconnect);
    var peers := if events == [] then [] else [PeerEvents(events)];
    if u.clock.startSec == 0 then Ok(if peers == [] then None else Some(peers))
    else
      match FromClockConfig(u.clock, atEnd, atStart, later)
      case Err(e) => Err(e)
      case Ok(timer) => Ok(Some([Timer(timer)] + peers))
  }

  /** A timer that repeats with a real period, or ends where it starts. */
  ghost predicate Bounded(c: TimerConfig) {
    c.period > 0 || c.endAt == Some(c.startAt)
  }

  /** Every accepted user configuration gives at most one timer, which repeats
      with a positive period of at most a hundred years or is a one-shot; it is
      refused exactly for a period that is too long, or an end that precedes the
      start or has passed. */
  lemma UserConfigsAreBounded(u: UserConfig, atEnd: Reading, atStart: Reading, later: Instant)
    ensures var r := FromUserConfig(u, atEnd, atStart, later);
            var clock := u.clock;
            && (r.Err? <==>
                  clock.startSec != 0 &&
                  (clock.periodSec > MAX_PERIOD_SEC ||
                   (clock.endSec != 0 && (clock.endSec < clock.startSec || clock.endSec * NANOS < atEnd.system))))
            && (r.Ok? ==> (r.value.None? <==> clock.startSec == 0 && !u.connect && !u.disconnect))
            && (r.Ok? && r.value.Some? ==>
                  (forall i :: 0 <= i < |r.value.value| && r.value.value[i].Timer? ==>
                    i == 0 && clock.startSec != 0 && Bounded(r.value.value[i].timer)
                    && r.value.value[i].timer.period <= MAX_PERIOD_SEC * NANOS
                    && (r.value.value[i].timer.endAt.None? <==> clock.periodSec != 0 && clock.endSec == 0)))
  {
  }

  /** What an accepted configuration with a clock asks for, in terms of the clock
      readings: the start, or now if it has passed; the period; and the end, which
      for a timer without a period is its start. Connection events follow. */
  lemma UserConfigExactly(u: UserConfig, atEnd: Reading, atStart: Reading, later: Instant)
    requires FromUserConfig(u, atEnd, atStart, later).Ok?
    ensures var configs, clock := FromUserConfig(u, atEnd, atStart, later).value, u.clock;
            var events := (if u.connect then [ConnectedEvent] else [])
                          + (if u.disconnect then [DisconnectedEvent] else []);
            var peers := if events == [] then [] else [PeerEvents(events)];
            && (configs.None? <==> clock.startSec == 0 && events == [])
            && (configs.Some? && clock.startSec == 0 ==> configs.value == peers)
            && (configs.Some? && clock.startSec != 0 ==>
                  && |configs.value| == 1 + |peers| && configs.value[0].Timer? && configs.value[1..] == peers
                  && var t := configs.value[0].timer;
                  && (if clock.startSec * NANOS < atStart.system then t.startAt == later
                      else t.startAt + atStart.system == atStart.instant + clock.startSec * NANOS)
                  && t.period == clock.periodSec * NANOS
                  && (clock.periodSec == 0 ==> t.endAt == Some(t.startAt))
                  && (clock.periodSec != 0 && clock.endSec == 0 ==> t.endAt == None)
                  && (clock.periodSec != 0 && clock.endSec != 0 ==>
                        t.endAt.Some? && t.endAt.value + atEnd.system == atEnd.instant + clock.endSec * NANOS))
  {
  }

  // ---------------------------------------------------------------- state

  /** `timer` is the number of the subscription the entry belongs to. */
  datatype Periodic = Periodic(id: SpellId, period: nat, endAt: Option<Instant>, timer: nat)

  datatype Scheduled = Scheduled(data: Periodic, runAt: Instant)

  datatype TimerSubscription = TimerSubscription(spell: SpellId, config: TimerConfig)
  datatype Firing = Firing(timer: nat, at: Instant)
  datatype Trigger = TimerTrigger(spell: SpellId) | PeerTrigger(spell: SpellId, event: PeerEventType)

  /** The spells subscribed to each type of peer event, in order. */
  type Subscriptions = map<PeerEventType, seq<SpellId>>

  datatype State = State(
    subscribers: Subscriptions,
    scheduled: seq<Scheduled>,
    clock: Instant,
    timers: seq<TimerSubscription>,
    fired: seq<Firing>,
    triggers: seq<Trigger>
  )

  function New(): State {
    State(map[], [], 0, [], [], [])
  }

  // ---------------------------------------------------------------- the heap

  /** The order of the heap is reversed, so that its greatest entry runs first. */
  predicate AtMost(a: Scheduled, b: Scheduled) {
    b.runAt <= a.runAt
  }

  predicate IsTop(heap: seq<Scheduled>, i: nat) {
    i < |heap| && forall j :: 0 <= j < |heap| ==> AtMost(heap[j], heap[i])
  }

  function Minus(now: Instant, earlier: Instant): nat {
    if earlier <= now then now - earlier else 0
  }

  /** How long the timer of one loop iteration waits, if there is anything to wait for. */
  function NextScheduledIn(heap: seq<Scheduled>, top: nat, now: Instant): nat
    requires IsTop(heap, top)
  {
    Minus(heap[top].runAt, now)
  }

  /** Runs again one period from now unless the end has come. */
  function Reschedule(data: Periodic, now: Instant, overflows: bool): Option<Scheduled> {
    if data.endAt.Some? && data.endAt.value <= now then None
    else if overflows then None
    else Some(Scheduled(data, now + data.period))
  }

  // ---------------------------------------------------------------- commands

  function AddPeerEvents(subs: Subscriptions, spell: SpellId, events: seq<PeerEventType>): Subscriptions {
    if events == [] then subs
    else
      var init, last := AddPeerEvents(subs, spell, events[..|events| - 1]), events[|events| - 1];
      init[last := Listeners(init, last) + [spell]]
  }

  function Listeners(subs: Subscriptions, event: PeerEventType): seq<SpellId> {
    if event in subs then subs[event] else []
  }

  function AddTrigger(s: State, spell: SpellId, c: TriggerConfig): State {
    match c
    case Timer(t) =>
      s.(scheduled := s.scheduled + [Scheduled(Periodic(spell, t.period, t.endAt, |s.timers|), t.startAt)],
         timers := s.timers + [TimerSubscription(spell, t)])
    case PeerEvents(events) => s.(subscribers := AddPeerEvents(s.subscribers, spell, events))
  }

  function Subscribe(s: State, spell: SpellId, configs: seq<TriggerConfig>): State {
    if configs == [] then s
    else AddTrigger(Subscribe(s, spell, configs[..|configs| - 1]), spell, configs[|configs| - 1])
  }

  function WithoutSpell(heap: seq<Scheduled>, spell: SpellId): seq<Scheduled> {
    if heap == [] then []
    else
      var init, last := heap[..|heap| - 1], heap[|heap| - 1];
      WithoutSpell(init, spell) + (if last.data.id == spell then [] else [last])
  }

  function Others(spells: seq<SpellId>, spell: SpellId): seq<SpellId> {
    if spells == [] then []
    else
      var init, last := spells[..|spells| - 1], spells[|spells| - 1];
      Others(init, spell) + (if last == spell then [] else [last])
  }

  function Unsubscribe(s: State, spell: SpellId): State {
    s.(scheduled := WithoutSpell(s.scheduled, spell),
       subscribers := map e | e in s.subscribers :: Others(s.subscribers[e], spell))
  }

  // ---------------------------------------------------------------- events

  function PeerTriggers(spells: seq<SpellId>, event: PeerEventType): seq<Trigger> {
    if spells == [] then []
    else PeerTriggers(spells[..|spells| - 1], event) + [PeerTrigger(spells[|spells| - 1], event)]
  }

  /** Notifies the subscribers in order; sending may fail after `sent` of them. */
  function OnPeerEvent(s: State, event: PeerEventType, sent: nat): State {
    var spells := Listeners(s.subscribers, event);
    s.(triggers := s.triggers + PeerTriggers(spells[..if sent < |spells| then sent else |spells|], event))
  }

  /** The timer fires at `at` for the top entry; when the trigger cannot be sent
      the entry is not rescheduled. */
  function OnTimer(s: State, top: nat, at: Instant, sendOk: bool, now: Instant, overflows: bool): State
    requires top < |s.scheduled|
  {
    var e := s.scheduled[top];
    var rest := DropAt(s.scheduled, top);
    if !sendOk then s.(scheduled := rest, clock := now)
    else
      var again := Reschedule(e.data, now, overflows);
      s.(scheduled := if again.Some? then rest + [again.value] else rest,
         clock := now,
         fired := s.fired + [Firing(e.data.timer, at)],
         triggers := s.triggers + [TimerTrigger(e.data.id)])
  }

  // ---------------------------------------------------------------- runs

  datatype Step =
    | DoSubscribe(spell: SpellId, configs: seq<TriggerConfig>)
    | DoUnsubscribe(spell: SpellId)
    | PeerEvent(event: PeerEventType, sent: nat)
    | TimerTick(top: nat, looped: Instant, waited: nat, sendOk: bool, now: Instant, overflows: bool)

  /** The timer of an iteration that began at `looped` waits at least until the
      top entry is due; the clock never goes back. */
  ghost predicate Allowed(s: State, step: Step) {
    step.TimerTick? ==>
      && IsTop(s.scheduled, step.top)
      && s.clock <= step.looped
      && NextScheduledIn(s.scheduled, step.top, step.looped) <= step.waited
      && step.looped + step.waited <= step.now
  }

  function Apply(s: State, step: Step): State
    requires step.TimerTick? ==> step.top < |s.scheduled|
  {
    match step
    case DoSubscribe(spell, configs) => Subscribe(s, spell, configs)
    case DoUnsubscribe(spell) => Unsubscribe(s, spell)
    case PeerEvent(event, sent) => OnPeerEvent(s, event, sent)
    case TimerTick(top, looped, waited, sendOk, now, overflows) =>
      OnTimer(s, top, looped + waited, sendOk, now, overflows)
  }

  ghost predicate ValidRun(s: State, steps: seq<Step>)
    decreases |steps|
  {
    steps == [] || (Allowed(s, steps[0]) && ValidRun(Apply(s, steps[0]), steps[1..]))
  }

  ghost function Run(s: State, steps: seq<Step>): State
    requires ValidRun(s, steps)
    decreases |steps|
  {
    if steps == [] then s else Run(Apply(s, steps[0]), steps[1..])
  }
}
