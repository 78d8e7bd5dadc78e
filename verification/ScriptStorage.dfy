/** The script storage (script-storage/src/script_storage.rs) as a state machine:
    scripts are executed on a timer by sending particles, and removed when their
    particles fail too often. Clocks and hash-map orders are inputs. */
module ScriptStorage {
  import opened Base

  type ScriptId = string
  type PeerId = nat
  type Instant = nat
  type Duration = nat

  type Byte = n: nat | n < 0x100

  /** Arithmetic on 8-bit and 32-bit counters. */
  function Wrap8(n: nat): nat {
    n % 0x100
  }

  function Wrap32(n: nat): nat {
    n % 0x1_0000_0000
  }

  datatype Config = Config(particleTtl: Duration, maxFailures: Byte)

  datatype Script = Script(
    src: string,
    failures: nat,
    interval: Option<Duration>,
    delay: Duration,
    executedAt: Option<Instant>,
    nextExecution: Instant,
    creator: PeerId,
    executions: nat,
    times: Option<nat>
  ) {
    predicate Ready(now: Instant) {
      nextExecution <= now
    }

    predicate Finished() {
      times.Some? && executions >= times.value
    }
  }

  function NewScript(src: string, interval: Option<Duration>, delay: Duration,
                     creator: PeerId, times: Option<nat>, now: Instant): Script {
    Script(src, 0, interval, delay, None, now + delay, creator, 0, times)
  }

  function Period(interval: Option<Duration>): Duration {
    if interval.Some? then interval.value else 0
  }

  // ---------------------------------------------------------------- particle ids

  function Digit(d: nat): char
    requires d < 10
  {
    ('0' as nat + d) as char
  }

  function Decimal(n: nat): string {
    if n < 10 then [Digit(n)] else Decimal(n / 10) + [Digit(n % 10)]
  }

  function ParticleId(id: ScriptId, executions: nat): string {
    "auto_" + id + "_" + Decimal(executions)
  }

  // ---------------------------------------------------------------- state

  datatype SentParticle = SentParticle(script: ScriptId, deadline: Instant)

  /** A particle handed to the connection pool. */
  datatype Send = Send(script: ScriptId, particle: string, src: string, at: Instant)

  datatype Creation = Creation(src: string, interval: Option<Duration>, delay: Duration, creator: PeerId, at: Instant)

  datatype Removal = Removed(found: bool) | PermissionDenied

  /** `log`, `created`, `reported`, `removals` and `clock` record the past: the
      particles sent, the scripts added, the failures counted against a script
      and the answers to removals. */
  datatype State = State(
    scripts: map<ScriptId, Script>,
    sent: map<string, SentParticle>,
    log: seq<Send>,
    created: map<ScriptId, Creation>,
    reported: seq<ScriptId>,
    removals: seq<Removal>,
    clock: Instant
  )

  function New(): State {
    State(map[], map[], [], map[], [], [], 0)
  }

  // ---------------------------------------------------------------- commands

  function AddScript(s: State, id: ScriptId, src: string, interval: Option<Duration>,
                     delay: Duration, creator: PeerId, now: Instant): State {
    var times := if interval.None? then Some(1) else None;
    s.(scripts := s.scripts[id := NewScript(src, interval, delay, creator, times, now)],
       created := s.created[id := Creation(src, interval, delay, creator, now)],
       clock := now)
  }

  function RemoveScript(s: State, id: ScriptId, actor: PeerId, byAdmin: bool): State {
    if id !in s.scripts then s.(removals := s.removals + [Removed(false)])
    else if byAdmin || s.scripts[id].creator == actor then
      s.(scripts := s.scripts - {id}, removals := s.removals + [Removed(true)])
    else s.(removals := s.removals + [PermissionDenied])
  }

  // ---------------------------------------------------------------- the timer

  /** The counter is 32 bits wide. */
  function Executed(x: Script, now: Instant): Script {
    x.(executions := Wrap32(x.executions + 1), executedAt := Some(now), nextExecution := now + Period(x.interval))
  }

  datatype Execution = Execution(id: ScriptId, script: Script)

  datatype Marked = Marked(scripts: map<ScriptId, Script>, ready: seq<Execution>)

  /** Ready scripts are updated and copied out, in the order of the map. */
  function Mark(scripts: map<ScriptId, Script>, order: seq<ScriptId>, now: Instant): Marked {
    if order == [] then Marked(scripts, [])
    else
      var before, id := Mark(scripts, order[..|order| - 1], now), order[|order| - 1];
      if id in before.scripts && before.scripts[id].Ready(now) then
        var x := Executed(before.scripts[id], now);
        Marked(before.scripts[id := x], before.ready + [Execution(id, x)])
      else before
  }

  function SendOne(c: Config, s: State, e: Execution, now: Instant): State {
    var particle := ParticleId(e.id, e.script.executions);
    s.(sent := s.sent[particle := SentParticle(e.id, now + c.particleTtl)],
       log := s.log + [Send(e.id, particle, e.script.src, now)])
  }

  function SendAll(c: Config, s: State, ready: seq<Execution>, now: Instant): State {
    if ready == [] then s
    else SendOne(c, SendAll(c, s, ready[..|ready| - 1], now), ready[|ready| - 1], now)
  }

  function Unfinished(scripts: map<ScriptId, Script>): map<ScriptId, Script> {
    map id | id in scripts && !scripts[id].Finished() :: scripts[id]
  }

  function ExecuteScripts(c: Config, s: State, now: Instant, order: seq<ScriptId>): State {
    var m := Mark(s.scripts, order, now);
    var n := SendAll(c, s.(scripts := m.scripts), m.ready, now);
    n.(scripts := Unfinished(n.scripts))
  }

  /** Keeps the particles whose deadline has passed. */
  function Cleanup(sent: map<string, SentParticle>, now: Instant): map<string, SentParticle> {
    map p | p in sent && sent[p].deadline < now :: sent[p]
  }

  /** A timer tick; the clean-up reads the clock again. */
  function Tick(c: Config, s: State, now: Instant, order: seq<ScriptId>, cleanupAt: Instant): State {
    var n := ExecuteScripts(c, s, now, order);
    n.(sent := Cleanup(n.sent, cleanupAt), clock := cleanupAt)
  }

  // ---------------------------------------------------------------- failures

  /** The counter of failures is 8 bits wide. */
  function ParticleFailed(c: Config, s: State, particle: string): State {
    if particle !in s.sent then s
    else
      var id, n := s.sent[particle].script, s.(sent := s.sent - {particle});
      if id !in s.scripts then n
      else
        var x, failures := s.scripts[id], Wrap8(s.scripts[id].failures + 1);
        n.(reported := s.reported + [id],
           scripts := if failures < c.maxFailures then s.scripts[id := x.(failures := failures)] else s.scripts - {id})
  }

  // ---------------------------------------------------------------- runs

  datatype Step =
    | DoAdd(id: ScriptId, src: string, interval: Option<Duration>, delay: Duration, creator: PeerId, now: Instant)
    | DoRemove(id: ScriptId, actor: PeerId, byAdmin: bool)
    | OnTick(now: Instant, order: seq<ScriptId>, cleanupAt: Instant)
    | OnFailed(particle: string)

  function Apply(c: Config, s: State, step: Step): State {
    match step
    case DoAdd(id, src, interval, delay, creator, now) => AddScript(s, id, src, interval, delay, creator, now)
    case DoRemove(id, actor, byAdmin) => RemoveScript(s, id, actor, byAdmin)
    case OnTick(now, order, cleanupAt) => Tick(c, s, now, order, cleanupAt)
    case OnFailed(particle) => ParticleFailed(c, s, particle)
  }

  /** Script ids are new, the clock is monotone, and the order lists the keys of
      the map of scripts. */
  ghost predicate Allowed(s: State, step: Step) {
    match step
    case DoAdd(id, _, _, _, _, now) => id !in s.created && s.clock <= now
    case OnTick(now, order, cleanupAt) => s.clock <= now <= cleanupAt && Enumerates(order, s.scripts.Keys)
    case _ => true
  }

  ghost function Run(c: Config, steps: seq<Step>): State {
    if steps == [] then New() else Apply(c, Run(c, steps[..|steps| - 1]), steps[|steps| - 1])
  }

  ghost predicate ValidRun(c: Config, steps: seq<Step>) {
    steps == [] ||
    (ValidRun(c, steps[..|steps| - 1]) && Allowed(Run(c, steps[..|steps| - 1]), steps[|steps| - 1]))
  }
}
