/** What every run of the script storage keeps: the schedule of each script, the
    identity of its particles and the count of its failures. */
module ScriptStorageRuns {
  import opened Base
  import opened ScriptStorage

  // ---------------------------------------------------------------- particle ids

  lemma {:induction false} DecimalHasNoUnderscore(n: nat)
    ensures '_' !in Decimal(n) && Decimal(n) != []
  {
    if n >= 10 { DecimalHasNoUnderscore(n / 10); }
  }

  lemma DecimalLast(n: nat)
    ensures var d := Decimal(n); |d| > 0 && d[|d| - 1] == Digit(n % 10) && (n >= 10 ==> d[..|d| - 1] == Decimal(n / 10))
  {
  }

  lemma {:induction false} DecimalInjective(m: nat, n: nat)
    requires Decimal(m) == Decimal(n)
    ensures m == n
  {
    DecimalLast(m);
    DecimalLast(n);
    assert m % 10 == n % 10;
    DecimalHasNoUnderscore(m / 10);
    DecimalHasNoUnderscore(n / 10);
    if m >= 10 && n >= 10 { DecimalInjective(m / 10, n / 10); }
  }

  /** Two texts that end in an underscore and a part without one agree only if
      both parts agree. */
  lemma LastUnderscore(a: string, x: string, b: string, y: string)
    requires a + "_" + x == b + "_" + y && '_' !in x && '_' !in y
    ensures a == b && x == y
  {
    var s, t := a + "_" + x, b + "_" + y;
    assert s[|a|] == '_' && t[|b|] == '_';
    assert forall i :: |a| < i < |s| ==> s[i] == x[i - |a| - 1];
    assert forall i :: |b| < i < |t| ==> t[i] == y[i - |b| - 1];
    assert |a| == |b|;
    assert a == s[..|a|] && b == t[..|b|];
    assert x == s[|a| + 1..] && y == t[|b| + 1..];
  }

  /** A particle id determines the script and the number in it. */
  lemma ParticleIdInjective(a: ScriptId, m: nat, b: ScriptId, n: nat)
    ensures ParticleId(a, m) == ParticleId(b, n) <==> a == b && m == n
  {
    if ParticleId(a, m) == ParticleId(b, n) {
      DecimalHasNoUnderscore(m);
      DecimalHasNoUnderscore(n);
      LastUnderscore("auto_" + a, Decimal(m), "auto_" + b, Decimal(n));
      assert ("auto_" + a)[5..] == a && ("auto_" + b)[5..] == b;
      DecimalInjective(m, n);
    }
  }

  // ---------------------------------------------------------------- counting

  /** How many particles a script has sent. */
  function Sends(log: seq<Send>, id: ScriptId): nat {
    if log == [] then 0
    else Sends(log[..|log| - 1], id) + if log[|log| - 1].script == id then 1 else 0
  }

  /** How many failures were counted against a script. */
  function Reports(reported: seq<ScriptId>, id: ScriptId): nat {
    if reported == [] then 0
    else Reports(reported[..|reported| - 1], id) + if reported[|reported| - 1] == id then 1 else 0
  }

  /** Entry `i` of the log is the n-th particle of its script, from 1. */
  function Nth(log: seq<Send>, i: nat): nat
    requires i < |log|
  {
    Sends(log[..i], log[i].script) + 1
  }

  lemma SendsOneMore(log: seq<Send>, e: Send, id: ScriptId)
    ensures Sends(log + [e], id) == Sends(log, id) + if e.script == id then 1 else 0
  {
    assert (log + [e])[..|log|] == log;
  }

  lemma ReportsOneMore(reported: seq<ScriptId>, r: ScriptId, id: ScriptId)
    ensures Reports(reported + [r], id) == Reports(reported, id) + if r == id then 1 else 0
  {
    assert (reported + [r])[..|reported|] == reported;
  }

  lemma NthOneMore(log: seq<Send>, e: Send, i: nat)
    requires i <= |log|
    ensures i < |log| ==> Nth(log + [e], i) == Nth(log, i)
    ensures i == |log| ==> Nth(log + [e], i) == Sends(log, e.script) + 1
  {
    assert (log + [e])[..i] == log[..i];
    assert log[..|log|] == log;
  }

  lemma {:induction false} SendsMonotone(log: seq<Send>, i: nat, j: nat, id: ScriptId)
    requires i <= j <= |log|
    ensures Sends(log[..i], id) <= Sends(log[..j], id)
    ensures i < j && log[i].script == id ==> Sends(log[..i], id) < Sends(log[..j], id)
    decreases j
  {
    if i < j {
      assert log[..j][..j - 1] == log[..j - 1];
      SendsMonotone(log, i, j - 1, id);
    }
  }

  // ---------------------------------------------------------------- invariants

  function Limit(c: Config): nat {
    if c.maxFailures == 0 then 1 else c.maxFailures
  }

  /** The earliest time at which a script that has sent n particles sends the next. */
  function Earliest(k: Creation, n: nat): nat {
    if n == 0 then k.at + k.delay else Earliest(k, n - 1) + Period(k.interval)
  }

  lemma {:induction false} EarliestIs(k: Creation, n: nat)
    ensures Earliest(k, n) == k.at + k.delay + n * Period(k.interval)
  {
    if n > 0 { EarliestIs(k, n - 1); }
  }

  lemma WrapNext(n: nat)
    ensures Wrap32(Wrap32(n) + 1) == Wrap32(n + 1)
  {
  }

  /** When a script last sent a particle. */
  function LastAt(log: seq<Send>, id: ScriptId): Instant {
    if log == [] then 0
    else if log[|log| - 1].script == id then log[|log| - 1].at
    else LastAt(log[..|log| - 1], id)
  }

  /** When a script is due: after its delay, then one interval after each particle. */
  function DueAt(k: Creation, log: seq<Send>, id: ScriptId): Instant {
    if Sends(log, id) == 0 then k.at + k.delay else LastAt(log, id) + Period(k.interval)
  }

  lemma LastAtOneMore(log: seq<Send>, e: Send, id: ScriptId)
    ensures LastAt(log + [e], id) == if e.script == id then e.at else LastAt(log, id)
  {
    assert (log + [e])[..|log|] == log;
  }

  /** A stored script agrees with its creation and with its past. */
  ghost predicate ScriptOk(c: Config, s: State, id: ScriptId) {
    && id in s.scripts && id in s.created
    && var x, k := s.scripts[id], s.created[id];
    && x.src == k.src && x.interval == k.interval && x.creator == k.creator
    && x.times == (if k.interval.None? then Some(1) else None)
    && x.executions == Wrap32(Sends(s.log, id))
    && x.failures == Reports(s.reported, id) < Limit(c)
    && x.executedAt == (if Sends(s.log, id) == 0 then None else Some(LastAt(s.log, id)))
    && x.nextExecution == DueAt(k, s.log, id) >= Earliest(k, Sends(s.log, id))
  }

  /** Earlier particles of a stored script lie an interval before its next execution. */
  ghost predicate SpacedBefore(s: State, id: ScriptId) {
    id in s.scripts && forall i :: 0 <= i < |s.log| && s.log[i].script == id ==>
      s.log[i].at + Period(s.scripts[id].interval) <= s.scripts[id].nextExecution
  }

  /** A script without an interval has not been executed. */
  ghost predicate Unspent(s: State, id: ScriptId) {
    id in s.scripts && (s.scripts[id].interval.None? ==> Sends(s.log, id) == 0)
  }

  ghost predicate EntryOk(s: State, i: nat)
    requires i < |s.log|
  {
    && var e := s.log[i];
    && e.script in s.created
    && var k := s.created[e.script];
    && e.src == k.src
    && e.particle == ParticleId(e.script, Wrap32(Nth(s.log, i)))
    && e.at >= Earliest(k, Sends(s.log[..i], e.script))
    && (k.interval.None? ==> Nth(s.log, i) == 1)
  }

  ghost predicate LogOk(s: State) {
    && (forall i :: 0 <= i < |s.log| ==> EntryOk(s, i))
    && (forall i, j :: 0 <= i < j < |s.log| && s.log[i].script == s.log[j].script && s.log[i].script in s.created ==>
          s.log[i].at + Period(s.created[s.log[i].script].interval) <= s.log[j].at)
  }

  ghost predicate CountsOk(c: Config, s: State) {
    forall id :: CountOk(c, s, id)
  }

  /** Failures stay within the limit, and only scripts that were added count. */
  ghost predicate CountOk(c: Config, s: State, id: ScriptId) {
    && Reports(s.reported, id) <= Limit(c)
    && (Sends(s.log, id) > 0 || Reports(s.reported, id) > 0 ==> id in s.created)
  }

  ghost predicate Inv(c: Config, s: State) {
    && LogOk(s) && CountsOk(c, s)
    && (forall id :: id in s.scripts ==> ScriptOk(c, s, id) && SpacedBefore(s, id))
  }

  ghost predicate AllUnspent(s: State) {
    forall id :: id in s.scripts ==> Unspent(s, id)
  }

  // ---------------------------------------------------------------- steps that send nothing

  lemma SameLog(s: State, n: State)
    requires LogOk(s) && n.log == s.log && s.created.Keys <= n.created.Keys
    requires forall id :: id in s.created ==> n.created[id] == s.created[id]
    ensures LogOk(n)
  {
    forall i | 0 <= i < |n.log| ensures EntryOk(n, i) { assert EntryOk(s, i); }
    forall i, j | 0 <= i < j < |n.log| && n.log[i].script == n.log[j].script && n.log[i].script in n.created
      ensures n.log[i].at + Period(n.created[n.log[i].script].interval) <= n.log[j].at
    {
      assert EntryOk(s, i);
    }
  }

  lemma {:induction false} NoSends(log: seq<Send>, id: ScriptId)
    requires Sends(log, id) == 0
    ensures forall i :: 0 <= i < |log| ==> log[i].script != id
  {
    if log != [] { NoSends(log[..|log| - 1], id); }
  }

  lemma AddKeeps(c: Config, s: State, id: ScriptId, src: string, interval: Option<Duration>,
                 delay: Duration, creator: PeerId, now: Instant)
    requires Inv(c, s) && AllUnspent(s) && id !in s.created
    ensures var n := AddScript(s, id, src, interval, delay, creator, now); Inv(c, n) && AllUnspent(n)
  {
    var n := AddScript(s, id, src, interval, delay, creator, now);
    SameLog(s, n);
    assert CountOk(c, s, id);
    forall q ensures CountOk(c, n, q) { assert CountOk(c, s, q); }
    NoSends(s.log, id);
    forall q | q in n.scripts ensures ScriptOk(c, n, q) && SpacedBefore(n, q) && Unspent(n, q) {
      if q != id { assert ScriptOk(c, s, q) && SpacedBefore(s, q) && Unspent(s, q); }
    }
  }

  /** Scripts are only taken away. */
  lemma RemovingKeeps(c: Config, s: State, n: State)
    requires Inv(c, s) && n.scripts.Keys <= s.scripts.Keys
    requires forall id :: id in n.scripts ==> n.scripts[id] == s.scripts[id]
    requires n.log == s.log && n.created == s.created && n.reported == s.reported
    ensures Inv(c, n)
    ensures AllUnspent(s) ==> AllUnspent(n)
  {
    SameLog(s, n);
    forall q ensures CountOk(c, n, q) { assert CountOk(c, s, q); }
    forall q | q in n.scripts ensures ScriptOk(c, n, q) && SpacedBefore(n, q) && (AllUnspent(s) ==> Unspent(n, q)) {
      assert ScriptOk(c, s, q) && SpacedBefore(s, q);
      if AllUnspent(s) { assert Unspent(s, q); }
    }
  }

  lemma FailedKeeps(c: Config, s: State, particle: string)
    requires Inv(c, s) && AllUnspent(s)
    ensures Inv(c, ParticleFailed(c, s, particle)) && AllUnspent(ParticleFailed(c, s, particle))
  {
    var n := ParticleFailed(c, s, particle);
    if particle !in s.sent {
    } else if s.sent[particle].script !in s.scripts {
      RemovingKeeps(c, s, n);
    } else {
      var id := s.sent[particle].script;
      assert ScriptOk(c, s, id);
      SameLog(s, n);
      forall q ensures CountOk(c, n, q) {
        assert CountOk(c, s, q);
        ReportsOneMore(s.reported, id, q);
      }
      forall q | q in n.scripts ensures ScriptOk(c, n, q) && SpacedBefore(n, q) && Unspent(n, q) {
        FailedScript(c, s, particle, q);
      }
    }
  }

  lemma FailedScript(c: Config, s: State, particle: string, q: ScriptId)
    requires particle in s.sent && s.sent[particle].script in s.scripts && q in ParticleFailed(c, s, particle).scripts
    requires ScriptOk(c, s, q) && SpacedBefore(s, q) && Unspent(s, q)
    ensures var n := ParticleFailed(c, s, particle); ScriptOk(c, n, q) && SpacedBefore(n, q) && Unspent(n, q)
  {
    ReportsOneMore(s.reported, s.sent[particle].script, q);
  }

  // ---------------------------------------------------------------- a tick, one script at a time

  /** Marks one script and sends its particle at once. */
  function Fire(c: Config, s: State, id: ScriptId, now: Instant): State
    requires id in s.scripts
  {
    var x := Executed(s.scripts[id], now);
    SendOne(c, s.(scripts := s.scripts[id := x]), Execution(id, x), now)
  }

  function FireAll(c: Config, s: State, order: seq<ScriptId>, now: Instant): State {
    if order == [] then s
    else
      var before, id := FireAll(c, s, order[..|order| - 1], now), order[|order| - 1];
      if id in before.scripts && before.scripts[id].Ready(now) then Fire(c, before, id, now) else before
  }

  lemma {:induction false} SendAllScripts(c: Config, s: State, scripts: map<ScriptId, Script>,
                                          ready: seq<Execution>, now: Instant)
    ensures SendAll(c, s.(scripts := scripts), ready, now) == SendAll(c, s, ready, now).(scripts := scripts)
  {
    if ready != [] { SendAllScripts(c, s, scripts, ready[..|ready| - 1], now); }
  }

  /** Marking all scripts and then sending all particles is the same as firing
      script by script. */
  lemma {:induction false} MarkThenSend(c: Config, s: State, order: seq<ScriptId>, now: Instant)
    ensures var m := Mark(s.scripts, order, now);
            SendAll(c, s.(scripts := m.scripts), m.ready, now) == FireAll(c, s, order, now)
  {
    if order == [] {
      assert s.(scripts := s.scripts) == s;
    } else {
      var init, id := order[..|order| - 1], order[|order| - 1];
      MarkThenSend(c, s, init, now);
      var b, m := Mark(s.scripts, init, now), Mark(s.scripts, order, now);
      SendAllScripts(c, s, b.scripts, b.ready, now);
      if id in b.scripts && b.scripts[id].Ready(now) {
        assert m.ready[..|m.ready| - 1] == b.ready;
        SendAllScripts(c, s, m.scripts, b.ready, now);
      }
    }
  }

  lemma FireScript(c: Config, s: State, id: ScriptId, now: Instant)
    requires ScriptOk(c, s, id) && SpacedBefore(s, id) && s.scripts[id].Ready(now)
    ensures ScriptOk(c, Fire(c, s, id, now), id) && SpacedBefore(Fire(c, s, id, now), id)
  {
    var n := Fire(c, s, id, now);
    SendsOneMore(s.log, n.log[|s.log|], id);
    LastAtOneMore(s.log, n.log[|s.log|], id);
    WrapNext(Sends(s.log, id));
  }

  lemma FireOther(c: Config, s: State, id: ScriptId, now: Instant, q: ScriptId)
    requires id in s.scripts && q != id && ScriptOk(c, s, q) && SpacedBefore(s, q)
    ensures ScriptOk(c, Fire(c, s, id, now), q) && SpacedBefore(Fire(c, s, id, now), q)
    ensures Unspent(s, q) ==> Unspent(Fire(c, s, id, now), q)
  {
    var n := Fire(c, s, id, now);
    SendsOneMore(s.log, n.log[|s.log|], q);
    LastAtOneMore(s.log, n.log[|s.log|], q);
  }

  lemma FireLog(c: Config, s: State, id: ScriptId, now: Instant)
    requires LogOk(s) && ScriptOk(c, s, id) && SpacedBefore(s, id) && Unspent(s, id) && s.scripts[id].Ready(now)
    ensures LogOk(Fire(c, s, id, now))
  {
    var n := Fire(c, s, id, now);
    var e := n.log[|s.log|];
    assert n.log == s.log + [e];
    forall i | 0 <= i < |n.log| ensures EntryOk(n, i) {
      if i < |s.log| { OldEntry(s, n, e, i); } else { NewEntry(c, s, id, now); }
    }
  }

  lemma OldEntry(s: State, n: State, e: Send, i: nat)
    requires i < |s.log| && EntryOk(s, i) && n.log == s.log + [e] && n.created == s.created
    ensures EntryOk(n, i)
  {
    NthOneMore(s.log, e, i);
  }

  lemma NewEntry(c: Config, s: State, id: ScriptId, now: Instant)
    requires ScriptOk(c, s, id) && Unspent(s, id) && s.scripts[id].Ready(now)
    ensures EntryOk(Fire(c, s, id, now), |s.log|)
  {
    var n := Fire(c, s, id, now);
    NthOneMore(s.log, n.log[|s.log|], |s.log|);
    assert n.log == s.log + [n.log[|s.log|]];
    WrapNext(Sends(s.log, id));
  }

  lemma FireKeeps(c: Config, s: State, id: ScriptId, now: Instant)
    requires Inv(c, s) && id in s.scripts && Unspent(s, id) && s.scripts[id].Ready(now)
    ensures Inv(c, Fire(c, s, id, now))
    ensures forall q :: q in s.scripts && q != id && Unspent(s, q) ==> Unspent(Fire(c, s, id, now), q)
  {
    var n := Fire(c, s, id, now);
    assert ScriptOk(c, s, id) && SpacedBefore(s, id);
    FireLog(c, s, id, now);
    forall q ensures CountOk(c, n, q) {
      assert CountOk(c, s, q);
      SendsOneMore(s.log, n.log[|s.log|], q);
    }
    forall q | q in n.scripts
      ensures ScriptOk(c, n, q) && SpacedBefore(n, q) && (q != id && Unspent(s, q) ==> Unspent(n, q))
    {
      if q == id { FireScript(c, s, id, now); } else { FireOther(c, s, id, now, q); }
    }
  }

  lemma {:induction false} FireAllKeeps(c: Config, s: State, order: seq<ScriptId>, now: Instant)
    requires Inv(c, s) && AllUnspent(s) && Distinct(order)
    ensures var n := FireAll(c, s, order, now);
            && Inv(c, n) && n.scripts.Keys == s.scripts.Keys
            && (forall id :: id in n.scripts && id !in order ==> Unspent(n, id))
  {
    if order != [] {
      var init, id := order[..|order| - 1], order[|order| - 1];
      assert order == init + [id];
      assert id !in init;
      FireAllKeeps(c, s, init, now);
      var b := FireAll(c, s, init, now);
      if id in b.scripts && b.scripts[id].Ready(now) {
        FireKeeps(c, b, id, now);
      }
    }
  }

  lemma {:induction false} LastSend(log: seq<Send>, id: ScriptId) returns (i: nat)
    requires Sends(log, id) > 0
    ensures i < |log| && log[i].script == id && Nth(log, i) == Sends(log, id)
  {
    if log[|log| - 1].script == id {
      i := |log| - 1;
    } else {
      i := LastSend(log[..|log| - 1], id);
      assert log[..|log| - 1][..i] == log[..i];
    }
  }

  lemma OneShot(s: State, id: ScriptId)
    requires LogOk(s) && id in s.created && s.created[id].interval.None?
    ensures Sends(s.log, id) <= 1
  {
    if Sends(s.log, id) > 0 {
      var i := LastSend(s.log, id);
      assert EntryOk(s, i);
    }
  }

  lemma TickIs(c: Config, s: State, now: Instant, order: seq<ScriptId>, cleanupAt: Instant)
    ensures var f, n := FireAll(c, s, order, now), Tick(c, s, now, order, cleanupAt);
            n.scripts == Unfinished(f.scripts) && n.log == f.log && n.created == f.created && n.reported == f.reported
  {
    MarkThenSend(c, s, order, now);
  }

  lemma TickKeeps(c: Config, s: State, now: Instant, order: seq<ScriptId>, cleanupAt: Instant)
    requires Inv(c, s) && AllUnspent(s) && Distinct(order)
    ensures Inv(c, Tick(c, s, now, order, cleanupAt)) && AllUnspent(Tick(c, s, now, order, cleanupAt))
  {
    FireAllKeeps(c, s, order, now);
    var f, n := FireAll(c, s, order, now), Tick(c, s, now, order, cleanupAt);
    TickIs(c, s, now, order, cleanupAt);
    RemovingKeeps(c, f, n);
    forall id | id in n.scripts ensures Unspent(n, id) {
      assert ScriptOk(c, f, id);
      FinishedIfSpent(c, f, id);
    }
  }

  lemma FinishedIfSpent(c: Config, s: State, id: ScriptId)
    requires LogOk(s) && ScriptOk(c, s, id) && !s.scripts[id].Finished()
    ensures Unspent(s, id)
  {
    if s.scripts[id].interval.None? { OneShot(s, id); }
  }

  lemma ApplyKeeps(c: Config, s: State, step: Step)
    requires Inv(c, s) && AllUnspent(s) && Allowed(s, step)
    ensures Inv(c, Apply(c, s, step)) && AllUnspent(Apply(c, s, step))
  {
    match step
    case DoAdd(id, src, interval, delay, creator, now) => AddKeeps(c, s, id, src, interval, delay, creator, now);
    case DoRemove(id, actor, byAdmin) => RemovingKeeps(c, s, RemoveScript(s, id, actor, byAdmin));
    case OnTick(now, order, cleanupAt) => TickKeeps(c, s, now, order, cleanupAt);
    case OnFailed(particle) => FailedKeeps(c, s, particle);
  }

  lemma {:induction false} RunKeeps(c: Config, steps: seq<Step>)
    requires ValidRun(c, steps)
    ensures Inv(c, Run(c, steps)) && AllUnspent(Run(c, steps))
  {
    if steps != [] {
      RunKeeps(c, steps[..|steps| - 1]);
      ApplyKeeps(c, Run(c, steps[..|steps| - 1]), steps[|steps| - 1]);
    }
  }

  // ---------------------------------------------------------------- main theorems

  /** The n-th particle of a script is sent no earlier than its creation plus
      delay plus n - 1 intervals, later particles follow earlier ones by at
      least an interval, a script without an interval sends at most one
      particle, and each particle carries the source of its script. */
  ghost predicate OnSchedule(s: State) {
    && (forall i :: 0 <= i < |s.log| ==> s.log[i].script in s.created)
    && (forall i :: 0 <= i < |s.log| ==>
          var k := s.created[s.log[i].script];
          s.log[i].src == k.src && s.log[i].at >= k.at + k.delay + (Nth(s.log, i) - 1) * Period(k.interval))
    && (forall i, j :: 0 <= i < j < |s.log| && s.log[i].script == s.log[j].script ==>
          s.log[i].at + Period(s.created[s.log[i].script].interval) <= s.log[j].at)
    && (forall id :: id in s.created && s.created[id].interval.None? ==> Sends(s.log, id) <= 1)
  }

  lemma ScheduleOf(s: State)
    requires LogOk(s)
    ensures OnSchedule(s)
  {
    forall i | 0 <= i < |s.log|
      ensures && s.log[i].script in s.created
              && var k := s.created[s.log[i].script];
                 s.log[i].src == k.src && s.log[i].at >= k.at + k.delay + (Nth(s.log, i) - 1) * Period(k.interval)
    {
      assert EntryOk(s, i);
      EarliestIs(s.created[s.log[i].script], Nth(s.log, i) - 1);
    }
    forall id | id in s.created && s.created[id].interval.None? ensures Sends(s.log, id) <= 1 { OneShot(s, id); }
  }

  /** Every run with new script ids keeps every script on its schedule. */
  lemma ScriptSchedule(c: Config, steps: seq<Step>)
    requires ValidRun(c, steps)
    ensures OnSchedule(Run(c, steps))
  {
    RunKeeps(c, steps);
    ScheduleOf(Run(c, steps));
  }

  /** Particle ids repeat exactly when one script comes round its 32-bit counter:
      two particles of a run have the same id if and only if they are of the same
      script and their numbers agree modulo 2^32. */
  lemma ParticleIdsCollideIffWrapped(c: Config, steps: seq<Step>, i: nat, j: nat)
    requires ValidRun(c, steps) && i < j < |Run(c, steps).log|
    ensures var log := Run(c, steps).log;
            && (log[i].particle == log[j].particle <==>
                  log[i].script == log[j].script && (Nth(log, j) - Nth(log, i)) % 0x1_0000_0000 == 0)
            && (log[i].script == log[j].script ==> Nth(log, i) < Nth(log, j))
  {
    RunKeeps(c, steps);
    CollideIffWrapped(Run(c, steps), i, j);
  }

  lemma CollideIffWrapped(s: State, i: nat, j: nat)
    requires i < j < |s.log| && EntryOk(s, i) && EntryOk(s, j)
    ensures s.log[i].particle == s.log[j].particle <==>
              s.log[i].script == s.log[j].script && (Nth(s.log, j) - Nth(s.log, i)) % 0x1_0000_0000 == 0
    ensures s.log[i].script == s.log[j].script ==> Nth(s.log, i) < Nth(s.log, j)
  {
    var m, n := Nth(s.log, i), Nth(s.log, j);
    ParticleIdInjective(s.log[i].script, Wrap32(m), s.log[j].script, Wrap32(n));
    if s.log[i].script == s.log[j].script {
      SendsMonotone(s.log, i, j, s.log[i].script);
      SameRemainder(m, n);
    }
  }

  /** In particular they never repeat in runs of fewer than 2^32 particles. */
  lemma ParticleIdsDiffer(c: Config, steps: seq<Step>, i: nat, j: nat)
    requires ValidRun(c, steps) && i < j < |Run(c, steps).log| < 0x1_0000_0000
    ensures Run(c, steps).log[i].particle != Run(c, steps).log[j].particle
  {
    var log := Run(c, steps).log;
    ParticleIdsCollideIffWrapped(c, steps, i, j);
    SendsBound(log[..j], log[j].script);
    SameRemainder(Nth(log, i), Nth(log, j));
  }

  lemma SameRemainder(m: nat, n: nat)
    ensures Wrap32(m) == Wrap32(n) <==> (n - m) % 0x1_0000_0000 == 0
    ensures m < n < 0x1_0000_0000 ==> Wrap32(m) != Wrap32(n)
  {
  }

  lemma {:induction false} SendsBound(log: seq<Send>, id: ScriptId)
    ensures Sends(log, id) <= |log|
  {
    if log != [] { SendsBound(log[..|log| - 1], id); }
  }

  /** One script with interval zero, executed in each of `n` ticks. */
  function BusySteps(n: nat): seq<Step> {
    if n == 0 then [DoAdd("a", "", Some(0), 0, 0, 0)] else BusySteps(n - 1) + [OnTick(0, ["a"], 0)]
  }

  /** The script is due again at once, and all particles so far are its own. */
  ghost predicate AlwaysDue(s: State, n: nat) {
    && s.scripts.Keys == {"a"} && s.clock == 0
    && s.scripts["a"].interval == Some(0) && s.scripts["a"].times == None && s.scripts["a"].nextExecution == 0
    && |s.log| == n && forall i :: 0 <= i < n ==> s.log[i].script == "a"
  }

  lemma TickAgain(c: Config, s: State, n: nat)
    requires AlwaysDue(s, n)
    ensures Allowed(s, OnTick(0, ["a"], 0)) && AlwaysDue(Tick(c, s, 0, ["a"], 0), n + 1)
  {
    var x := Executed(s.scripts["a"], 0);
    var m := Mark(s.scripts, ["a"], 0);
    assert ["a"][..0] == [] && [Execution("a", x)][..0] == [];
    assert Mark(s.scripts, [], 0) == Marked(s.scripts, []);
    assert m == Marked(s.scripts["a" := x], [Execution("a", x)]);
    var b := s.(scripts := m.scripts);
    assert SendAll(c, b, [], 0) == b;
    assert SendAll(c, b, m.ready, 0) == SendOne(c, b, Execution("a", x), 0);
  }

  lemma {:induction false} BusyRun(c: Config, n: nat)
    ensures ValidRun(c, BusySteps(n)) && AlwaysDue(Run(c, BusySteps(n)), n)
  {
    var steps := BusySteps(n);
    if n == 0 {
      assert steps[..0] == [];
      assert Run(c, []) == New() && ValidRun(c, []);
      assert Run(c, steps) == AddScript(New(), "a", "", Some(0), 0, 0, 0);
    } else {
      BusyRun(c, n - 1);
      assert steps[..|steps| - 1] == BusySteps(n - 1);
      TickAgain(c, Run(c, BusySteps(n - 1)), n - 1);
    }
  }

  lemma {:induction false} SendsOfOne(log: seq<Send>, id: ScriptId)
    requires forall i :: 0 <= i < |log| ==> log[i].script == id
    ensures Sends(log, id) == |log|
  {
    if log != [] { SendsOfOne(log[..|log| - 1], id); }
  }

  /** Particle ids do repeat: in the run of n + 1 particles of one script, with n
      the range of the counter, the first and the last have the same id. */
  lemma ParticleIdsRepeat(c: Config, n: nat)
    requires n == 0x1_0000_0000
    ensures ValidRun(c, BusySteps(n + 1)) && |Run(c, BusySteps(n + 1)).log| == n + 1
    ensures Run(c, BusySteps(n + 1)).log[0].particle == Run(c, BusySteps(n + 1)).log[n].particle
  {
    BusyRun(c, n + 1);
    RunKeeps(c, BusySteps(n + 1));
    RepeatsIn(Run(c, BusySteps(n + 1)), n);
  }

  lemma RepeatsIn(s: State, n: nat)
    requires n == 0x1_0000_0000 && LogOk(s) && AlwaysDue(s, n + 1)
    ensures s.log[0].particle == s.log[n].particle
  {
    SendsOfOne(s.log[..0], "a");
    SendsOfOne(s.log[..n], "a");
    CollideIffWrapped(s, 0, n);
  }

  /** The 8-bit failure counter of a script counts exactly the failures reported
      for it and stays below the limit, so that one more does not overflow;
      nothing is counted beyond the limit. */
  ghost predicate FailuresCounted(c: Config, s: State, id: ScriptId) {
    && Reports(s.reported, id) <= Limit(c)
    && (id in s.scripts ==>
          && s.scripts[id].failures == Reports(s.reported, id) < Limit(c)
          && Wrap8(s.scripts[id].failures + 1) == s.scripts[id].failures + 1)
  }

  lemma FailuresOf(c: Config, s: State, id: ScriptId)
    requires CountsOk(c, s) && (id in s.scripts ==> ScriptOk(c, s, id))
    ensures FailuresCounted(c, s, id)
  {
    assert CountOk(c, s, id);
  }

  lemma FailuresNeverOverflow(c: Config, steps: seq<Step>, id: ScriptId)
    requires ValidRun(c, steps)
    ensures FailuresCounted(c, Run(c, steps), id)
  {
    RunKeeps(c, steps);
    FailuresOf(c, Run(c, steps), id);
  }

  /** A reported failure removes the script exactly when it brings the count to
      the limit; no other script is touched. */
  lemma RemovedAtLimit(c: Config, steps: seq<Step>, particle: string)
    requires ValidRun(c, steps) && particle in Run(c, steps).sent
    ensures var s, n := Run(c, steps), ParticleFailed(c, Run(c, steps), particle);
            var id := s.sent[particle].script;
            && n.scripts - {id} == s.scripts - {id}
            && (id in s.scripts ==> (id !in n.scripts <==> Reports(n.reported, id) == Limit(c)))
  {
    RunKeeps(c, steps);
    FailureStep(c, Run(c, steps), particle);
  }

  lemma FailureStep(c: Config, s: State, particle: string)
    requires particle in s.sent
    requires s.sent[particle].script in s.scripts ==> ScriptOk(c, s, s.sent[particle].script)
    ensures var id, n := s.sent[particle].script, ParticleFailed(c, s, particle);
            && n.scripts - {id} == s.scripts - {id}
            && (id in s.scripts ==> (id !in n.scripts <==> Reports(n.reported, id) == Limit(c)))
  {
    var id := s.sent[particle].script;
    if id in s.scripts { ReportsOneMore(s.reported, id, id); }
  }

  // ---------------------------------------------------------------- who is executed

  predicate IsReady(s: State, id: ScriptId, now: Instant) {
    id in s.scripts && s.scripts[id].Ready(now)
  }

  lemma {:induction false} FireAllSends(c: Config, s: State, order: seq<ScriptId>, now: Instant, id: ScriptId)
    requires Distinct(order)
    ensures var n := FireAll(c, s, order, now);
            && (id in n.scripts <==> id in s.scripts)
            && (id !in order && id in s.scripts ==> n.scripts[id] == s.scripts[id])
            && Sends(n.log, id) == Sends(s.log, id) + if id in order && IsReady(s, id, now) then 1 else 0
  {
    if order != [] {
      var init, last := order[..|order| - 1], order[|order| - 1];
      assert order == init + [last];
      assert last !in init;
      FireAllSends(c, s, init, now, id);
      var b := FireAll(c, s, init, now);
      if last in b.scripts && b.scripts[last].Ready(now) {
        SendsOneMore(b.log, Fire(c, b, last, now).log[|b.log|], id);
      }
    }
  }

  /** A tick sends exactly one particle for every script that is ready and none
      for any other, in whatever order the map hands them out. */
  lemma TickExecutesExactlyTheReady(c: Config, s: State, now: Instant, order: seq<ScriptId>,
                                    cleanupAt: Instant, id: ScriptId)
    requires Enumerates(order, s.scripts.Keys)
    ensures Sends(Tick(c, s, now, order, cleanupAt).log, id) == Sends(s.log, id) + if IsReady(s, id, now) then 1 else 0
  {
    TickIs(c, s, now, order, cleanupAt);
    FireAllSends(c, s, order, now, id);
  }

  /** The schedule is met exactly: in every run, a tick sends a particle for a stored
      script if and only if its delay has passed, or, once it has sent one, an
      interval has passed since the last. */
  lemma SendsExactlyWhenDue(c: Config, steps: seq<Step>, now: Instant, order: seq<ScriptId>, cleanupAt: Instant,
                            id: ScriptId)
    requires ValidRun(c, steps) && Allowed(Run(c, steps), OnTick(now, order, cleanupAt)) && id in Run(c, steps).scripts
    ensures var s := Run(c, steps);
            && id in s.created
            && var k, sends := s.created[id], Sends(s.log, id);
            var due := if sends == 0 then k.at + k.delay else LastAt(s.log, id) + Period(k.interval);
            Sends(Tick(c, s, now, order, cleanupAt).log, id) == sends + if due <= now then 1 else 0
  {
    RunKeeps(c, steps);
    var s := Run(c, steps);
    assert ScriptOk(c, s, id);
    TickExecutesExactlyTheReady(c, s, now, order, cleanupAt, id);
  }

  // ---------------------------------------------------------------- how a script ends

  /** The ways a stored script ends: its creator or an administrator removes it, it
      has no interval and was due, or a failure of its particles reaches the limit. */
  ghost predicate Ends(c: Config, s: State, step: Step, id: ScriptId)
    requires id in s.created
  {
    match step
    case DoAdd(_, _, _, _, _, _) => false
    case DoRemove(removed, actor, byAdmin) => removed == id && (byAdmin || actor == s.created[id].creator)
    case OnTick(now, _, _) => s.created[id].interval.None? && DueAt(s.created[id], s.log, id) <= now
    case OnFailed(particle) =>
      particle in s.sent && s.sent[particle].script == id && Reports(s.reported, id) + 1 == Limit(c)
  }

  lemma TickEnds(c: Config, s: State, now: Instant, order: seq<ScriptId>, cleanupAt: Instant, id: ScriptId)
    requires Inv(c, s) && AllUnspent(s) && Enumerates(order, s.scripts.Keys) && id in s.scripts
    ensures id in s.created
    ensures id !in Tick(c, s, now, order, cleanupAt).scripts <==> Ends(c, s, OnTick(now, order, cleanupAt), id)
  {
    var f := FireAll(c, s, order, now);
    assert ScriptOk(c, s, id) && Unspent(s, id);
    TickIs(c, s, now, order, cleanupAt);
    FireAllKeeps(c, s, order, now);
    FireAllSends(c, s, order, now, id);
    FireAllCreated(c, s, order, now);
    FinishedIff(c, f, id);
  }

  /** A script is finished once it has no interval and has sent its particle. */
  lemma FinishedIff(c: Config, s: State, id: ScriptId)
    requires Inv(c, s) && id in s.scripts
    ensures id in s.created && (s.scripts[id].Finished() <==> s.created[id].interval.None? && Sends(s.log, id) > 0)
  {
    assert ScriptOk(c, s, id);
    if s.created[id].interval.None? { OneShot(s, id); }
  }

  lemma {:induction false} FireAllCreated(c: Config, s: State, order: seq<ScriptId>, now: Instant)
    ensures FireAll(c, s, order, now).created == s.created
  {
    if order != [] { FireAllCreated(c, s, order[..|order| - 1], now); }
  }

  /** In every run a stored script is gone after a step if and only if the step ends it. */
  lemma ScriptEndsExactlyBy(c: Config, steps: seq<Step>, step: Step, id: ScriptId)
    requires ValidRun(c, steps) && Allowed(Run(c, steps), step) && id in Run(c, steps).scripts
    ensures id in Run(c, steps).created
    ensures id !in Apply(c, Run(c, steps), step).scripts <==> Ends(c, Run(c, steps), step, id)
  {
    RunKeeps(c, steps);
    StepEnds(c, Run(c, steps), step, id);
  }

  lemma StepEnds(c: Config, s: State, step: Step, id: ScriptId)
    requires Inv(c, s) && AllUnspent(s) && Allowed(s, step) && id in s.scripts
    ensures id in s.created
    ensures id !in Apply(c, s, step).scripts <==> Ends(c, s, step, id)
  {
    assert ScriptOk(c, s, id);
    match step
    case DoAdd(_, _, _, _, _, _) =>
    case DoRemove(_, _, _) =>
    case OnTick(now, order, cleanupAt) => TickEnds(c, s, now, order, cleanupAt, id);
    case OnFailed(_) =>
  }

  // ---------------------------------------------------------------- what is remembered of a particle

  /** Every remembered particle was sent, by the script it is remembered for, and is
      remembered with its own deadline. */
  ghost predicate SentOk(c: Config, s: State) {
    forall p :: p in s.sent ==>
      exists i :: 0 <= i < |s.log| && s.log[i].particle == p
                  && s.sent[p] == SentParticle(s.log[i].script, s.log[i].at + c.particleTtl)
  }

  lemma SendOneSent(c: Config, s: State, e: Execution, now: Instant)
    requires SentOk(c, s)
    ensures SentOk(c, SendOne(c, s, e, now))
  {
    var n := SendOne(c, s, e, now);
    assert n.log[|s.log|].particle == ParticleId(e.id, e.script.executions);
    forall p | p in n.sent
      ensures exists i :: 0 <= i < |n.log| && n.log[i].particle == p
                          && n.sent[p] == SentParticle(n.log[i].script, n.log[i].at + c.particleTtl)
    {
      if p != ParticleId(e.id, e.script.executions) {
        var i :| 0 <= i < |s.log| && s.log[i].particle == p
                 && s.sent[p] == SentParticle(s.log[i].script, s.log[i].at + c.particleTtl);
        assert n.log[i] == s.log[i];
      }
    }
  }

  lemma {:induction false} SendAllSent(c: Config, s: State, ready: seq<Execution>, now: Instant)
    requires SentOk(c, s)
    ensures SentOk(c, SendAll(c, s, ready, now))
  {
    if ready != [] {
      SendAllSent(c, s, ready[..|ready| - 1], now);
      SendOneSent(c, SendAll(c, s, ready[..|ready| - 1], now), ready[|ready| - 1], now);
    }
  }

  /** Forgetting particles keeps what is remembered of the others. */
  lemma FewerSent(c: Config, s: State, n: State)
    requires SentOk(c, s) && n.log == s.log && n.sent.Keys <= s.sent.Keys
    requires forall p :: p in n.sent ==> n.sent[p] == s.sent[p]
    ensures SentOk(c, n)
  {
  }

  lemma {:induction false} RemembersItsSends(c: Config, steps: seq<Step>)
    ensures SentOk(c, Run(c, steps))
  {
    if steps != [] {
      var init, last := steps[..|steps| - 1], steps[|steps| - 1];
      RemembersItsSends(c, init);
      var s := Run(c, init);
      if last.OnTick? {
        var m := Mark(s.scripts, last.order, last.now);
        FewerSent(c, s, s.(scripts := m.scripts));
        SendAllSent(c, s.(scripts := m.scripts), m.ready, last.now);
        FewerSent(c, SendAll(c, s.(scripts := m.scripts), m.ready, last.now), Run(c, steps));
      } else {
        FewerSent(c, s, Run(c, steps));
      }
    }
  }

  // ---------------------------------------------------------------- the clean-up

  lemma {:induction false} SentBySendAll(c: Config, s: State, ready: seq<Execution>, now: Instant, i: nat)
    requires |s.log| <= i < |SendAll(c, s, ready, now).log|
    ensures var n := SendAll(c, s, ready, now);
            && s.log <= n.log && n.log[i].at == now
            && n.log[i].particle in n.sent && n.sent[n.log[i].particle].deadline == now + c.particleTtl
  {
    var b := SendAll(c, s, ready[..|ready| - 1], now);
    SendAllExtends(c, s, ready[..|ready| - 1], now);
    if i < |b.log| { SentBySendAll(c, s, ready[..|ready| - 1], now, i); }
  }

  lemma {:induction false} SendAllExtends(c: Config, s: State, ready: seq<Execution>, now: Instant)
    ensures s.log <= SendAll(c, s, ready, now).log
    ensures forall p :: p in SendAll(c, s, ready, now).sent ==>
              (p in s.sent && SendAll(c, s, ready, now).sent[p] == s.sent[p])
              || SendAll(c, s, ready, now).sent[p].deadline == now + c.particleTtl
  {
    if ready != [] { SendAllExtends(c, s, ready[..|ready| - 1], now); }
  }

  /** The clean-up of a tick keeps just the particles whose deadline has passed,
      so the failure of a particle sent in a tick can be counted after the tick
      if and only if that clean-up runs after the particle has expired. */
  lemma CountableIffCleanedLate(c: Config, s: State, now: Instant, order: seq<ScriptId>, cleanupAt: Instant, i: nat)
    requires |s.log| <= i < |Tick(c, s, now, order, cleanupAt).log|
    ensures var n := Tick(c, s, now, order, cleanupAt);
            n.log[i].particle in n.sent <==> now + c.particleTtl < cleanupAt
  {
    var m := Mark(s.scripts, order, now);
    SentBySendAll(c, s.(scripts := m.scripts), m.ready, now, i);
  }

  /** After a tick a particle is remembered if and only if it was remembered before
      or sent in the tick and its deadline, the latest one if it was sent again, has
      passed when the clean-up runs. */
  lemma CleanupKeepsExactlyTheExpired(c: Config, s: State, now: Instant, order: seq<ScriptId>, cleanupAt: Instant,
                                      particle: string)
    ensures var n := Tick(c, s, now, order, cleanupAt);
            var sent := SentSince(s, n, particle);
            var deadline := if sent then now + c.particleTtl
                            else if particle in s.sent then s.sent[particle].deadline else cleanupAt;
            && (particle in n.sent <==> deadline < cleanupAt)
            && (particle in n.sent ==> n.sent[particle].deadline == deadline)
            && (particle in n.sent && !sent ==> n.sent[particle] == s.sent[particle])
  {
    var m := Mark(s.scripts, order, now);
    SendAllRemembers(c, s.(scripts := m.scripts), m.ready, now, particle);
    assert SentSince(s, Tick(c, s, now, order, cleanupAt), particle) <==>
           SentSince(s.(scripts := m.scripts), SendAll(c, s.(scripts := m.scripts), m.ready, now), particle);
  }

  /** The particle was sent between the two states. */
  ghost predicate SentSince(s: State, n: State, particle: string) {
    exists i :: |s.log| <= i < |n.log| && n.log[i].particle == particle
  }

  lemma {:induction false} SendAllRemembers(c: Config, s: State, ready: seq<Execution>, now: Instant, particle: string)
    ensures var n := SendAll(c, s, ready, now);
            && |s.log| <= |n.log|
            && (particle in n.sent <==> particle in s.sent || SentSince(s, n, particle))
            && (SentSince(s, n, particle) ==> n.sent[particle].deadline == now + c.particleTtl)
            && (particle in s.sent && !SentSince(s, n, particle) ==> n.sent[particle] == s.sent[particle])
  {
    if ready != [] {
      var b, n := SendAll(c, s, ready[..|ready| - 1], now), SendAll(c, s, ready, now);
      SendAllRemembers(c, s, ready[..|ready| - 1], now, particle);
      SentSinceStep(s, b, n, particle);
    }
  }

  lemma SentSinceStep(s: State, b: State, n: State, particle: string)
    requires |s.log| <= |b.log| && |n.log| == |b.log| + 1 && n.log[..|b.log|] == b.log
    ensures SentSince(s, n, particle) <==> SentSince(s, b, particle) || n.log[|b.log|].particle == particle
  {
    if SentSince(s, b, particle) {
      var i :| |s.log| <= i < |b.log| && b.log[i].particle == particle;
      assert n.log[i] == b.log[i];
    }
    if SentSince(s, n, particle) {
      var i :| |s.log| <= i < |n.log| && n.log[i].particle == particle;
      assert i < |b.log| ==> b.log[i] == n.log[i];
    }
  }

  /** A reported particle is forgotten, so that it counts once; the others stay. */
  lemma ReportedIsForgotten(c: Config, s: State, particle: string)
    ensures ParticleFailed(c, s, particle).sent == s.sent - {particle}
    ensures particle !in s.sent ==> ParticleFailed(c, s, particle) == s
  {
    if particle !in s.sent { assert s.sent - {particle} == s.sent; }
  }

  /** Ticks whose clean-up runs before the particles of the tick expire. */
  predicate Prompt(c: Config, step: Step) {
    step.OnTick? ==> step.cleanupAt <= step.now + c.particleTtl
  }

  /** In runs of such ticks no sent particle is ever remembered, so no failure is
      counted and no script is removed for failing. */
  lemma {:induction false} PromptRunsCountNothing(c: Config, steps: seq<Step>)
    requires ValidRun(c, steps) && forall i :: 0 <= i < |steps| ==> Prompt(c, steps[i])
    ensures Run(c, steps).sent == map[] && Run(c, steps).reported == []
  {
    if steps != [] {
      var init, last := steps[..|steps| - 1], steps[|steps| - 1];
      PromptRunsCountNothing(c, init);
      var s := Run(c, init);
      assert Prompt(c, last);
      if last.OnTick? {
        var m := Mark(s.scripts, last.order, last.now);
        SendAllExtends(c, s.(scripts := m.scripts), m.ready, last.now);
        SendAllReports(c, s.(scripts := m.scripts), m.ready, last.now);
      }
    }
  }

  lemma {:induction false} SendAllReports(c: Config, s: State, ready: seq<Execution>, now: Instant)
    ensures SendAll(c, s, ready, now).reported == s.reported
  {
    if ready != [] { SendAllReports(c, s, ready[..|ready| - 1], now); }
  }

  /** A valid run of such ticks in which a particle was sent and then forgotten, so
      that reporting its failure changes nothing. */
  lemma FailureIsLost(c: Config)
    ensures ValidRun(c, BusySteps(1)) && (forall i :: 0 <= i < |BusySteps(1)| ==> Prompt(c, BusySteps(1)[i]))
    ensures var s := Run(c, BusySteps(1));
            && |s.log| == 1 && s.log[0].script == "a" && "a" in s.scripts
            && s.sent == map[] && ParticleFailed(c, s, s.log[0].particle) == s
  {
    BusyRun(c, 1);
    PromptRunsCountNothing(c, BusySteps(1));
  }

  // ---------------------------------------------------------------- removal

  /** Only the creator or an administrator removes a script; the answer says
      which of the three cases it was, and nothing else changes. */
  lemma OnlyCreatorRemoves(c: Config, steps: seq<Step>, id: ScriptId, actor: PeerId, byAdmin: bool)
    requires ValidRun(c, steps)
    ensures var s, n := Run(c, steps), RemoveScript(Run(c, steps), id, actor, byAdmin);
            && (id in s.scripts ==> id in s.created)
            && n.scripts == (if n.removals == s.removals + [Removed(true)] then s.scripts - {id} else s.scripts)
            && (n.removals == s.removals + [Removed(true)] <==>
                  id in s.scripts && (byAdmin || s.created[id].creator == actor))
            && (n.removals == s.removals + [PermissionDenied] <==>
                  id in s.scripts && !byAdmin && s.created[id].creator != actor)
            && (n.removals == s.removals + [Removed(false)] <==> id !in s.scripts)
  {
    RunKeeps(c, steps);
    RemovalStep(c, Run(c, steps), id, actor, byAdmin);
  }

  lemma RemovalStep(c: Config, s: State, id: ScriptId, actor: PeerId, byAdmin: bool)
    requires id in s.scripts ==> ScriptOk(c, s, id)
    ensures var n := RemoveScript(s, id, actor, byAdmin);
            && (id in s.scripts ==> id in s.created)
            && n.scripts == (if n.removals == s.removals + [Removed(true)] then s.scripts - {id} else s.scripts)
            && (n.removals == s.removals + [Removed(true)] <==>
                  id in s.scripts && (byAdmin || s.created[id].creator == actor))
            && (n.removals == s.removals + [PermissionDenied] <==>
                  id in s.scripts && !byAdmin && s.created[id].creator != actor)
            && (n.removals == s.removals + [Removed(false)] <==> id !in s.scripts)
  {
    var n := RemoveScript(s, id, actor, byAdmin);
    assert |n.removals| == |s.removals| + 1 && n.removals == s.removals + [n.removals[|s.removals|]];
    assert forall r :: n.removals == s.removals + [r] ==> r == n.removals[|s.removals|];
  }
}
