/** The script storage as an object whose maps are updated in place, proved
    against module `ScriptStorage`. Particles handed to the connection pool are
    appended to `outbox`. */
module ScriptStorageObject {
  import opened Base
  import opened ScriptStorage

  class Backend {
    const config: Config
    var scripts: map<ScriptId, Script>
    var sent: map<string, SentParticle>
    var outbox: seq<Send>
    var removals: seq<Removal>
    ghost var created: map<ScriptId, Creation>
    ghost var reported: seq<ScriptId>
    ghost var clock: Instant

    ghost function View(): State
      reads this
    {
      State(scripts, sent, outbox, created, reported, removals, clock)
    }

    constructor (config: Config)
      ensures this.config == config && View() == New()
    {
      this.config := config;
      scripts, sent, outbox, removals := map[], map[], [], [];
      created, reported, clock := map[], [], 0;
    }

    method AddScript(id: ScriptId, src: string, interval: Option<Duration>,
                     delay: Duration, creator: PeerId, now: Instant)
      modifies this
      ensures View() == old(ScriptStorage.AddScript(View(), id, src, interval, delay, creator, now))
    {
      var times := if interval.None? then Some(1) else None;
      scripts := scripts[id := NewScript(src, interval, delay, creator, times, now)];
      created, clock := created[id := Creation(src, interval, delay, creator, now)], now;
    }

    method RemoveScript(id: ScriptId, actor: PeerId, byAdmin: bool)
      modifies this
      ensures View() == old(ScriptStorage.RemoveScript(View(), id, actor, byAdmin))
    {
      if id !in scripts {
        removals := removals + [Removed(false)];
      } else if byAdmin || scripts[id].creator == actor {
        scripts := scripts - {id};
        removals := removals + [Removed(true)];
      } else {
        removals := removals + [PermissionDenied];
      }
    }

    /** Takes the scripts that are ready and schedules their next execution. */
    method TakeReady(now: Instant, order: seq<ScriptId>) returns (ready: seq<Execution>)
      modifies this`scripts
      ensures Marked(scripts, ready) == Mark(old(scripts), order, now)
    {
      ready := [];
      for i := 0 to |order|
        invariant Marked(scripts, ready) == Mark(old(scripts), order[..i], now)
      {
        assert order[..i + 1][..i] == order[..i];
        var id := order[i];
        if id in scripts && scripts[id].nextExecution <= now {
          var x := scripts[id];
          x := x.(executions := Wrap32(x.executions + 1));
          x := x.(executedAt := Some(now), nextExecution := now + if x.interval.Some? then x.interval.value else 0);
          scripts := scripts[id := x];
          ready := ready + [Execution(id, x)];
        }
      }
      assert order[..|order|] == order;
    }

    method SendReady(ready: seq<Execution>, now: Instant)
      modifies this
      ensures View() == old(SendAll(config, View(), ready, now))
    {
      ghost var start := View();
      for i := 0 to |ready|
        invariant View() == SendAll(config, start, ready[..i], now)
      {
        assert ready[..i + 1][..i] == ready[..i];
        var e := ready[i];
        var particle := "auto_" + e.id + "_" + Decimal(e.script.executions);
        sent := sent[particle := SentParticle(e.id, now + config.particleTtl)];
        outbox := outbox + [Send(e.id, particle, e.script.src, now)];
      }
      assert ready[..|ready|] == ready;
    }

    /** Drops the scripts that have been executed often enough. */
    method DropFinished()
      modifies this`scripts
      ensures scripts == Unfinished(old(scripts))
    {
      var todo := scripts.Keys;
      while todo != {}
        invariant todo <= old(scripts).Keys
        invariant scripts ==
          map id | id in old(scripts) && (id in todo || !old(scripts)[id].Finished()) :: old(scripts)[id]
        decreases todo
      {
        var id :| id in todo;
        todo := todo - {id};
        if scripts[id].times.Some? && scripts[id].executions >= scripts[id].times.value {
          scripts := scripts - {id};
        }
      }
    }

    method ExecuteScripts(now: Instant, order: seq<ScriptId>)
      modifies this
      ensures View() == old(ScriptStorage.ExecuteScripts(config, View(), now, order))
    {
      var ready := TakeReady(now, order);
      SendReady(ready, now);
      DropFinished();
    }

    /** Forgets the particles whose deadline is not over. */
    method Cleanup(now: Instant)
      modifies this`sent
      ensures sent == ScriptStorage.Cleanup(old(sent), now)
    {
      var todo := sent.Keys;
      while todo != {}
        invariant todo <= old(sent).Keys
        invariant sent == map p | p in old(sent) && (p in todo || old(sent)[p].deadline < now) :: old(sent)[p]
        decreases todo
      {
        var p :| p in todo;
        todo := todo - {p};
        if !(sent[p].deadline < now) {
          sent := sent - {p};
        }
      }
    }

    method Tick(now: Instant, order: seq<ScriptId>, cleanupAt: Instant)
      modifies this
      ensures View() == old(ScriptStorage.Tick(config, View(), now, order, cleanupAt))
    {
      ExecuteScripts(now, order);
      Cleanup(cleanupAt);
      clock := cleanupAt;
    }

    method RemoveFailedScripts(particle: string)
      modifies this
      ensures View() == old(ParticleFailed(config, View(), particle))
    {
      if particle !in sent {
        return;
      }
      var id := sent[particle].script;
      sent := sent - {particle};
      if id in scripts {
        var x, failures := scripts[id], Wrap8(scripts[id].failures + 1);
        reported := reported + [id];
        if failures < config.maxFailures {
          scripts := scripts[id := x.(failures := Wrap8(x.failures + 1))];
        } else {
          scripts := scripts - {id};
        }
      }
    }
  }
}
