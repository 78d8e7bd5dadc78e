/** Host calls of one actor (aquamarine/src/particle_functions.rs): calls in
    flight, and the results and statistics waiting for the next interpretation. */
module FunctionLedgers {
  import opened Base

  type CallId = nat

  datatype Outcome = NotDefined | Empty | Ok(value: string) | Err(error: string)
  datatype FunctionKind = Service | ParticleFunction | NotHappened

  /** `wellFormed` tells whether the request parameters deserialize to arguments. */
  datatype CallRequest = CallRequest(id: CallId, wellFormed: bool)

  /** A call in flight; `fallback` records whether a particle function was set
      when the call started. */
  datatype Call = Call(id: CallId, wellFormed: bool, fallback: bool)

  /** A finished call: its index among the calls in flight, what the builtins
      answered, and what the particle function would answer. */
  datatype Completion = Completion(index: nat, builtin: Outcome, custom: Outcome)

  datatype CallResult = CallResult(retCode: nat, value: string)
  datatype Stat = Stat(success: bool, kind: FunctionKind)

  datatype FunctionsState = FunctionsState(
    inFlight: seq<Call>,
    results: map<CallId, CallResult>,
    stats: seq<Stat>,
    hasFunction: bool
  )

  function NewFunctions(): FunctionsState {
    FunctionsState([], map[], [], false)
  }

  /** Which outcome counts, and who produced it. */
  function Resolve(call: Call, c: Completion): (Outcome, FunctionKind) {
    if call.fallback && c.builtin.NotDefined? then (c.custom, ParticleFunction)
    else (c.builtin, Service)
  }

  function Settle(call: Call, c: Completion): (CallResult, Stat) {
    if !call.wellFormed then
      (CallResult(1, "Failed to deserialize CallRequestParams to Args"), Stat(false, NotHappened))
    else
      var (outcome, kind) := Resolve(call, c);
      match outcome
      case NotDefined => (CallResult(1, "Service not found"), Stat(false, kind))
      case Empty => (CallResult(0, ""), Stat(true, kind))
      case Ok(v) => (CallResult(0, v), Stat(true, kind))
      case Err(e) => (CallResult(1, e), Stat(false, kind))
  }

  /** One finished call moves from the calls in flight to the stored results. */
  function Store(f: FunctionsState, c: Completion): FunctionsState {
    if c.index < |f.inFlight| then
      var call := f.inFlight[c.index];
      var (result, stat) := Settle(call, c);
      f.(inFlight := DropAt(f.inFlight, c.index),
         results := f.results[call.id := result],
         stats := f.stats + [stat])
    else f
  }

  function PollCalls(f: FunctionsState, done: seq<Completion>): FunctionsState {
    if done == [] then f else Store(PollCalls(f, done[..|done| - 1]), done[|done| - 1])
  }

  /** The calls of a batch of requests, in the same positions. */
  function Started(requests: seq<CallRequest>, fallback: bool): (calls: seq<Call>)
    ensures |calls| == |requests|
    ensures forall i :: 0 <= i < |requests| ==> calls[i] == Call(requests[i].id, requests[i].wellFormed, fallback)
  {
    if requests == [] then []
    else
      var last := requests[|requests| - 1];
      Started(requests[..|requests| - 1], fallback) + [Call(last.id, last.wellFormed, fallback)]
  }

  function Execute(f: FunctionsState, requests: seq<CallRequest>): FunctionsState {
    f.(inFlight := f.inFlight + Started(requests, f.hasFunction))
  }

  function Drained(f: FunctionsState): FunctionsState {
    f.(results := map[], stats := [])
  }

  // ---------------------------------------------------------------- properties

  /** Results are stored exactly when statistics are: draining no results drains
      no statistics, for any calls whatever their ids. */
  ghost predicate ResultsMatchStats(f: FunctionsState) {
    |f.results| == 0 <==> |f.stats| == 0
  }

  lemma StoreKeepsMatch(f: FunctionsState, c: Completion)
    requires ResultsMatchStats(f)
    ensures ResultsMatchStats(Store(f, c))
  {
    if c.index < |f.inFlight| {
      assert f.inFlight[c.index].id in Store(f, c).results;
    }
  }

  lemma {:induction false} PollKeepsMatch(f: FunctionsState, done: seq<Completion>)
    requires ResultsMatchStats(f)
    ensures ResultsMatchStats(PollCalls(f, done))
  {
    if done != [] {
      PollKeepsMatch(f, done[..|done| - 1]);
      StoreKeepsMatch(PollCalls(f, done[..|done| - 1]), done[|done| - 1]);
    }
  }

  /** What a call is answered with: the outcome of the builtins, or that of the
      particle function for calls the builtins do not define, if one was set when
      the call started. A value is returned with code 0, an error, a missing
      service or malformed parameters with code 1, and the statistic says who
      answered and whether it went well. */
  lemma SettleAgrees(call: Call, c: Completion)
    ensures var (result, stat) := Settle(call, c);
            var custom := call.fallback && c.builtin == NotDefined;
            var outcome := if custom then c.custom else c.builtin;
            && (stat.success <==> result.retCode == 0) && result.retCode <= 1
            && (stat.kind == NotHappened <==> !call.wellFormed)
            && (stat.kind == ParticleFunction <==> call.wellFormed && custom)
            && (stat.success <==> call.wellFormed && (outcome.Ok? || outcome.Empty?))
            && (call.wellFormed && outcome.Ok? ==> result.value == outcome.value)
            && (call.wellFormed && outcome.Empty? ==> result.value == "")
            && (call.wellFormed && outcome.Err? ==> result.value == outcome.error)
  {
  }

  /** Each finished call, one after the other, leaves the calls in flight and is
      stored with its answer and its statistic; nothing else changes. */
  lemma PollStoresEach(f: FunctionsState, done: seq<Completion>, i: nat)
    requires i < |done| && done[i].index < |PollCalls(f, done[..i]).inFlight|
    ensures var g, h := PollCalls(f, done[..i]), PollCalls(f, done[..i + 1]);
            var call := g.inFlight[done[i].index];
            && h.inFlight == g.inFlight[..done[i].index] + g.inFlight[done[i].index + 1..]
            && h.results == g.results[call.id := Settle(call, done[i]).0]
            && h.stats == g.stats + [Settle(call, done[i]).1]
            && h.hasFunction == g.hasFunction
  {
    assert done[..i + 1][..i] == done[..i];
  }

  // ---------------------------------------------------------------- the object

  class Functions {
    /** The particle whose calls these are, and (for separation) the scope it runs in. */
    const particle: nat
    ghost const scope: nat
    var functionCalls: seq<Call>
    var callResults: map<CallId, CallResult>
    var callStats: seq<Stat>
    var particleFunction: bool

    ghost function View(): FunctionsState
      reads this
    {
      FunctionsState(functionCalls, callResults, callStats, particleFunction)
    }

    constructor (particle: nat, ghost scope: nat)
      ensures View() == NewFunctions()
      ensures this.particle == particle && this.scope == scope
    {
      this.particle, this.scope := particle, scope;
      functionCalls, callResults, callStats, particleFunction := [], map[], [], false;
    }

    method Poll(done: seq<Completion>)
      modifies this
      ensures View() == old(PollCalls(View(), done))
    {
      ghost var start := View();
      for n := 0 to |done|
        invariant View() == PollCalls(start, done[..n])
      {
        assert done[..n + 1][..n] == done[..n];
        var c := done[n];
        if c.index < |functionCalls| {
          var call := functionCalls[c.index];
          var (result, stat) := Settle(call, c);
          functionCalls := functionCalls[..c.index] + functionCalls[c.index + 1..];
          callResults := callResults[call.id := result];
          callStats := callStats + [stat];
        }
      }
      assert done[..|done|] == done;
    }

    method Start(requests: seq<CallRequest>)
      modifies this
      ensures View() == old(Execute(View(), requests))
    {
      functionCalls := functionCalls + Started(requests, particleFunction);
    }

    method Drain() returns (results: map<CallId, CallResult>, stats: seq<Stat>)
      modifies this
      ensures View() == old(Drained(View()))
      ensures results == old(callResults) && stats == old(callStats)
    {
      results, stats := callResults, callStats;
      callResults, callStats := map[], [];
    }

    method SetFunction()
      modifies this
      ensures View() == old(View()).(hasFunction := true)
    {
      particleFunction := true;
    }
  }
}
