/** One particle in the scope of one peer (aquamarine/src/actor.rs): a mailbox,
    at most one running interpretation, and the ledger of its host calls.

    `born`, `launches` and `requested` are histories: the position in the
    plumber's log of accepted particles at which this actor was created, the
    interpretations it started, and the call ids its interpretations asked for. */
module Actors {
  import opened Base
  import opened Particles
  import opened VmPools
  import opened FunctionLedgers

  /** What one run of the interpreter yields; the particle keeps its identity. */
  datatype Interpretation = Interpretation(data: string, nextPeers: seq<PeerId>, requests: seq<CallRequest>)

  datatype RoutingEffects = RoutingEffects(particle: Particle, nextPeers: seq<PeerId>)

  datatype Running = Running(at: Placed, particle: Particle, calls: map<CallId, CallResult>)

  datatype Launch = Launch(particle: Particle, calls: map<CallId, CallResult>, fromMailbox: bool)

  datatype ActorState = ActorState(
    deadline: Deadline,
    future: Option<Running>,
    mailbox: seq<Particle>,
    functions: FunctionsState,
    particle: Particle,
    peer: PeerId,
    born: nat,
    launches: seq<Launch>,
    requested: seq<CallId>
  )

  function NewActor(p: Particle, peer: PeerId, born: nat): ActorState {
    ActorState(DeadlineOf(p), None, [], NewFunctions(), p.(data := ""), peer, born, [], [])
  }

  predicate Executing(a: ActorState) {
    a.future.Some?
  }

  function Receive(a: ActorState, p: Particle, setFunction: bool): ActorState {
    var b := a.(mailbox := a.mailbox + [p]);
    if setFunction then b.(functions := b.functions.(hasFunction := true)) else b
  }

  // ---------------------------------------------------------------- polling

  function Advance(a: ActorState, done: seq<Completion>): ActorState {
    a.(functions := PollCalls(a.functions, done))
  }

  predicate Completes(a: ActorState, run: Option<Interpretation>) {
    a.future.Some? && run.Some?
  }

  function RequestIds(requests: seq<CallRequest>): (ids: seq<CallId>)
    ensures |ids| == |requests|
    ensures forall i :: 0 <= i < |requests| ==> ids[i] == requests[i].id
  {
    if requests == [] then []
    else RequestIds(requests[..|requests| - 1]) + [requests[|requests| - 1].id]
  }

  function Finish(a: ActorState, run: Interpretation): ActorState {
    a.(future := None,
       functions := Execute(a.functions, run.requests),
       requested := a.requested + RequestIds(run.requests))
  }

  function Polled(a: ActorState, done: seq<Completion>, run: Option<Interpretation>): ActorState {
    var b := Advance(a, done);
    if Completes(a, run) then Finish(b, run.value) else b
  }

  function EffectsOf(a: ActorState, run: Interpretation): RoutingEffects
    requires a.future.Some?
  {
    RoutingEffects(a.future.value.particle.(data := run.data), run.nextPeers)
  }

  predicate HasWork(a: ActorState) {
    a.mailbox != [] || |a.functions.results| > 0
  }

  /** The particle to interpret next: the oldest in the mailbox, otherwise the
      memoized particle without data. */
  function NextParticle(a: ActorState): Particle {
    if a.mailbox != [] then a.mailbox[0] else a.particle
  }

  function Start(a: ActorState, at: Placed): ActorState {
    var p := NextParticle(a);
    a.(future := Some(Running(at, p, a.functions.results)),
       mailbox := if a.mailbox != [] then a.mailbox[1..] else [],
       functions := Drained(a.functions),
       launches := a.launches + [Launch(p, a.functions.results, a.mailbox != [])])
  }

  /** Offers a VM; `Accepts` tells whether the actor keeps it. */
  function Offered(a: ActorState, at: Placed, done: seq<Completion>): ActorState {
    var b := Advance(a, done);
    if Executing(b) then b
    else if HasWork(b) then Start(b, at)
    else b.(functions := Drained(b.functions))
  }

  predicate Accepts(a: ActorState, done: seq<Completion>) {
    !Executing(a) && HasWork(Advance(a, done))
  }

  // ---------------------------------------------------------------- invariant

  ghost predicate Carries(a: ActorState, id: ParticleId) {
    && a.particle.id == id
    && (forall p :: p in a.mailbox ==> p.id == id)
    && (forall l :: l in a.launches ==> l.particle.id == id)
    && (a.future.Some? ==> a.future.value.particle.id == id)
  }

  ghost predicate InFlight(a: ActorState, id: CallId) {
    exists c :: c in a.functions.inFlight && c.id == id
  }

  ghost predicate Handed(a: ActorState, id: CallId) {
    exists l :: l in a.launches && id in l.calls
  }

  /** With call ids requested at most once, every requested call is in exactly
      one place: in flight once, stored, or handed to exactly one interpretation. */
  ghost predicate CallsOnce(a: ActorState) {
    && (forall i, j :: 0 <= i < j < |a.functions.inFlight| ==>
          a.functions.inFlight[i].id != a.functions.inFlight[j].id)
    && (forall i, j :: 0 <= i < j < |a.launches| ==> a.launches[i].calls.Keys !! a.launches[j].calls.Keys)
    && (forall id :: InFlight(a, id) ==> id in a.requested && id !in a.functions.results && !Handed(a, id))
    && (forall id :: id in a.functions.results ==> id in a.requested && !Handed(a, id))
    && (forall id :: Handed(a, id) ==> id in a.requested)
    && (forall id :: id in a.requested ==> InFlight(a, id) || id in a.functions.results || Handed(a, id))
  }

  /** The running interpretation has the particle and the call results of the
      last launch. */
  ghost predicate Current(a: ActorState) {
    a.future.Some? ==>
      && a.launches != []
      && a.launches[|a.launches| - 1].particle == a.future.value.particle
      && a.launches[|a.launches| - 1].calls == a.future.value.calls
  }

  ghost predicate ActorOk(a: ActorState, id: ParticleId, peer: PeerId) {
    && a.peer == peer
    && Current(a)
    && Carries(a, id)
    && ResultsMatchStats(a.functions)
    && (Distinct(a.requested) ==> CallsOnce(a))
  }

  lemma NewActorOk(p: Particle, peer: PeerId, born: nat)
    ensures ActorOk(NewActor(p, peer, born), p.id, peer)
  {
  }

  lemma SameCalls(a: ActorState, b: ActorState)
    requires CallsOnce(a)
    requires a.launches == b.launches && a.requested == b.requested
    requires a.functions.inFlight == b.functions.inFlight && a.functions.results == b.functions.results
    ensures CallsOnce(b)
  {
    assert forall id :: InFlight(a, id) <==> InFlight(b, id);
    assert forall id :: Handed(a, id) <==> Handed(b, id);
  }

  lemma ReceiveKeeps(a: ActorState, p: Particle, setFunction: bool)
    requires ActorOk(a, p.id, a.peer)
    ensures ActorOk(Receive(a, p, setFunction), p.id, a.peer)
  {
    if Distinct(a.requested) { SameCalls(a, Receive(a, p, setFunction)); }
  }

  ghost predicate Among(calls: seq<Call>, id: CallId) {
    exists i :: 0 <= i < |calls| && calls[i].id == id
  }

  lemma DropRemoves(calls: seq<Call>, n: nat)
    requires n < |calls| && forall i, j :: 0 <= i < j < |calls| ==> calls[i].id != calls[j].id
    ensures forall id :: Among(DropAt(calls, n), id) <==> Among(calls, id) && id != calls[n].id
  {
    var rest := DropAt(calls, n);
    forall id ensures Among(rest, id) <==> Among(calls, id) && id != calls[n].id {
      if Among(rest, id) {
        var k :| 0 <= k < |rest| && rest[k].id == id;
        assert calls[if k < n then k else k + 1].id == id;
      }
      if Among(calls, id) && id != calls[n].id {
        var k :| 0 <= k < |calls| && calls[k].id == id;
        assert rest[if k < n then k else k - 1].id == id;
      }
    }
  }

  lemma StoreMoves(a: ActorState, c: Completion)
    requires CallsOnce(a) && c.index < |a.functions.inFlight|
    ensures var b, moved := a.(functions := Store(a.functions, c)), a.functions.inFlight[c.index].id;
            && InFlight(a, moved)
            && forall id :: InFlight(b, id) <==> InFlight(a, id) && id != moved
  {
    var b := a.(functions := Store(a.functions, c));
    DropRemoves(a.functions.inFlight, c.index);
    forall id ensures InFlight(a, id) <==> Among(a.functions.inFlight, id) { }
    forall id ensures InFlight(b, id) <==> Among(b.functions.inFlight, id) { }
    assert Among(a.functions.inFlight, a.functions.inFlight[c.index].id);
  }

  lemma StoreKeepsCalls(a: ActorState, c: Completion)
    requires CallsOnce(a) && c.index < |a.functions.inFlight|
    ensures CallsOnce(a.(functions := Store(a.functions, c)))
  {
    var f, g := a.functions, Store(a.functions, c);
    var b, moved := a.(functions := g), f.inFlight[c.index].id;
    StoreMoves(a, c);
    assert forall id :: Handed(a, id) <==> Handed(b, id);
    assert forall id :: id in g.results <==> id in f.results || id == moved;
    forall i, j | 0 <= i < j < |g.inFlight| ensures g.inFlight[i].id != g.inFlight[j].id {
      assert g.inFlight[i] == f.inFlight[if i < c.index then i else i + 1];
      assert g.inFlight[j] == f.inFlight[if j < c.index then j else j + 1];
    }
  }

  lemma {:induction false} AdvanceKeepsCalls(a: ActorState, done: seq<Completion>)
    requires CallsOnce(a)
    ensures CallsOnce(Advance(a, done))
  {
    if done != [] {
      var init, last := done[..|done| - 1], done[|done| - 1];
      AdvanceKeepsCalls(a, init);
      var b := Advance(a, init);
      if last.index < |b.functions.inFlight| {
        StoreKeepsCalls(b, last);
        assert Advance(a, done) == b.(functions := Store(b.functions, last));
      }
    }
  }

  /** The finished call has no stored result yet. */
  predicate StoresNew(f: FunctionsState, c: Completion) {
    c.index < |f.inFlight| ==> f.inFlight[c.index].id !in f.results
  }

  /** With fresh ids, storing finished calls one after the other overwrites no
      result, as the source asserts. */
  lemma StoredOnce(a: ActorState, done: seq<Completion>, i: nat)
    requires CallsOnce(a) && i < |done|
    ensures StoresNew(PollCalls(a.functions, done[..i]), done[i])
  {
    AdvanceKeepsCalls(a, done[..i]);
    var b := Advance(a, done[..i]);
    if done[i].index < |b.functions.inFlight| {
      assert InFlight(b, b.functions.inFlight[done[i].index].id);
    }
  }

  lemma AdvanceKeeps(a: ActorState, done: seq<Completion>, id: ParticleId, peer: PeerId)
    requires ActorOk(a, id, peer)
    ensures ActorOk(Advance(a, done), id, peer)
  {
    PollKeepsMatch(a.functions, done);
    if Distinct(a.requested) { AdvanceKeepsCalls(a, done); }
  }

  /** Freshly requested ids are new to the actor and different from each other. */
  lemma FreshIds(a: ActorState, run: Interpretation)
    requires Distinct(Finish(a, run).requested)
    ensures var ids := RequestIds(run.requests);
            Distinct(a.requested) && Distinct(ids) && forall id :: id in ids ==> id !in a.requested
  {
    var all, ids, n := Finish(a, run).requested, RequestIds(run.requests), |a.requested|;
    assert forall i :: 0 <= i < n ==> all[i] == a.requested[i];
    assert forall i :: 0 <= i < |ids| ==> all[n + i] == ids[i];
    forall i, j | 0 <= i < j < |ids| ensures ids[i] != ids[j] {
      assert all[n + i] != all[n + j];
    }
  }

  lemma FinishAddsCalls(a: ActorState, run: Interpretation)
    ensures forall id :: InFlight(Finish(a, run), id) <==> InFlight(a, id) || id in RequestIds(run.requests)
  {
    var b, ids := Finish(a, run), RequestIds(run.requests);
    var calls := Started(run.requests, a.functions.hasFunction);
    forall id ensures InFlight(b, id) <==> InFlight(a, id) || id in ids {
      if InFlight(a, id) {
        var x :| x in a.functions.inFlight && x.id == id;
        assert x in b.functions.inFlight;
      }
      if id in ids {
        var i :| 0 <= i < |ids| && ids[i] == id;
        assert calls[i] in b.functions.inFlight;
      }
    }
  }

  lemma FinishKeepsCalls(a: ActorState, run: Interpretation)
    requires Distinct(a.requested) ==> CallsOnce(a)
    requires Distinct(Finish(a, run).requested)
    ensures CallsOnce(Finish(a, run))
  {
    var b, ids, m := Finish(a, run), RequestIds(run.requests), |a.functions.inFlight|;
    FreshIds(a, run);
    FinishAddsCalls(a, run);
    forall i, j | 0 <= i < j < |b.functions.inFlight|
      ensures b.functions.inFlight[i].id != b.functions.inFlight[j].id
    {
      if i < m <= j {
        assert a.functions.inFlight[i] in a.functions.inFlight;
        assert InFlight(a, a.functions.inFlight[i].id);
        assert b.functions.inFlight[j].id == ids[j - m];
      } else if m <= i {
        assert ids[i - m] != ids[j - m];
      }
    }
    assert forall id :: Handed(a, id) <==> Handed(b, id);
  }

  lemma FinishKeeps(a: ActorState, run: Interpretation, id: ParticleId, peer: PeerId)
    requires ActorOk(a, id, peer)
    ensures ActorOk(Finish(a, run), id, peer)
  {
    if Distinct(Finish(a, run).requested) { FinishKeepsCalls(a, run); }
  }

  lemma PolledKeeps(a: ActorState, done: seq<Completion>, run: Option<Interpretation>, id: ParticleId, peer: PeerId)
    requires ActorOk(a, id, peer)
    ensures ActorOk(Polled(a, done, run), id, peer)
  {
    AdvanceKeeps(a, done, id, peer);
    if Completes(a, run) { FinishKeeps(Advance(a, done), run.value, id, peer); }
  }

  lemma StartKeepsCalls(a: ActorState, at: Placed)
    requires CallsOnce(a)
    ensures CallsOnce(Start(a, at))
  {
    var b := Start(a, at);
    var n := |a.launches|;
    var added := b.launches[n];
    assert added in b.launches && added.calls == a.functions.results;
    assert forall id :: InFlight(a, id) <==> InFlight(b, id);
    forall id ensures Handed(b, id) <==> Handed(a, id) || id in a.functions.results {
      if Handed(a, id) {
        var l :| l in a.launches && id in l.calls;
        assert l in b.launches;
      }
    }
    forall i, j | 0 <= i < j < |b.launches| ensures b.launches[i].calls.Keys !! b.launches[j].calls.Keys {
      if j == n {
        forall id | id in a.launches[i].calls ensures id !in added.calls {
          assert a.launches[i] in a.launches;
          assert Handed(a, id);
        }
      }
    }
  }

  lemma OfferedKeeps(a: ActorState, at: Placed, done: seq<Completion>, id: ParticleId, peer: PeerId)
    requires ActorOk(a, id, peer)
    ensures ActorOk(Offered(a, at, done), id, peer)
  {
    AdvanceKeeps(a, done, id, peer);
    var b := Advance(a, done);
    if Executing(b) {
    } else if HasWork(b) {
      if Distinct(b.requested) { StartKeepsCalls(b, at); }
    } else if Distinct(b.requested) {
      SameCalls(b, Offered(a, at, done));
    }
  }

  /** An actor that declines a VM has nothing to do, loses no statistics by
      draining, and is otherwise unchanged. */
  lemma DeclineIsIdle(a: ActorState, at: Placed, done: seq<Completion>)
    requires ResultsMatchStats(a.functions) && !Accepts(a, done)
    ensures Offered(a, at, done) == Advance(a, done)
    ensures Executing(a) || (a.mailbox == [] && |Advance(a, done).functions.results| == 0)
  {
    PollKeepsMatch(a.functions, done);
  }

  /** What an offered VM leads to. An actor that is not executing takes it if there
      is a particle in its mailbox or a finished call; the interpretation then gets
      the oldest particle, or else the memoized one, together with all results
      stored so far, and nothing of either is kept. */
  lemma OfferExactly(a: ActorState, at: Placed, done: seq<Completion>)
    ensures var b, f := Offered(a, at, done), PollCalls(a.functions, done);
            && (Accepts(a, done) <==> a.future.None? && (a.mailbox != [] || |f.results| > 0))
            && (!Accepts(a, done) ==> b.future == a.future && b.mailbox == a.mailbox && b.launches == a.launches)
            && (Accepts(a, done) ==>
                  var input := if a.mailbox != [] then a.mailbox[0] else a.particle;
                  && b.future == Some(Running(at, input, f.results))
                  && b.launches == a.launches + [Launch(input, f.results, a.mailbox != [])]
                  && b.mailbox == (if a.mailbox != [] then a.mailbox[1..] else [])
                  && b.functions == f.(results := map[], stats := []))
            && b.requested == a.requested && b.particle == a.particle && b.deadline == a.deadline && b.peer == a.peer
  {
  }

  /** What polling an actor does (`Started` and `RequestIds` say what becomes of a
      request). When its interpretation has finished, the actor is
      free again and every requested call is in flight, in order, with the particle
      function that is set; finished calls are stored in either case. */
  lemma PolledExactly(a: ActorState, done: seq<Completion>, run: Option<Interpretation>)
    ensures var b, f := Polled(a, done, run), PollCalls(a.functions, done);
            var finished := a.future.Some? && run.Some?;
            var requests := if finished then run.value.requests else [];
            && b.future == (if finished then None else a.future)
            && b.functions.results == f.results && b.functions.stats == f.stats
            && b.functions.hasFunction == a.functions.hasFunction
            && b.functions.inFlight == f.inFlight + Started(requests, a.functions.hasFunction)
            && b.requested == a.requested + RequestIds(requests)
            && b.mailbox == a.mailbox && b.launches == a.launches && b.particle == a.particle
            && b.deadline == a.deadline && b.peer == a.peer
  {
    SameFunction(a.functions, done);
  }

  lemma {:induction false} SameFunction(f: FunctionsState, done: seq<Completion>)
    ensures PollCalls(f, done).hasFunction == f.hasFunction
  {
    if done != [] { SameFunction(f, done[..|done| - 1]); }
  }

  // ---------------------------------------------------------------- order of particles

  function Taken(launches: seq<Launch>): seq<Particle> {
    if launches == [] then []
    else
      var init, last := launches[..|launches| - 1], launches[|launches| - 1];
      if last.fromMailbox then Taken(init) + [last.particle] else Taken(init)
  }

  /** Particles taken for execution so far, followed by those still waiting. */
  function Accepted(a: ActorState): seq<Particle> {
    Taken(a.launches) + a.mailbox
  }

  /** The actor remembers the particle that created it, without its data, and
      interprets it whenever it has results but no particle in its mailbox. */
  ghost predicate Memoized(a: ActorState) {
    && Accepted(a) != []
    && a.particle == Accepted(a)[0].(data := "")
    && a.deadline == DeadlineOf(Accepted(a)[0])
    && forall l :: l in a.launches && !l.fromMailbox ==> l.particle == a.particle
  }

  lemma PolledMemoized(a: ActorState, done: seq<Completion>, run: Option<Interpretation>)
    requires Memoized(a)
    ensures Memoized(Polled(a, done, run)) && Accepted(Polled(a, done, run)) == Accepted(a)
  {
  }

  lemma OfferedMemoized(a: ActorState, at: Placed, done: seq<Completion>)
    requires Memoized(a)
    ensures Memoized(Offered(a, at, done))
  {
    OfferedKeepsOrder(a, at, done);
  }

  /** A particle that creates an actor is remembered by it. */
  lemma ReceivedMemoized(a: ActorState, p: Particle, setFunction: bool)
    requires Memoized(a) || (exists born :: a == NewActor(p, a.peer, born))
    ensures Memoized(Receive(a, p, setFunction)) && Accepted(Receive(a, p, setFunction)) == Accepted(a) + [p]
  {
    assert Accepted(Receive(a, p, setFunction)) == Accepted(a) + [p];
  }

  lemma OfferedKeepsOrder(a: ActorState, at: Placed, done: seq<Completion>)
    ensures Accepted(Offered(a, at, done)) == Accepted(a)
  {
    if Accepts(a, done) {
      var b := Offered(a, at, done);
      assert b.launches[..|b.launches| - 1] == a.launches;
      if a.mailbox != [] {
        assert a.mailbox == [a.mailbox[0]] + a.mailbox[1..];
      }
    }
  }

  // ---------------------------------------------------------------- the object

  datatype ActorPoll = Launched(stats: seq<Stat>) | Returned(at: Placed)

  class Actor {
    const deadline: Deadline
    var future: Option<Running>
    var mailbox: seq<Particle>
    const functions: Functions
    const particle: Particle
    const currentPeerId: PeerId
    ghost const born: nat
    ghost var launches: seq<Launch>
    ghost var requested: seq<CallId>

    ghost var state: ActorState

    /** `state` is the abstract value of the fields. */
    ghost predicate Valid()
      reads this, functions
    {
      state ==
        ActorState(deadline, future, mailbox, functions.View(), particle, currentPeerId, born, launches, requested)
    }

    constructor (p: Particle, peer: PeerId, ghost at: nat)
      ensures Valid() && state == NewActor(p, peer, at)
      ensures fresh(functions)
      ensures particle.id == functions.particle == p.id && currentPeerId == functions.scope == peer
    {
      deadline := DeadlineOf(p);
      future, mailbox := None, [];
      functions := new Functions(p.id, peer);
      particle := p.(data := "");
      currentPeerId := peer;
      born := at;
      launches, requested := [], [];
      state := NewActor(p, peer, at);
    }

    predicate IsExpired(now: U64) {
      deadline.IsExpired(now)
    }

    predicate IsExecuting()
      reads this
    {
      future.Some?
    }

    /** `ingest`, followed by `set_function` when a function came along. */
    method Ingest(p: Particle, setFunction: bool)
      requires Valid()
      modifies this, functions
      ensures Valid() && state == Receive(old(state), p, setFunction)
    {
      mailbox := mailbox + [p];
      if setFunction {
        functions.SetFunction();
      }
      state := Receive(state, p, setFunction);
    }

    /** The effects and the VM of a finished interpretation, if there is one. */
    method PollCompleted(done: seq<Completion>, run: Option<Interpretation>)
      returns (result: Option<(Placed, RoutingEffects)>)
      requires Valid()
      modifies this, functions
      ensures Valid() && state == Polled(old(state), done, run)
      ensures result ==
        if Completes(old(state), run)
        then Some((old(state).future.value.at, EffectsOf(old(state), run.value))) else None
    {
      functions.Poll(done);
      if future.Some? && run.Some? {
        var r := future.value;
        future := None;
        functions.Start(run.value.requests);
        requested := requested + RequestIds(run.value.requests);
        result := Some((r.at, RoutingEffects(r.particle.(data := run.value.data), run.value.nextPeers)));
      } else {
        result := None;
      }
      state := Polled(state, done, run);
    }

    /** The assertion in the last branch is the one the source makes when it
        hands back a VM: without results there are no statistics. */
    method PollNext(at: Placed, done: seq<Completion>) returns (result: ActorPoll)
      requires Valid() && ResultsMatchStats(state.functions)
      modifies this, functions
      ensures Valid() && state == Offered(old(state), at, done)
      ensures result.Launched? <==> Accepts(old(state), done)
      ensures result.Returned? ==> result.at == at
    {
      PollKeepsMatch(state.functions, done);
      functions.Poll(done);
      state := Offered(state, at, done);
      if IsExecuting() {
        return Returned(at);
      }
      var calls, stats := functions.Drain();
      if mailbox == [] && |calls| == 0 {
        assert stats == [];
        return Returned(at);
      }
      var p := if mailbox != [] then mailbox[0] else particle;
      launches := launches + [Launch(p, calls, mailbox != [])];
      if mailbox != [] {
        mailbox := mailbox[1..];
      }
      future := Some(Running(at, p, calls));
      result := Launched(stats);
    }
  }
}
