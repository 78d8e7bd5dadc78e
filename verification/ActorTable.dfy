/** The hash map of actors the scheduler owns (aquamarine/src/plumber.rs:47),
    with the operations the scheduler performs on its entries in place. */
module ActorTables {
  import opened Base
  import opened Particles
  import opened VmPools
  import opened FunctionLedgers
  import opened Actors
  import opened Plumbing

  class ActorTable {
    var actors: map<Key, Actor>
    ghost var views: map<Key, ActorState>
    ghost var repr: set<object>

    /** Each actor and its calls carry their key, so that no two entries share an
        object, as ownership guarantees in the source. */
    static ghost predicate Keyed(actors: map<Key, Actor>, repr: set<object>) {
      forall k {:trigger actors[k]} :: k in actors ==>
        && actors[k] in repr && actors[k].particle.id == k.particle && actors[k].currentPeerId == k.peer
        && actors[k].functions in repr
        && actors[k].functions.particle == k.particle && actors[k].functions.scope == k.peer
    }

    ghost predicate Shows(k: Key)
      requires k in actors && k in views
      reads this, actors[k], actors[k].functions
    {
      actors[k].Valid() && actors[k].state == views[k]
    }

    /** `views` holds the state of each actor. */
    ghost predicate Linked()
      reads this, repr
    {
      && this in repr
      && actors.Keys == views.Keys
      && Keyed(actors, repr)
      && forall k :: k in actors ==> Shows(k)
    }

    constructor ()
      ensures Linked() && views == map[] && fresh(repr)
    {
      actors, views := map[], map[];
      repr := {this};
    }

    method Add(key: Key, p: Particle, ghost born: nat)
      requires Linked() && key !in actors && key.particle == p.id
      modifies this
      ensures Linked() && fresh(repr - old(repr)) && old(repr) <= repr
      ensures views == old(views)[key := NewActor(p, key.peer, born)]
    {
      var a := new Actor(p, key.peer, born);
      Register(key, a);
    }

    /** Enters an actor that carries the key. */
    method Register(key: Key, a: Actor)
      requires Linked() && key !in actors && a.Valid()
      requires a.particle.id == key.particle && a.currentPeerId == key.peer
      requires a.functions.particle == key.particle && a.functions.scope == key.peer
      modifies this
      ensures Linked() && repr == old(repr) + {a, a.functions}
      ensures views == old(views)[key := a.state]
    {
      KeyedMore(actors, repr, key, a);
      actors := actors[key := a];
      repr := repr + {a, a.functions};
      views := views[key := a.state];
      forall k | k in actors ensures Shows(k) {
        if k != key {
          assert old(Shows(k)) && actors[k] == old(actors)[k] && views[k] == old(views)[k];
        }
      }
    }

    static lemma KeyedMore(actors: map<Key, Actor>, repr: set<object>, key: Key, a: Actor)
      requires Keyed(actors, repr)
      requires a.particle.id == key.particle && a.currentPeerId == key.peer
      requires a.functions.particle == key.particle && a.functions.scope == key.peer
      ensures Keyed(actors[key := a], repr + {a, a.functions})
    {
    }

    /** No other entry shares an object with this one. */
    lemma Apart(key: Key)
      requires Linked() && key in actors
      ensures forall k :: k in actors && k != key ==>
                actors[k] != actors[key] && actors[k].functions != actors[key].functions
    {
    }

    /** Records the state of one actor whose objects have just changed. */
    ghost method Record(key: Key)
      requires this in repr && actors.Keys == views.Keys && Keyed(actors, repr) && key in actors
      requires actors[key].Valid()
      requires forall k :: k in actors && k != key ==> Shows(k)
      modifies this`views
      ensures Linked()
      ensures views == old(views)[key := actors[key].state]
    {
      views := views[key := actors[key].state];
      forall k | k in actors ensures Shows(k) {
        if k != key { assert old(Shows(k)); }
      }
    }

    method Deliver(key: Key, p: Particle, setFunction: bool)
      requires Linked() && key in actors
      modifies repr
      ensures Linked() && repr == old(repr)
      ensures views == old(views)[key := Receive(old(views)[key], p, setFunction)]
    {
      Apart(key);
      actors[key].Ingest(p, setFunction);
      Record(key);
    }

    /** Appends to the mailbox of a key, creating its actor when there is none. */
    method Ingest(key: Key, p: Particle, setFunction: bool, ghost born: nat)
      requires Linked() && key.particle == p.id
      modifies repr
      ensures Linked() && fresh(repr - old(repr)) && old(repr) <= repr
      ensures views == old(views)[key :=
        Receive(if key in old(views) then old(views)[key] else NewActor(p, key.peer, born), p, setFunction)]
    {
      if key in actors {
        Deliver(key, p, setFunction);
      } else {
        Add(key, p, born);
        Deliver(key, p, setFunction);
      }
    }

    method Collect(key: Key, done: seq<Completion>, run: Option<Interpretation>)
      returns (result: Option<(Placed, RoutingEffects)>)
      requires Linked() && key in actors
      modifies repr
      ensures Linked() && repr == old(repr) && actors == old(actors)
      ensures views == old(views)[key := Polled(old(views)[key], done, run)]
      ensures result ==
        if Completes(old(views)[key], run)
        then Some((old(views)[key].future.value.at, EffectsOf(old(views)[key], run.value))) else None
    {
      Apart(key);
      result := actors[key].PollCompleted(done, run);
      Record(key);
    }

    method Launch(key: Key, at: Placed, done: seq<Completion>) returns (result: ActorPoll)
      requires Linked() && key in actors && ResultsMatchStats(views[key].functions)
      modifies repr
      ensures Linked() && repr == old(repr) && actors == old(actors)
      ensures views == old(views)[key := Offered(old(views)[key], at, done)]
      ensures result.Launched? <==> Accepts(old(views)[key], done)
      ensures result.Returned? ==> result.at == at
    {
      Apart(key);
      result := actors[key].PollNext(at, done);
      Record(key);
    }

    /** Keeps the actors that have not expired or are still executing. */
    method Retain(now: U64)
      requires Linked()
      modifies this
      ensures Linked() && repr == old(repr)
      ensures views == map k | k in old(views) && Keeps(old(views)[k], now) :: old(views)[k]
    {
      ghost var before := views;
      assert forall k :: k in actors ==>
        Shows(k) && (!actors[k].IsExpired(now) || actors[k].IsExecuting() <==> Keeps(views[k], now));
      actors := map k | k in actors && (!actors[k].IsExpired(now) || actors[k].IsExecuting()) :: actors[k];
      views := map k | k in views && Keeps(views[k], now) :: views[k];
      forall k | k in actors ensures Shows(k) {
        assert old(Shows(k));
      }
    }
  }
}
