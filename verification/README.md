# Verified model of a Fluence node

This project models the stateful core of a Fluence peer in Dafny and proves what
its components keep over every run:

* the **particle scheduler** (`aquamarine`): a fixed pool of VMs, one actor per
  particle and scope, the ledger of host calls, and the poll that gathers
  results, reaps expired actors, hands out VMs and routes particles;
* the **connection pool**: per-peer address sets, promises and the lifecycle
  stream;
* the **service registry**: services, aliases and their image on disk;
* the **timed state machines**: the spell event bus, Kademlia discovery with
  time-outs and bans, and script storage;
* small algorithmic cores: `kad_merge`, the memory metrics of the VM pool and
  the identity of blueprints.

Every component has three parts. A pure state machine (`Plumber.dfy`,
`ConnectionPool.dfy`, `Services.dfy`, `SpellBus.dfy`, `Kademlia.dfy`,
`ScriptStorage.dfy`) says what each operation does to the whole state. The run
modules (`*Runs.dfy`, `VmTracking.dfy`, `PlumberRouting.dfy`, `ConnectionPoolSteps.dfy`,
`SpellBusTimers.dfy`, `KademliaSteps.dfy`) prove invariants and theorems about all
sequences of operations, and say in terms of the state before a step exactly what
it changes. The object modules (`*Object.dfy`, and the classes in
`VmPool.dfy`, `Functions.dfy`, `Actor.dfy`, `ActorTable.dfy`, `VmPoolMetrics.dfy`,
`Blueprints.dfy`) hold the imperative form, with mutable fields and loops, and
prove that each method does exactly the step of the state machine
(`View() == Step(old(View()))`), so that the theorems about runs apply to it.

Everything a component gets from outside is an input of its steps: which VM
creations, interpretations and host calls have finished, clock readings, the
order in which a hash map hands out its keys, swarm callbacks, the addresses the
routing table knows, results of sending. Theorems quantify over all of them. An
opaque token stands for a VM, a number for a peer, an address, a channel or a
service, and the replies sent on a channel are entries of a log.

## Findings

Where the code does less than its names and comments suggest, the model follows
the code, a lemma exhibits the difference, and another gives the exact condition.

* **Filling the VM pool.** The loop removes creation `i`, writes slot `i` and
  then advances `i`, so a creation lands at its position less the number of lower
  positions that finished before it (`VmPools.WrittenSlot`) and can overwrite a
  used slot: two VMs that are ready together leave one
  (`VmPools.TwoReadyVmsConflict`), and a VM created while the first is in use is
  lost when the first comes back, after creation is over
  (`VmTracking.LossAfterCreation`; exact condition in
  `VmTracking.ReturnKeepsLiveIff`). Every VM keeps one place, and every VM put
  back finds its slot empty, exactly when no slot was written twice
  (`PlumbingRuns.VmExclusivity`, `PlumbingRuns.PutsFindEmptySlots`), which for
  successful creations means that they finished in descending order of position
  (`PlumbingRuns.ExclusiveIffDescending`).
* **`free_vms()`** returns the number of slots, which is the number of free VMs
  exactly when no slot is empty (`VmTracking.FreeVmsExactIff`; a new pool of one
  reports one, `VmTracking.FreeVmsOfNewPool`).
* **Re-added aliases.** Adding an alias to the service that already holds it
  pushes the alias and then strips it: after a run of one creation and the same
  `add_alias` twice the alias is indexed but not listed, its file lists it twice,
  and a restart gives other services (`Services.ReAddedAliasIsLost`). Memory, index
  and disk keep agreeing exactly when this does not happen
  (`Services.ConsistentIffNotReAdded`, `Services.RestartIffNotReAdded`).
* **Connecting without addresses.** `connect` with an empty address list to a
  known peer is answered `true` at once even when no address is connected
  (`ConnectionPoolRuns.EmptyConnectIsTold`; exact condition in
  `ConnectionPoolRuns.ConnectToldAtOnce`).
* **Bans.** Every full poll stamps each ban anew, so a ban ends by time exactly
  when two polls are at least the cooldown apart (`KademliaRuns.BanEndsIffReleased`).
  With the default settings (a query time-out below the cooldown) polls that come
  by the armed timer never lift it (`KademliaRuns.PunctualPollsNeverUnban`,
  example in `KademliaRuns.BanOutlivesCooldown`).
* **Clean-up of sent particles.** `cleanup` keeps the particles whose deadline
  has passed and forgets the live ones, so a failure counts exactly when the
  clean-up of its tick ran after the particle expired
  (`ScriptStorageRuns.CountableIffCleanedLate`); otherwise no script is ever
  removed for failing (`ScriptStorageRuns.PromptRunsCountNothing`; a run in which
  the failure of a sent particle changes nothing,
  `ScriptStorageRuns.FailureIsLost`).
* **Particle ids of scripts** repeat exactly when the 32-bit execution counter
  of one script comes round (`ScriptStorageRuns.ParticleIdsCollideIffWrapped`);
  a run of 2^32 + 1 particles does repeat one
  (`ScriptStorageRuns.ParticleIdsRepeat`). The counter is modelled as it behaves
  without overflow checks; with them the addition panics instead.
* **Memory metrics.** `vm_mem_min` starts at zero and stays zero
  (`VmPoolMetrics.Extremes`). Resizing the pool does not recompute the total
  (`VmPoolMetrics.ResizeKeepsTotalIff`, example in
  `VmPoolMetrics.ResizeLeavesTotal`); the node itself sets the size only once, on
  an empty table (aquamarine/src/vm_pool.rs:60), where this makes no difference.
* **`kad_merge`** without a count returns all distinct keys exactly when there
  are at most 20, although its comment says all of them (`KadMerge.Run`,
  `KadMerge.SomeKeyIsMissing`; 21 texts of which one is missing,
  `KadMerge.TwentyOneKeys`).

## Model

| member | source | states |
|---|---|---|
| `PlumbingRuns.VmExclusivity` | aquamarine/src/plumber.rs:121-250 | In every state of every run of arrivals and polls, live VMs ≤ created VMs ≤ pool size and all slots are in bounds; each created VM is in its own slot or with one executing actor, and the slot of a busy VM is empty, if and only if no slot was written twice by creation; then free + busy equals the created VMs; a pool of one never has a conflict |
| `PlumbingRuns.ExclusiveIffDescending` | aquamarine/src/vm_pool.rs:134-154 | In every run whose creations all succeeded, VMs are exclusive if and only if creations finished in descending order of position |
| `PlumbingRuns.LiveStaysConstant` | aquamarine/src/plumber.rs:133-212 | Once creation is over no step creates a VM, and if creation wrote no slot twice no step loses one: the number of live VMs stays the number created |
| `PlumbingRuns.PutsFindEmptySlots` | aquamarine/src/plumber.rs:161-162 | In every poll of every run whose creations wrote no slot twice, the VM of each completed interpretation finds its slot in bounds and empty, at any point of the gathering loop |
| `PlumbingRuns.BorrowedSlotIsEmpty` | aquamarine/src/vm_pool.rs:96-102 | A VM taken from any pool and put back at once, for reaping or because an actor declines it, finds its slot in bounds and empty and leaves the pool as it was |
| `PlumbingRuns.ParticlesInOrder` | aquamarine/src/actor.rs:99-174 | In every run, the particles an actor took for execution followed by its mailbox are exactly the particles accepted for it since its creation, in order, all with its particle id |
| `PlumbingRuns.CallsExactlyOnce` | aquamarine/src/actor.rs:105-177 | In every run, if the call ids of an actor are fresh each requested id is in exactly one of: in flight, stored, handed to one later interpretation; a running interpretation has the call results of the last launch; for any ids, results are empty exactly when statistics are, so the assertion in `poll_next` holds |
| `PlumbingRuns.InterpretsItsParticles` | aquamarine/src/actor.rs:56-177 | In every run, a running interpretation has the particle of the last launch; a launch that took nothing from the mailbox has the particle that created the actor, without its data; the actor expires with that particle |
| `PlumbingRuns.ResultsAreNeverOverwritten` | aquamarine/src/particle_functions.rs:76-87 | In every run, if the call ids of an actor are fresh, no stored call result is overwritten, at the gathering poll and at the scheduling poll, however its calls finish |
| `PlumbingRuns.IngestLedger` | aquamarine/src/plumber.rs:74-106 | An ingest either queues one expiry event and touches no actor, or appends the particle to exactly one mailbox, sets the particle function that came along, and queues nothing |
| `PlumbingRuns.LostOnlyByReaping` | aquamarine/src/plumber.rs:168-192 | An actor disappears in a poll if and only if a VM was free for the clean-up, the actor had expired and it was not executing; all others only add to their history |
| `PlumbingRuns.WorkConservation` | aquamarine/src/plumber.rs:194-212 | After the scheduling loop of every poll of every run that does not return early, no VM is free or every actor is executing or has an empty mailbox and no undelivered results |
| `PlumbingRouting.RoutingConserves` | aquamarine/src/plumber.rs:129-250 | In every poll of every run that gathers, for every map order: there is one answer per actor whose interpretation completed, with the particle of its last launch, the data and the next peers the interpreter returned; every (particle, next peer) pair is asked for by these answers as often as it is delivered locally or sent; local pairs are scopes and become arrivals and expiry events, in order; remote effects become events and contain no scope; the first event is handed out |
| `PlumbingRouting.DeliveryAccounts` | aquamarine/src/plumber.rs:235-239 | Local delivery appends exactly the arrivals of the unexpired pairs, in order, and exactly the expiry events of the expired ones, in order |
| `PlumbingRouting.DeliveryFills` | aquamarine/src/plumber.rs:235-239 | Local delivery appends to each mailbox exactly the particles that arrived for it, in order, creates an actor exactly with its first particle, and leaves interpretations and calls alone |
| `PlumbingRouting.GatherPolls` | aquamarine/src/plumber.rs:139-165 | Gathering polls every actor exactly once, with what finished for it |
| `PlumbingRouting.OfferReaches` | aquamarine/src/plumber.rs:194-212 | Scheduling offers every actor, at its turn, the VM of the lowest occupied slot as long as there is one |
| `PlumbingRouting.ActorThroughPoll` | aquamarine/src/plumber.rs:121-250 | What a full poll does to each surviving actor: polled once, offered the next free VM once if there is one, then given the particles routed to it |
| `PlumbingRouting.OnlyNewWorkIsLeft` | aquamarine/src/plumber.rs:194-239 | After every poll of every run that gathers, no VM is free or every actor is executing or has no undelivered result and nothing in its mailbox but the particles this poll routed to it |
| `PlumbingRouting.EarlyPollOnlyRefills` | aquamarine/src/plumber.rs:125-131 | A poll that finds an event waiting refills the pool, hands out that event and changes nothing else |
| `PlumbingRouting.FinishedExactly` | aquamarine/src/plumber.rs:139-163 | In every poll of every run that gathers, exactly one effect is collected for each actor whose interpretation completed: the particle of its last launch with the returned data, for the returned next peers |
| `PlumbingRouting.EventsLeaveInOrder` | aquamarine/src/plumber.rs:129-131 | In every run, early returns included, the events handed out so far followed by the queue are the events queued so far, in order |
| `PlumbingRuns.RunKeeps` | aquamarine/src/plumber.rs:74-250 | The invariant (VM tracking, actor histories, call ledgers) holds in every reachable state, for every interleaving and every map order |
| `VmTracking.ExclusiveIffNoConflict` | aquamarine/src/vm_pool.rs:75-111 | Given tracked VMs, one place each is equivalent to no slot written twice by creation |
| `VmTracking.TrackReturn` | aquamarine/src/vm_pool.rs:96-111 | Putting a VM back keeps every VM tracked, and the slot is in bounds |
| `VmTracking.TrackTake` | aquamarine/src/vm_pool.rs:75-93 | Taking the first free VM keeps every VM tracked |
| `VmTracking.LiveBound` | aquamarine/src/vm_pool.rs:114-159 | Free plus busy VMs never exceed the VMs created |
| `VmTracking.ReturnKeepsLiveIff` | aquamarine/src/vm_pool.rs:96-102 | Putting a VM back loses one live VM exactly when its slot is occupied |
| `VmTracking.LossAfterCreation` | aquamarine/src/vm_pool.rs:96-154 | A pool of two in which, after creation is over, returning a VM overwrites another: two live VMs become one |
| `VmTracking.RestingLive` | aquamarine/src/vm_pool.rs:134-154 | With no VM in use, the live VMs are as many as the different slots creation wrote |
| `VmTracking.FreeVmsExactIff` | aquamarine/src/vm_pool.rs:70-72 | `free_vms` equals the number of free VMs exactly when no slot is empty |
| `VmTracking.FreeVmsOfNewPool` | aquamarine/src/vm_pool.rs:70-72 | A new pool of one reports one free VM and has none |
| `VmPools.PollPoolKeeps` | aquamarine/src/vm_pool.rs:114-159 | The fill loop keeps the creation invariant: creations are a subsequence of the positions, each VM is placed at most once and at or below its position, in bounds |
| `VmPools.NoConflictIffDescending` | aquamarine/src/vm_pool.rs:134-154 | With all creations successful, no slot is written twice if and only if creations finished in descending order of position |
| `VmPools.WrittenSlot` | aquamarine/src/vm_pool.rs:134-154 | A creation is written to its position less the number of lower positions that finished before it, failed ones included |
| `VmPools.TwoReadyVmsConflict` | aquamarine/src/vm_pool.rs:134-154 | Two VMs ready at once in a pool of two: the second overwrites the first and one slot stays empty |
| `VmPools.VmPool.GetVm` | aquamarine/src/vm_pool.rs:75-93 | Takes the VM of the lowest occupied slot and empties that slot; none exactly when no slot is occupied |
| `VmPools.VmPool.PutVm` | aquamarine/src/vm_pool.rs:96-111 | Writes the VM to its slot and changes nothing else; callers prove the asserted emptiness of the slot for every pool whose creations wrote no slot twice |
| `VmPools.VmPool.FreeVms` | aquamarine/src/vm_pool.rs:70-72 | Returns the number of slots |
| `VmPools.VmPool.Poll` | aquamarine/src/vm_pool.rs:114-159 | The index loop does exactly the fill of the specification, starting creation on the first poll |
| `Particles.ExpiryIsFinal` | aquamarine/src/deadline.rs:28-45 | A deadline that has expired stays expired; one whose addition overflows is expired at every time |
| `Particles.ParticleExpiresExactly` | aquamarine/src/deadline.rs:28-45 | A particle is alive exactly up to timestamp + ttl, and never when that sum has no 64-bit value |
| `FunctionLedgers.PollKeepsMatch` | aquamarine/src/particle_functions.rs:76-87 | Storing any finished calls keeps results empty exactly when statistics are |
| `FunctionLedgers.SettleAgrees` | aquamarine/src/particle_functions.rs:117-228 | The particle function answers exactly the calls the builtins do not define, if it was set at the start; a value comes back unchanged with code 0, an error with its text and code 1; the statistic says who answered and whether it went well; a malformed call never happened |
| `FunctionLedgers.PollStoresEach` | aquamarine/src/particle_functions.rs:76-87 | Each finished call in turn leaves the calls in flight and is stored under its id with its result and its statistic; nothing else changes |
| `FunctionLedgers.Functions.Poll` | aquamarine/src/particle_functions.rs:76-87 | Moves each finished call from in flight to results and statistics, in order |
| `FunctionLedgers.Functions.Start` | aquamarine/src/particle_functions.rs:90-96 | Adds one call in flight per request, remembering whether a particle function is set |
| `FunctionLedgers.Functions.Drain` | aquamarine/src/particle_functions.rs:99-104 | Hands out all results and statistics and leaves none |
| `FunctionLedgers.Functions.SetFunction` | aquamarine/src/particle_functions.rs:106-108 | Sets the particle function and nothing else |
| `Actors.PolledKeeps` | aquamarine/src/actor.rs:105-139 | Collecting a completed interpretation keeps every actor invariant, the call ledger included |
| `Actors.OfferedKeeps` | aquamarine/src/actor.rs:141-177 | Offering a VM keeps every actor invariant |
| `Actors.DeclineIsIdle` | aquamarine/src/actor.rs:141-177 | An actor declines a VM only if it is executing or has neither particles nor results |
| `Actors.OfferedKeepsOrder` | aquamarine/src/actor.rs:151-174 | Taking a particle moves the front of the mailbox to the end of the taken particles |
| `Actors.OfferExactly` | aquamarine/src/actor.rs:141-177 | An offered VM is taken if and only if the actor is not executing and has a particle or a result; the interpretation then gets the oldest particle, or else the memoized one, and all results stored just before, which are handed over exactly once |
| `Actors.PolledExactly` | aquamarine/src/actor.rs:105-139 | When the interpretation has finished the actor is free and each requested call is in flight, in order, with the particle function that is set; finished calls are stored in either case; nothing else changes |
| `Actors.Actor.Ingest` | aquamarine/src/actor.rs:99-102 | Appends to the mailbox, setting the particle function when there is one |
| `Actors.Actor.PollCompleted` | aquamarine/src/actor.rs:105-139 | Does the collecting step: stores finished calls, and on completion returns the VM and the particle with the returned data, and starts the requested calls (`PolledExactly`, `PlumbingRouting.FinishedExactly`) |
| `Actors.Actor.PollNext` | aquamarine/src/actor.rs:141-177 | Does the offering step: returns the VM untouched or starts the next particle with the drained results (`OfferExactly`) |
| `ActorTables.ActorTable.Ingest` | aquamarine/src/plumber.rs:84-105 | Delivers to the actor of the key, creating it if absent; no other actor changes |
| `ActorTables.ActorTable.Collect` | aquamarine/src/plumber.rs:139-163 | Collects from one actor; no other actor changes |
| `ActorTables.ActorTable.Launch` | aquamarine/src/plumber.rs:196-201 | Offers a VM to one actor; no other actor changes |
| `ActorTables.ActorTable.Retain` | aquamarine/src/plumber.rs:170-189 | Keeps exactly the actors that are not expired or are executing, unchanged |
| `Plumbers.Plumber.constructor` | aquamarine/src/plumber.rs:56-72 | A new plumber is the initial state with an empty pool of the given size |
| `Plumbers.Plumber.Ingest` | aquamarine/src/plumber.rs:74-106 | Does the ingest step on actors and events, and keeps the run invariant |
| `Plumbers.Plumber.Poll` | aquamarine/src/plumber.rs:121-250 | The imperative poll, loops over actors included, does exactly the poll step, returns its event and keeps the run invariant |
| `Plumbers.Plumber.GatherAll` | aquamarine/src/plumber.rs:133-165 | The gathering loop returns all VMs of completed interpretations and splits their next peers |
| `Plumbers.Plumber.Partition` | aquamarine/src/plumber.rs:142-160 | Splits next peers by scope, keeping their order |
| `Plumbers.Plumber.ReapOwned` | aquamarine/src/plumber.rs:168-192 | Reaps with a borrowed VM that is put back; without a free VM nothing happens |
| `Plumbers.Plumber.OfferAll` | aquamarine/src/plumber.rs:194-212 | The scheduling loop, which stops at the first missing VM, does the offering step for all actors |
| `Plumbers.Plumber.DeliverAll` | aquamarine/src/plumber.rs:235-239 | Ingests every local pair in order |
| `Plumbers.Plumber.PopEvent` | aquamarine/src/plumber.rs:129-131 | Takes the oldest event |
| `ConnectionPoolRuns.PromiseLedger` | connection-pool/src/behaviour.rs:138-539 | In every run each Connect and Dial promise is answered exactly once or waits in exactly one list; a Dial answered with a contact has the dialed address in it; `connected` and `dialing` stay disjoint |
| `ConnectionPoolRuns.TrueMeansConnected` | connection-pool/src/behaviour.rs:152-333 | In every run, a Connect with addresses that was answered `true` was answered at a moment when its peer had a connected address |
| `ConnectionPoolRuns.LifecycleViewSound` | connection-pool/src/behaviour.rs:303-489 | In every run, if the last event a current subscriber received for a peer is Connected, the peer is a contact |
| `ConnectionPoolRuns.LifecycleViewComplete` | connection-pool/src/behaviour.rs:303-489 | In every run the last event for every peer with a connected address is Connected, and a current subscriber from the start has received it |
| `ConnectionPoolRuns.DisconnectedMeansLeft` | connection-pool/src/behaviour.rs:347-405 | A Disconnected event coincides with the peer leaving the contacts and its promises being refused; the peer is back only by a connection established in the same step |
| `ConnectionPoolRuns.LeavingIsAnnouncedOnce` | connection-pool/src/behaviour.rs:347-405 | A contact that leaves in a step is announced by exactly one Disconnected event of that step |
| `ConnectionPoolRuns.RunKeeps` | connection-pool/src/behaviour.rs:138-539 | Ledger, meaning of replies, lifecycle and subscriber inboxes are kept by every command and callback |
| `ConnectionPoolRuns.ClosingSheds` | connection-pool/src/behaviour.rs:459-539 | Closing callbacks only take away: each contact that leaves is announced once and refused, nobody else is announced, nobody is told of a success |
| `ConnectionPoolRuns.EmptyConnectIsTold` | connection-pool/src/behaviour.rs:152-196 | A Connect without addresses to a peer that is only being dialed is answered `true` |
| `ConnectionPoolRuns.ConnectToldAtOnce` | connection-pool/src/behaviour.rs:152-196 | A Connect is answered at once exactly when the peer is known with all given addresses connected; then it has a connection exactly when an address was given or it was connected already |
| `ConnectionPoolSteps.ClosedExactly` | connection-pool/src/behaviour.rs:459-489 | After a close a contact is gone if and only if no connection remains, or nothing but the closed address was connected or dialed; otherwise its address sets are the old ones without that address; other contacts stay, and dials of the address are answered with none |
| `ConnectionPoolSteps.ClosedAnnounces` | connection-pool/src/behaviour.rs:459-489 | A close announces the contact it removes, once, with the addresses it had, and nothing else |
| `ConnectionPoolSteps.DialFailedExactly` | connection-pool/src/behaviour.rs:491-539 | A dial failure while already connected or dialing changes nothing; any other removes exactly the contact of the peer, if one is given, answers the dials of the named addresses with none and drops them |
| `ConnectionPoolSteps.EstablishedExactly` | connection-pool/src/behaviour.rs:427-457 | After a connection the peer is a contact with its old addresses less the failed ones and plus the connected one, no promise waits for it, no dial waits for the addresses, and the last announcement is that it is connected |
| `ConnectionPoolSteps.EstablishedTells` | connection-pool/src/behaviour.rs:427-457 | Who waits for the peer is told of success, or of failure when only failed addresses were being dialed; dials of the address get a contact with it and dials of failed addresses none |
| `ConnectionPoolSteps.AddConnectedTells` | connection-pool/src/behaviour.rs:303-333 | A new address answers everyone who waits for the peer with success and everyone who dialed it with a contact |
| `ConnectionPoolSteps.ConnectExactly` | connection-pool/src/behaviour.rs:152-196 | What a Connect leaves: an unknown peer becomes a contact that dials all addresses; a known one is answered at once if all are connected and queues the promise otherwise; the swarm is asked to dial exactly the addresses not being dialed, if any |
| `ConnectionPoolSteps.DialExactly` | connection-pool/src/behaviour.rs:138-150 | A Dial waits behind those for the same address, and the swarm is asked to dial it |
| `ConnectionPoolSteps.DiscoveredExactly` | connection-pool/src/behaviour.rs:253-259 | Discovered addresses join those of the peer, a new contact if need be |
| `ConnectionPoolSteps.SubscribeExactly` | connection-pool/src/behaviour.rs:249-251 | A new subscriber starts with nothing received; the others are unaffected |
| `ConnectionPoolSteps.EmitReaches` | connection-pool/src/behaviour.rs:335-340 | An announcement reaches exactly the open subscribers, last, and drops exactly the closed ones |
| `ConnectionPoolSteps.DialsLeaveInOrder` | connection-pool/src/behaviour.rs:138-196 | In every run the dials handed to the swarm followed by those still queued are the dials asked for, in order |
| `ConnectionPoolObject.ConnectionPoolBehaviour.Dial` | connection-pool/src/behaviour.rs:138-150 | Queues the promise under its address and asks the swarm to dial |
| `ConnectionPoolObject.ConnectionPoolBehaviour.Connect` | connection-pool/src/behaviour.rs:152-196 | Does the Connect step of the specification, with its loop over addresses |
| `ConnectionPoolObject.ConnectionPoolBehaviour.AddSubscriber` | connection-pool/src/behaviour.rs:249-251 | Adds a subscriber that receives the lifecycle events from now on |
| `ConnectionPoolObject.ConnectionPoolBehaviour.AddDiscoveredAddresses` | connection-pool/src/behaviour.rs:253-259 | Adds discovered addresses to the peer and nothing else |
| `ConnectionPoolObject.ConnectionPoolBehaviour.AddConnectedAddress` | connection-pool/src/behaviour.rs:303-333 | Moves the address to connected, answers those waiting for the peer and for the address |
| `ConnectionPoolObject.ConnectionPoolBehaviour.SendLifecycle` | connection-pool/src/behaviour.rs:335-340 | Every open subscriber receives the event, closed ones are dropped |
| `ConnectionPoolObject.ConnectionPoolBehaviour.RemoveContact` | connection-pool/src/behaviour.rs:347-362 | Removes the contact, refuses its promises and emits Disconnected; nothing for an unknown peer |
| `ConnectionPoolObject.ConnectionPoolBehaviour.FailAddress` | connection-pool/src/behaviour.rs:371-405 | Answers dials with none, drops the address, refuses promises when nothing is dialed and removes the contact when nothing is connected either |
| `ConnectionPoolObject.ConnectionPoolBehaviour.InjectConnectionEstablished` | connection-pool/src/behaviour.rs:427-457 | Fails the failed addresses, adds the connected one, announces the peer |
| `ConnectionPoolObject.ConnectionPoolBehaviour.InjectConnectionClosed` | connection-pool/src/behaviour.rs:459-489 | Removes the contact with its last connection, then fails the address (`ConnectionPoolSteps.ClosedExactly`) |
| `ConnectionPoolObject.ConnectionPoolBehaviour.InjectDialFailure` | connection-pool/src/behaviour.rs:491-539 | Fails the addresses the error names and removes the contact, except while already connected or dialing |
| `Services.RestartReproduces` | particle-services/src/app_services.rs:505-598 | After any run with fresh ids that never re-adds an alias to its holder, reloading the files in any order rebuilds the same services, aliases and disk |
| `Services.RestartIffNotReAdded` | particle-services/src/app_services.rs:370-425 | After one more successful `add_alias` a restart still reproduces the services if and only if the alias was not already the target's |
| `Services.RunConsistent` | particle-services/src/app_services.rs:161-425 | In every such run, listed and indexed aliases agree both ways, no service repeats an alias, and the disk is the image of the services |
| `Services.AliasesIndexed` | particle-services/src/app_services.rs:370-425 | In every run with fresh ids, an alias listed by a service is indexed to it, hence no alias has two owners |
| `Services.ConsistentIffNotReAdded` | particle-services/src/app_services.rs:392-422 | A successful `add_alias` keeps agreement if and only if the alias was not already indexed to the target |
| `Services.ReAddBreaks` | particle-services/src/app_services.rs:397-412 | Re-adding an alias to its holder leaves it indexed but not listed, while the file lists it |
| `Services.ReAddedAliasIsLost` | particle-services/src/app_services.rs:370-425 | A run with fresh ids that adds an alias twice to one service, its registry and disk, and the different services after a restart |
| `Services.ReloadIsIdentity` | particle-services/src/persistence.rs:60-119 | Persisting and reloading a consistent registry in any file order is the identity |
| `Services.ReloadReplacesNothing` | particle-services/src/app_services.rs:544-547 | On restart, in any file order, recreating a service never replaces one |
| `Services.RemovalIsLocal` | particle-services/src/app_services.rs:161-234 | Removing a service takes away that service and its own aliases only |
| `Services.LeavesOnlyByRight` | particle-services/src/app_services.rs:161-234 | A service leaves the registry in a step if and only if its owner or a managing peer removes it, a spell only as a spell; otherwise owner and blueprint stay |
| `Services.Resolution` | particle-services/src/app_services.rs:106-124 | A name that is an id resolves to itself; a name resolves exactly when it is an id or an indexed alias, and an alias to the one service that lists it |
| `Services.AddAliasExactly` | particle-services/src/app_services.rs:370-425 | An alias is added if and only if a managing peer asks, the alias is no service id and the target exists, tested in this order; a refusal changes nothing; otherwise the alias is indexed to the target and listed by it unless it had it already, the previous holder loses it, and no other service changes |
| `Services.RemoveExactly` | particle-services/src/app_services.rs:161-234 | A removal succeeds if and only if the name resolves, the blueprint is known, the kind is right and the caller is allowed; a refusal changes nothing; otherwise exactly the service, its listed aliases and its file go |
| `Services.CreateExactly` | particle-services/src/app_services.rs:557-598 | A created service has the given blueprint and owner and no alias, in memory and on disk; a failed creation changes nothing |
| `Services.OwnersAreCreators` | particle-services/src/app_services.rs:557-598 | In every run each service has the blueprint and the owner of the step that created it |
| `ServicesObject.ParticleAppServices.AddAlias` | particle-services/src/app_services.rs:370-425 | Does the alias step, errors and disk writes included |
| `ServicesObject.ParticleAppServices.RemoveService` | particle-services/src/app_services.rs:161-234 | Does the removal step, errors and file removal included |
| `ServicesObject.ParticleAppServices.CreateServiceInner` | particle-services/src/app_services.rs:557-598 | Inserts the service and writes its file |
| `ServicesObject.ParticleAppServices.CreatePersistedServices` | particle-services/src/app_services.rs:505-555 | The loading loop rebuilds the registry from the files in the given order |
| `SpellBusRuns.BoundedTriggers` | crates/spell-event-bus/src/bus.rs:187-255 | In every run on a monotone clock, for every timer: no firing before the start, consecutive firings a period apart, only the last at or after the end, at most ceil((end − start)/period) + 1 firings, and one for a one-shot; the timer triggers sent are exactly the firings, in order, each to the spell of its timer |
| `SpellBusRuns.DisarmedExactlyBy` | crates/spell-event-bus/src/bus.rs:71-79 | In every run an armed timer leaves the heap in a step if and only if its spell is unsubscribed, or it fires and its trigger cannot be sent, the end of its subscription is not later than now, or its next firing is out of range |
| `SpellBusTimers.TimersAreDueExactly` | crates/spell-event-bus/src/bus.rs:71-128 | In every run, after every step, a timer is due at an instant if and only if: it is new and that is its start; it has just fired, goes on, and that is its period after now; or it was due then before and has neither fired nor been unsubscribed; and each subscription keeps its spell and configuration |
| `SpellBusTimers.PeerEventsReachListeners` | crates/spell-event-bus/src/bus.rs:231-236 | In every run a peer event triggers the spells that subscribed it and have not unsubscribed since, in order and as often as they subscribed, up to the first failed send; nothing else changes |
| `SpellBusRuns.UnsubscribedStaysSilent` | crates/spell-event-bus/src/bus.rs:187-255 | From any state, after a spell unsubscribes no run without a new subscription of it sends a trigger for it |
| `SpellBusRuns.UnsubscribeIsLocal` | crates/spell-event-bus/src/bus.rs:131-135 | Unsubscribing leaves timers and peer subscriptions of all other spells as they are, in order and multiplicity |
| `SpellBusRuns.FiresTheEarliest` | crates/spell-event-bus/src/bus.rs:237-249 | In every run a tick that can send fires the timer that is due earliest, not before it is due, and sends one trigger, to the spell that subscribed it |
| `SpellBusRuns.UserTimersAreBounded` | crates/spell-event-bus/src/config.rs:74-147 | In every run a timer from an accepted user configuration fires at most once without a period, at most ceil((end − start)/period) + 1 times with an end, and a period apart |
| `SpellBusRuns.RunKeeps` | crates/spell-event-bus/src/bus.rs:187-255 | Each heap entry continues the firings of one subscription, at most one entry each, in every reachable state |
| `SpellBus.UserConfigsAreBounded` | crates/spell-event-bus/src/config.rs:34-147 | A user configuration is refused exactly for a period over the maximum, an end before the start or a past end; accepted timers have a positive period within the maximum or are one-shots |
| `SpellBus.UserConfigExactly` | crates/spell-event-bus/src/config.rs:34-147 | An accepted user configuration asks for the given period, the given start or now if it has passed, the given end or the start for a one-shot, and then the connection events |
| `SpellBusObject.SubscribersState.Subscribe` | crates/spell-event-bus/src/bus.rs:108-128 | Adds the timers and peer events of a configuration, in order |
| `SpellBusObject.SubscribersState.Unsubscribe` | crates/spell-event-bus/src/bus.rs:131-135 | Drops the timers and peer subscriptions of one spell |
| `SpellBusObject.SubscribersState.AddPeerSubscriptions` | crates/spell-event-bus/src/bus.rs:26-33 | Appends the spell to the list of each event type |
| `SpellBusObject.SubscribersState.Notify` | crates/spell-event-bus/src/bus.rs:231-236 | Triggers the subscribers of an event in order until a send fails |
| `SpellBusObject.SubscribersState.Tick` | crates/spell-event-bus/src/bus.rs:237-249 | Pops the top entry, triggers its spell and pushes it again unless the send failed or it has ended (`SpellBusTimers.TimersAreDueExactly`) |
| `KademliaRuns.RequestLedger` | crates/kademlia/src/behaviour.rs:187-371 | In every run each discover request has been answered exactly once or waits exactly once, in the list of its peer; no pending list is empty |
| `KademliaRuns.WakeUpCoversDeadlines` | crates/kademlia/src/behaviour.rs:302-427 | In every state of every run the armed timer is no later than the deadline of any waiting request or ban, and a ban implies a count at the threshold |
| `KademliaRuns.PollAnswersExactlyTheDue` | crates/kademlia/src/behaviour.rs:302-371 | In every run a poll answers exactly the requests that waited twice the query time-out, each with a time-out, keeps exactly the younger ones, and arms the timer in the future for positive settings |
| `KademliaRuns.RepliesAreJustified` | crates/kademlia/src/behaviour.rs:187-283 | In every run each reply has its reason when it is sent: known or found addresses for the peer that was asked about, a ban while no address is known, or a request that is due |
| `KademliaRuns.PollIs` | crates/kademlia/src/behaviour.rs:317-371 | What a full poll makes of each peer in any map order: its young requests stay, one failure is counted if any request expired, its ban is lifted, set or stamped anew |
| `KademliaRuns.BanEndsIffReleased` | crates/kademlia/src/behaviour.rs:348-363 | In every run a ban ends in a step if and only if the peer is found or a poll comes at least the cooldown after the previous full poll |
| `KademliaRuns.PunctualPollsNeverUnban` | crates/kademlia/src/behaviour.rs:319-371 | With a query time-out below the cooldown, polls that come by the armed timer never lift a ban, over any run |
| `KademliaRuns.BanOutlivesCooldown` | crates/kademlia/src/behaviour.rs:348-363 | A run in which a peer is still banned at the wake-up armed for the end of its ban |
| `KademliaRuns.RunKeeps` | crates/kademlia/src/behaviour.rs:187-371 | Ledger, non-empty lists, stamps of bans and the timer are kept by every request, event and poll |
| `KademliaRuns.DrainSplits` | crates/kademlia/src/behaviour.rs:327-337 | Draining expired requests loses and duplicates none |
| `KademliaSteps.DiscoverExactly` | crates/kademlia/src/behaviour.rs:187-211 | A request is answered at once exactly if addresses are known or the peer is banned; otherwise it waits, last, and a query is started exactly if it is the first; all else stays |
| `KademliaSteps.RoutingAnswersAll` | crates/kademlia/src/behaviour.rs:240-256 | When a peer is found no request waits for it: each that waited has the found addresses as its answer, in order; its failures are forgotten and other peers keep their requests and failures |
| `KademliaSteps.QueryAnswersAll` | crates/kademlia/src/behaviour.rs:258-283 | A finished query for a peer is forgotten; with addresses it answers all who wait for the peer, without it leaves them waiting; an unknown query changes nothing |
| `KademliaSteps.PollBansExactly` | crates/kademlia/src/behaviour.rs:317-371 | In every run, after a full poll: a ban whose stamp is as old as the cooldown is gone with its failures; else one failure is counted if a request timed out, and the peer is banned as of now exactly if its failures have reached the threshold |
| `KademliaSteps.IdlePollDoesNothing` | crates/kademlia/src/behaviour.rs:315-318 | Without requests and failures a poll changes nothing and leaves the timer |
| `KademliaSteps.WakeUpIsNeeded` | crates/kademlia/src/behaviour.rs:317-371 | The timer is armed for the smaller of the two settings, the deadline of a request that still waits or the end of a ban in force, and never in the past |
| `KademliaObject.Behaviour.DiscoverPeer` | crates/kademlia/src/behaviour.rs:187-211 | Answers from local addresses or with a ban, else queues the request and starts a query only for the first |
| `KademliaObject.Behaviour.PeerDiscovered` | crates/kademlia/src/behaviour.rs:240-256 | Answers all who wait for the peer and clears its failures (`KademliaSteps.RoutingAnswersAll`) |
| `KademliaObject.Behaviour.ClosestFinished` | crates/kademlia/src/behaviour.rs:258-283 | A finished query answers those who wait if addresses are known, else leaves them waiting |
| `KademliaObject.Behaviour.HasTimedOut` | crates/kademlia/src/behaviour.rs:414-427 | Expired exactly when the time-out has passed; otherwise the wake-up is brought forward to the deadline and stays positive |
| `KademliaObject.Behaviour.Drain` | crates/kademlia/src/behaviour.rs:327-331 | Splits a list into expired and live requests and lowers the wake-up |
| `KademliaObject.Behaviour.SweepOne` | crates/kademlia/src/behaviour.rs:327-346 | Times out the expired requests of one peer and counts at most one failure |
| `KademliaObject.Behaviour.BanOne` | crates/kademlia/src/behaviour.rs:348-363 | Lifts, sets or stamps anew the ban of one peer |
| `KademliaObject.Behaviour.Poll` | crates/kademlia/src/behaviour.rs:317-371 | The two retain loops do exactly the poll step and arm the timer |
| `ScriptStorageRuns.ScriptSchedule` | script-storage/src/script_storage.rs:192-254 | In every run with fresh ids, the n-th particle of a script is not before creation + delay + (n − 1)·interval, particles are an interval apart, a script without interval sends at most one, and each carries its script's source |
| `ScriptStorageRuns.TickExecutesExactlyTheReady` | script-storage/src/script_storage.rs:192-254 | A tick sends exactly one particle for each ready script and none for any other, in any map order |
| `ScriptStorageRuns.SendsExactlyWhenDue` | script-storage/src/script_storage.rs:192-254 | In every run a tick sends a particle for a stored script if and only if its delay has passed, or, after the first, an interval has passed since the last one |
| `ScriptStorageRuns.ScriptEndsExactlyBy` | script-storage/src/script_storage.rs:192-323 | In every run a stored script is gone after a step if and only if its creator or an administrator removed it, it has no interval and was due, or its failures reached the limit |
| `ScriptStorageRuns.RemembersItsSends` | script-storage/src/script_storage.rs:225-233 | In every run each remembered particle was sent, with the script it belongs to and its time of sending plus the time to live as deadline |
| `ScriptStorageRuns.ParticleIdsCollideIffWrapped` | script-storage/src/script_storage.rs:199-222 | Two particles of a run have the same id if and only if they are of one script and their numbers agree modulo 2^32 |
| `ScriptStorageRuns.ParticleIdsDiffer` | script-storage/src/script_storage.rs:199-222 | Ids never repeat in a run of fewer than 2^32 particles |
| `ScriptStorageRuns.ParticleIdsRepeat` | script-storage/src/script_storage.rs:199-222 | A valid run of 2^32 + 1 particles of one script in which the first and the last have the same id |
| `ScriptStorageRuns.ParticleIdInjective` | script-storage/src/script_storage.rs:220-222 | The text of a particle id determines the script and the number, even when script ids contain underscores |
| `ScriptStorageRuns.FailuresNeverOverflow` | script-storage/src/script_storage.rs:296-323 | In every run the 8-bit failure count is the number of reported failures and stays below max(1, max_failures), so that its increment never overflows |
| `ScriptStorageRuns.RemovedAtLimit` | script-storage/src/script_storage.rs:303-316 | A reported failure removes the script exactly when it brings the count to the limit, and touches no other script |
| `ScriptStorageRuns.ReportedIsForgotten` | script-storage/src/script_storage.rs:302-303 | A reported particle is forgotten and no other; a report of an unknown one changes nothing |
| `ScriptStorageRuns.CountableIffCleanedLate` | script-storage/src/script_storage.rs:325-331 | After a tick, a particle sent in it is remembered if and only if the clean-up ran after it expired |
| `ScriptStorageRuns.CleanupKeepsExactlyTheExpired` | script-storage/src/script_storage.rs:325-331 | After a tick a particle is remembered if and only if it was remembered before or sent in the tick and its deadline, the latest one if it was sent again, has passed when the clean-up runs; script and deadline stay as they were |
| `ScriptStorageRuns.PromptRunsCountNothing` | script-storage/src/script_storage.rs:296-331 | In runs whose clean-ups come before the particles expire, no sent particle is remembered and no failure counted |
| `ScriptStorageRuns.FailureIsLost` | script-storage/src/script_storage.rs:296-331 | A valid run of prompt ticks that sends a particle whose reported failure changes nothing |
| `ScriptStorageRuns.OnlyCreatorRemoves` | script-storage/src/script_storage.rs:271-288 | A removal succeeds exactly for an existing script and its creator or an administrator; the three answers tell the three cases apart and nothing else changes |
| `ScriptStorageRuns.MarkThenSend` | script-storage/src/script_storage.rs:199-246 | Marking all ready scripts and then sending all particles equals executing script by script |
| `ScriptStorageRuns.RunKeeps` | script-storage/src/script_storage.rs:192-331 | The invariant on scripts, counters and past particles is kept by every command, tick and failure |
| `ScriptStorageObject.Backend.AddScript` | script-storage/src/script_storage.rs:258-270 | Inserts the script with its first execution after the delay, once only when there is no interval |
| `ScriptStorageObject.Backend.RemoveScript` | script-storage/src/script_storage.rs:271-288 | Does the removal step with its answer |
| `ScriptStorageObject.Backend.ExecuteScripts` | script-storage/src/script_storage.rs:192-254 | Takes the ready scripts, sends their particles and drops the finished scripts |
| `ScriptStorageObject.Backend.Cleanup` | script-storage/src/script_storage.rs:325-331 | Keeps exactly the particles whose deadline has passed |
| `ScriptStorageObject.Backend.RemoveFailedScripts` | script-storage/src/script_storage.rs:296-323 | Does the failure step on sent particles and scripts |
| `KadMerge.MergeIsNearest` | particle-builtins/src/builtins.rs:518-533 | Sort by distance, adjacent dedup and take give min(count, distinct keys) keys, strictly increasing in distance, each the first occurrence of its hash, with every omitted key farther than all returned |
| `KadMerge.NearestIsUnique` | particle-builtins/src/builtins.rs:518-533 | That description determines the answer |
| `KadMerge.AllReturnedIff` | particle-builtins/src/builtins.rs:511-533 | All distinct keys are returned exactly when there are no more than the count |
| `KadMerge.SomeKeyIsMissing` | particle-builtins/src/builtins.rs:505-533 | For all texts that decode to more than 20 distinct keys, a call without a count returns 20 and leaves a key out |
| `KadMerge.TwentyOneKeys` | particle-builtins/src/builtins.rs:503-511 | 21 texts that decode to distinct keys, of which a call without a count returns 20 |
| `KadMerge.XorInjective` | particle-builtins/src/builtins.rs:526-527 | Equal XOR distances to a target mean equal hashes, which makes duplicates adjacent |
| `KadMerge.XorBits` | particle-builtins/src/builtins.rs:526-526 | Each bit of the distance is set exactly where the hashes differ |
| `KadMerge.DedupFirst` | particle-builtins/src/builtins.rs:526-527 | On sorted keys, dedup keeps exactly the first key of each hash |
| `KadMerge.SortIs` | particle-builtins/src/builtins.rs:526-526 | The sort by distance is stable and keeps every key |
| `KadMerge.KeysAre` | particle-builtins/src/builtins.rs:518-525 | The keys are those of the texts, in order, each with the hash of its decoded bytes |
| `KadMerge.EncodedAre` | particle-builtins/src/builtins.rs:529-533 | The returned texts are the encodings of the keys, in order |
| `KadMerge.Run` | particle-builtins/src/builtins.rs:505-536 | Fails exactly when the target or a key is not base58, else returns the texts of the nearest distinct keys of the given texts, in that order; without a count all distinct keys are returned exactly when there are at most 20 |
| `VmPoolMetrics.AverageWithinBounds` | crates/peer-metrics/src/vm_pool.rs:124-151 | After n non-zero samples below 2^63 the average lies between the smallest and the largest sample, and n times the average is off the sum by at most n(n − 1)/2 |
| `VmPoolMetrics.NextCmaIs` | crates/peer-metrics/src/vm_pool.rs:140-148 | For samples below 2^63 the signed arithmetic never wraps and the absolute value changes nothing |
| `VmPoolMetrics.TotalIsSumOfLast` | crates/peer-metrics/src/vm_pool.rs:159-171 | The total is always the sum of the last non-zero sample of each VM, modulo 2^64 |
| `VmPoolMetrics.Extremes` | crates/peer-metrics/src/vm_pool.rs:151-157 | The maximum is that of the samples; the minimum is always zero |
| `VmPoolMetrics.ResizeKeepsTotalIff` | crates/peer-metrics/src/vm_pool.rs:124-127 | Resizing keeps the total right exactly when the dropped VMs account for nothing |
| `VmPoolMetrics.ResizeLeavesTotal` | crates/peer-metrics/src/vm_pool.rs:124-127 | A pool of one that measured 5 and is resized to none still reports 5 |
| `VmPoolMetrics.TruncatedIsDivision` | crates/peer-metrics/src/vm_pool.rs:145-145 | The model's division is the quotient of magnitudes with the sign of a truncating division |
| `VmPoolMetrics.VmPoolMetrics.ChangePoolSize` | crates/peer-metrics/src/vm_pool.rs:124-127 | Truncates or pads the per-VM sizes with zeros and nothing else |
| `VmPoolMetrics.VmPoolMetrics.MeasureMemory` | crates/peer-metrics/src/vm_pool.rs:129-172 | Does the measuring step on counter, average, extremes, sizes and total, for every counter value; reports the two divisions that panic |
| `Blueprints.StreamIdentity` | crates/service-modules/src/modules/dependencies.rs:20-31 | The hashed byte streams of two inputs are equal if and only if the facades are equal and the dependencies agree up to order, with multiplicity |
| `Blueprints.StreamLayout` | crates/service-modules/src/modules/dependencies.rs:20-31 | The hashed stream is the dependencies in ascending order, with multiplicity, 32 bytes each, and then the facade |
| `Blueprints.FirstDifferenceDecides` | crates/service-modules/src/modules/dependencies.rs:22-22 | Hashes are ordered by the first byte in which they differ |
| `Blueprints.SameIdIffSameParts` | crates/service-modules/src/modules/dependencies.rs:20-31 | Unless the hash collides on the two streams, ids are equal exactly for equal facades and equal dependencies up to order |
| `Blueprints.DeployerAgrees` | crates/builtins-deployer/src/utils.rs:66-73 | When every dependency resolves to the hash of its module bytes, the deployer's id is the repository's id, which is the hash of the stream with the last module as facade and the others before it; both fail exactly on an empty list |
| `Blueprints.IdentifiedByFacadeAndRest` | particle-modules/src/modules.rs:277-285 | Unless the hash collides on the two streams, two lists of modules have the same id if and only if their last modules agree and the others agree up to order; an empty list has none |
| `Blueprints.ResolvesInOrder` | particle-modules/src/modules.rs:488-501 | Resolution fails exactly with the first name, in order, that is not known; otherwise each dependency becomes its hash or the hash of its name, in order |
| `Blueprints.ReAddingIsStable` | particle-modules/src/modules.rs:269-300 | A stored blueprint added again gets the same id and dependencies, whatever module names mean by then |
| `Blueprints.HashDependencies` | crates/service-modules/src/modules/dependencies.rs:20-31 | Sorts, then feeds dependencies and facade to the hasher |
| `Blueprints.GetBlueprintId` | crates/builtins-deployer/src/utils.rs:66-73 | Hashes the modules, takes the last as facade, fails on none |
| `Blueprints.ModuleRepository.ResolveDependencies` | particle-modules/src/modules.rs:488-501 | Resolves in order, failing with the first unknown name |
| `Blueprints.ModuleRepository.AddBlueprint` | particle-modules/src/modules.rs:269-300 | Stores the blueprint under its id with all dependencies resolved and the facade last; on an error nothing changes |

## Left out

- AquaVM, Marine, WebAssembly services and AIR: an interpretation yields an arbitrary result with the same particle id.
- libp2p transport, swarm, handlers and routing tables: only the callbacks into the modelled behaviours, as inputs.
- Wakers, executors, channels, mutexes and `block_on`: each handler is one atomic step; a send either succeeds or fails as an input says.
- Signing, key formats, base58, hex, JSON, TOML and BLAKE3: parameters or identity; a blueprint id is the hash itself, not its hexadecimal text.
- Logging, Prometheus registration, histograms and run times; counters of the VM pool other than memory.
- Configuration files, command line, directory set-up, test swarms, connected client.
- Disk contents and I/O errors: the disk is a map and writes succeed.
- ServicesObject.ParticleAppServices.CreatePersistedServices: every persisted service is recreated; the source skips one whose file is unreadable or whose creation fails, so the restart theorems hold when none does.
- Connection pool commands that only read or forward (`send`, `is_connected`, `get_contact`, `count_connections`, `disconnect`) and the particle queue: single-branch operations.
- Eventual answers of Connect promises: the code does not add the addresses of a known peer to `dialing`, so this is not a property of it.
- Kademlia bootstrap and neighbourhood queries: they answer one channel each.
- Scalar builtins (`math`, `cmp`, `op`, `json`): single-branch facts.
- Calling services, vaults, interface caches and memory statistics of services.
- Overflow of clock values when a configuration is turned into an instant: instants are unbounded numbers; a reschedule that overflows is an input.
- FunctionLedgers.SettleAgrees: error texts are fixed strings without the service and function names.
