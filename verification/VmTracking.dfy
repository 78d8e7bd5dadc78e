/** Where every created VM is: in a slot of the pool, in the hands of one user,
    or dropped because a later write went over its slot. `busy` maps the users
    that hold a VM to the VM and the slot they will return it to. */
module VmTracking {
  import opened Base
  import opened VmPools

  ghost predicate FreeAt(p: PoolState, i: int) {
    0 <= i < |p.slots| && p.slots[i].Some?
  }

  /** A slot that was ever filled still has a VM in it or on its way back to it. */
  ghost predicate Covered<K>(p: PoolState, busy: map<K, Placed>, slot: nat) {
    FreeAt(p, slot) || exists k :: k in busy && busy[k].slot == slot
  }

  ghost predicate Tracked<K>(p: PoolState, busy: map<K, Placed>) {
    && FillOk(p)
    && (forall i :: FreeAt(p, i) ==> Placed(i, p.slots[i].value) in p.placed)
    && (forall k :: k in busy ==> busy[k] in p.placed)
    && (forall k, i :: k in busy && FreeAt(p, i) ==> p.slots[i].value != busy[k].vm)
    && (forall k, l :: k in busy && l in busy && busy[k].vm == busy[l].vm ==> k == l)
    && (forall q :: q in p.placed ==> Covered(p, busy, q.slot))
  }

  lemma SameFill(p: PoolState, slots: seq<Option<Vm>>)
    requires FillOk(p) && |slots| == |p.slots|
    ensures FillOk(p.(slots := slots))
  {
    var q := p.(slots := slots);
    assert forall vm :: WasPlaced(p, vm) <==> WasPlaced(q, vm);
  }

  lemma NewPoolTracked<K>(size: nat)
    ensures Tracked<K>(NewPool(size), map[])
  {
  }

  lemma TrackBegin<K>(p: PoolState, busy: map<K, Placed>)
    requires Tracked(p, busy)
    ensures Tracked(Begin(p), busy)
  {
    BeginKeeps(p);
    assert forall i :: FreeAt(p, i) <==> FreeAt(Begin(p), i);
    forall q | q in p.placed ensures Covered(Begin(p), busy, q.slot) { assert Covered(p, busy, q.slot); }
  }

  lemma TrackComplete<K>(p: PoolState, busy: map<K, Placed>, i: nat, ok: bool)
    requires Tracked(p, busy) && p.creating.Some? && i < |p.creating.value|
    ensures Tracked(Complete(p, i, ok), busy)
  {
    var c, q := p.creating.value, Complete(p, i, ok);
    CompletePlaced(p, i, ok);
    CompleteKeepsFill(p, i, ok);
    assert c[i] in c;
    forall x | x in p.placed ensures x.vm != c[i] { assert WasPlaced(p, x.vm); }
    if ok { assert q.placed[|p.placed|] == Placed(i, c[i]); }
    forall j | FreeAt(q, j) ensures Placed(j, q.slots[j].value) in q.placed {
      if !(ok && j == i) { assert FreeAt(p, j); }
    }
    forall k, j | k in busy && FreeAt(q, j) ensures q.slots[j].value != busy[k].vm {
      if !(ok && j == i) { assert FreeAt(p, j); }
    }
    forall x | x in q.placed ensures Covered(q, busy, x.slot) {
      if x in p.placed { assert Covered(p, busy, x.slot); }
      if x.slot == i && ok { assert FreeAt(q, i); }
      if FreeAt(p, x.slot) { assert FreeAt(q, x.slot); }
    }
  }

  lemma {:induction false} TrackFill<K>(p: PoolState, busy: map<K, Placed>, i: nat, ready: Vm -> Creation)
    requires Tracked(p, busy) && p.creating.Some?
    ensures Tracked(Fill(p, i, ready), busy)
    decreases |p.creating.value| - i
  {
    var c := p.creating.value;
    if i >= |c| {
    } else if ready(c[i]).Pending? {
      TrackFill(p, busy, i + 1, ready);
    } else {
      var ok := ready(c[i]).Created?;
      TrackComplete(p, busy, i, ok);
      TrackFill(Complete(p, i, ok), busy, i + 1, ready);
    }
  }

  lemma TrackPoll<K>(p: PoolState, busy: map<K, Placed>, ready: Vm -> Creation)
    requires Tracked(p, busy)
    ensures Tracked(PollPool(p, ready), busy)
  {
    TrackBegin(p, busy);
    TrackFill(Begin(p), busy, 0, ready);
  }

  lemma TrackReturn<K>(p: PoolState, busy: map<K, Placed>, k: K)
    requires Tracked(p, busy) && k in busy
    ensures Tracked(Put(p, busy[k]), busy - {k})
    ensures busy[k].slot < |p.slots|
  {
    var at, q, rest := busy[k], Put(p, busy[k]), busy - {k};
    assert at in p.placed;
    SameFill(p, q.slots);
    forall i | FreeAt(q, i) ensures Placed(i, q.slots[i].value) in q.placed {
      if i != at.slot { assert FreeAt(p, i); }
    }
    forall l, i | l in rest && FreeAt(q, i) ensures q.slots[i].value != rest[l].vm {
      if i != at.slot { assert FreeAt(p, i); }
    }
    forall x | x in q.placed ensures Covered(q, rest, x.slot) {
      assert Covered(p, busy, x.slot);
      if FreeAt(p, x.slot) || x.slot == at.slot {
        assert FreeAt(q, x.slot);
      } else {
        var l :| l in busy && busy[l].slot == x.slot;
        assert l in rest;
      }
    }
  }

  lemma TrackTake<K>(p: PoolState, busy: map<K, Placed>, k: K)
    requires Tracked(p, busy) && k !in busy && AnyFree(p)
    ensures Tracked(Take(p), busy[k := Next(p)])
  {
    var at, q := Next(p), Take(p);
    SameFill(p, q.slots);
    assert FreeAt(p, at.slot);
    assert forall i :: FreeAt(q, i) <==> FreeAt(p, i) && i != at.slot;
    NextIsOnlyThere(p, busy);
    TakeCovers(p, busy, k);
  }

  /** The VM that is taken is in no other slot. */
  lemma NextIsOnlyThere<K>(p: PoolState, busy: map<K, Placed>)
    requires Tracked(p, busy) && AnyFree(p)
    ensures forall i :: FreeAt(p, i) && p.slots[i].value == Next(p).vm ==> i == Next(p).slot
  {
    var at := Next(p);
    assert FreeAt(p, at.slot);
    forall i | FreeAt(p, i) && p.slots[i].value == at.vm ensures i == at.slot {
      OneSlotPerVm(p, Placed(i, at.vm), at);
    }
  }

  lemma TakeCovers<K>(p: PoolState, busy: map<K, Placed>, k: K)
    requires Tracked(p, busy) && k !in busy && AnyFree(p)
    ensures forall x :: x in p.placed ==> Covered(Take(p), busy[k := Next(p)], x.slot)
  {
    var at, more := Next(p), busy[k := Next(p)];
    forall x | x in p.placed ensures Covered(Take(p), more, x.slot) {
      assert Covered(p, busy, x.slot);
      if x.slot == at.slot {
        assert more[k].slot == x.slot;
      } else if FreeAt(p, x.slot) {
        assert FreeAt(Take(p), x.slot);
      } else {
        var l :| l in busy && busy[l].slot == x.slot;
        assert l in more && more[l].slot == x.slot;
      }
    }
  }

  lemma OneSlotPerVm(p: PoolState, x: Placed, y: Placed)
    requires CreationOk(p) && x in p.placed && y in p.placed && x.vm == y.vm
    ensures x == y
  {
    var i :| 0 <= i < |p.placed| && p.placed[i] == x;
    var j :| 0 <= j < |p.placed| && p.placed[j] == y;
  }

  lemma OneVmPerSlot(placed: seq<Placed>, x: Placed, y: Placed)
    requires SlotsDistinct(placed) && x in placed && y in placed && x.slot == y.slot
    ensures x == y
  {
    var i :| 0 <= i < |placed| && placed[i] == x;
    var j :| 0 <= j < |placed| && placed[j] == y;
  }

  // ---------------------------------------------------------------- exclusivity

  ghost predicate InSlot(p: PoolState, q: Placed) {
    FreeAt(p, q.slot) && p.slots[q.slot].value == q.vm
  }

  ghost predicate HeldBy<K>(busy: map<K, Placed>, k: K, q: Placed) {
    k in busy && busy[k] == q
  }

  /** Each created VM is in its own slot or with a user, a slot whose VM is with
      a user is empty, and no two users hold VMs of the same slot. */
  ghost predicate OnePlaceEach<K(!new)>(p: PoolState, busy: map<K, Placed>) {
    && (forall q :: q in p.placed ==> InSlot(p, q) || exists k :: HeldBy(busy, k, q))
    && (forall k :: k in busy ==> busy[k] in p.placed && !FreeAt(p, busy[k].slot))
    && (forall k, l :: k in busy && l in busy && busy[k].slot == busy[l].slot ==> k == l)
  }

  /** Every created VM keeps exactly one place, so that a returned VM finds its
      slot empty, if and only if no creation was written over a used slot. */
  lemma ExclusiveIffNoConflict<K(!new)>(p: PoolState, busy: map<K, Placed>)
    requires Tracked(p, busy)
    ensures OnePlaceEach(p, busy) <==> SlotsDistinct(p.placed)
  {
    if SlotsDistinct(p.placed) { Exclusive(p, busy); }
    if OnePlaceEach(p, busy) { OnlyWithoutConflict(p, busy); }
  }

  lemma Exclusive<K(!new)>(p: PoolState, busy: map<K, Placed>)
    requires Tracked(p, busy) && SlotsDistinct(p.placed)
    ensures OnePlaceEach(p, busy)
  {
    forall q | q in p.placed ensures InSlot(p, q) || exists k :: HeldBy(busy, k, q) {
      assert Covered(p, busy, q.slot);
      if FreeAt(p, q.slot) {
        OneVmPerSlot(p.placed, q, Placed(q.slot, p.slots[q.slot].value));
      } else {
        var k :| k in busy && busy[k].slot == q.slot;
        OneVmPerSlot(p.placed, q, busy[k]);
        assert HeldBy(busy, k, q);
      }
    }
    forall k | k in busy ensures !FreeAt(p, busy[k].slot) {
      if FreeAt(p, busy[k].slot) {
        OneVmPerSlot(p.placed, busy[k], Placed(busy[k].slot, p.slots[busy[k].slot].value));
      }
    }
    forall k, l | k in busy && l in busy && busy[k].slot == busy[l].slot ensures k == l {
      OneVmPerSlot(p.placed, busy[k], busy[l]);
    }
  }

  lemma OnlyWithoutConflict<K(!new)>(p: PoolState, busy: map<K, Placed>)
    requires Tracked(p, busy) && OnePlaceEach(p, busy)
    ensures SlotsDistinct(p.placed)
  {
    forall i, j | 0 <= i < j < |p.placed| ensures p.placed[i].slot != p.placed[j].slot {
      var x, y := p.placed[i], p.placed[j];
      assert x in p.placed && y in p.placed;
    }
  }

  // ---------------------------------------------------------------- counting

  ghost function FreeSlots(p: PoolState): set<nat> {
    set i: nat | i < |p.slots| && FreeAt(p, i)
  }

  ghost function Live<K>(p: PoolState, busy: map<K, Placed>): nat {
    |FreeSlots(p)| + |busy|
  }

  /** The VMs in slots and the VMs in use, as sets of tokens of the same sizes. */
  lemma LiveVms<K>(p: PoolState, busy: map<K, Placed>) returns (inSlots: set<Vm>, inUse: set<Vm>)
    requires Tracked(p, busy)
    ensures |inSlots| == |FreeSlots(p)| && |inUse| == |busy| && inSlots !! inUse
    ensures forall vm :: vm in inSlots <==> exists i: nat :: FreeAt(p, i) && p.slots[i].value == vm
    ensures forall vm :: vm in inUse <==> exists k :: k in busy && busy[k].vm == vm
  {
    inSlots := set i: nat | i < |p.slots| && FreeAt(p, i) :: p.slots[i].value;
    inUse := set k | k in busy :: busy[k].vm;
    var slotVm := map i: nat | i < |p.slots| && FreeAt(p, i) :: p.slots[i].value;
    forall i, j | i in FreeSlots(p) && j in FreeSlots(p) && slotVm[i] == slotVm[j] ensures i == j {
      OneSlotPerVm(p, Placed(i, slotVm[i]), Placed(j, slotVm[j]));
    }
    forall vm | vm in inSlots ensures exists i :: i in FreeSlots(p) && slotVm[i] == vm {
      var i: nat :| i < |p.slots| && FreeAt(p, i) && p.slots[i].value == vm;
      assert i in FreeSlots(p) && slotVm[i] == vm;
    }
    ImageSize(FreeSlots(p), slotVm, inSlots);
    var userVm := map k | k in busy :: busy[k].vm;
    ImageSize(busy.Keys, userVm, inUse);
    assert |busy.Keys| == |busy|;
  }

  ghost function PlacedVms(p: PoolState): seq<Vm> {
    seq(|p.placed|, i requires 0 <= i < |p.placed| => p.placed[i].vm)
  }

  lemma PlacedVmListed(p: PoolState, q: Placed)
    requires q in p.placed
    ensures q.vm in ToSet(PlacedVms(p))
  {
    var j :| 0 <= j < |p.placed| && p.placed[j] == q;
    assert PlacedVms(p)[j] == q.vm;
  }

  lemma PlacedVmsSize(p: PoolState)
    requires CreationOk(p)
    ensures |ToSet(PlacedVms(p))| == |p.placed| <= p.size
  {
    SetOfSeqSize(PlacedVms(p));
  }

  /** In every state, creation included: at most as many VMs are live as were
      created, and at most `size` were created. */
  lemma LiveBound<K>(p: PoolState, busy: map<K, Placed>)
    requires Tracked(p, busy)
    ensures Live(p, busy) <= |p.placed| <= p.size
  {
    var inSlots, inUse := LiveVms(p, busy);
    forall vm | vm in inSlots ensures vm in ToSet(PlacedVms(p)) {
      var i: nat :| FreeAt(p, i) && p.slots[i].value == vm;
      PlacedVmListed(p, Placed(i, vm));
    }
    forall vm | vm in inUse ensures vm in ToSet(PlacedVms(p)) {
      var k :| k in busy && busy[k].vm == vm;
      PlacedVmListed(p, busy[k]);
    }
    PlacedVmsSize(p);
    SubsetSize(inSlots + inUse, ToSet(PlacedVms(p)));
  }

  lemma {:induction false} SubsetSize<T>(a: set<T>, b: set<T>)
    requires a <= b
    ensures |a| <= |b|
  {
    assert b == a + (b - a);
  }

  /** Without a conflict, no VM is ever lost: the number of live VMs is exactly
      the number of created ones, whoever holds them. */
  lemma LiveConstant<K(!new)>(p: PoolState, busy: map<K, Placed>)
    requires Tracked(p, busy) && SlotsDistinct(p.placed)
    ensures Live(p, busy) == |p.placed|
  {
    var inSlots, inUse := LiveVms(p, busy);
    Exclusive(p, busy);
    LiveBound(p, busy);
    var vms := PlacedVms(p);
    forall vm | vm in ToSet(vms) ensures vm in inSlots + inUse {
      var j :| 0 <= j < |vms| && vms[j] == vm;
      var q := p.placed[j];
      assert q in p.placed;
      if InSlot(p, q) {
        assert FreeAt(p, q.slot) && p.slots[q.slot].value == vm;
      } else {
        var k :| HeldBy(busy, k, q);
        assert k in busy && busy[k].vm == vm;
      }
    }
    PlacedVmsSize(p);
    SubsetSize(ToSet(vms), inSlots + inUse);
  }

  /** Returning a VM loses one exactly when its slot holds another by then. */
  lemma ReturnKeepsLiveIff<K>(p: PoolState, busy: map<K, Placed>, k: K)
    requires Tracked(p, busy) && k in busy
    ensures Live(Put(p, busy[k]), busy - {k}) == Live(p, busy) - (if FreeAt(p, busy[k].slot) then 1 else 0)
  {
    assert busy[k] in p.placed;
    PutFills(p, busy[k]);
    OneLess(busy, k);
  }

  lemma PutFills(p: PoolState, at: Placed)
    requires at.slot < |p.slots|
    ensures |FreeSlots(Put(p, at))| == |FreeSlots(p)| + if FreeAt(p, at.slot) then 0 else 1
  {
    var q := Put(p, at);
    assert |q.slots| == |p.slots|;
    assert forall i: nat :: FreeAt(q, i) <==> FreeAt(p, i) || i == at.slot;
    assert FreeSlots(q) == FreeSlots(p) + {at.slot};
    AddOne(FreeSlots(p), at.slot);
  }

  lemma AddOne<T>(a: set<T>, x: T)
    ensures |a + {x}| == |a| + if x in a then 0 else 1
  {
    if x in a { assert a + {x} == a; }
  }

  lemma OneLess<K, V>(m: map<K, V>, k: K)
    requires k in m
    ensures |m - {k}| == |m| - 1
  {
    assert m.Keys == (m - {k}).Keys + {k};
    assert |m.Keys| == |m| && |(m - {k}).Keys| == |m - {k}|;
  }

  const FIRST_CREATED: PoolState := PoolState([Some(0), None], Some([1]), 2, [Placed(0, 0)])
  const FIRST_TAKEN: PoolState := PoolState([None, None], Some([1]), 2, [Placed(0, 0)])
  const BOTH_CREATED: PoolState := PoolState([Some(1), None], Some([]), 2, [Placed(0, 0), Placed(0, 1)])

  function FirstReady(vm: Vm): Creation {
    if vm == 0 then Created else Pending
  }

  /** The pool of `LossAfterCreation` at its three moments. */
  lemma SecondCreatedLater()
    ensures PollPool(NewPool(2), FirstReady) == FIRST_CREATED
    ensures PollPool(FIRST_TAKEN, AllReady) == BOTH_CREATED
  {
    var start := Begin(NewPool(2));
    assert start.creating.value == [0, 1];
    var first := Complete(start, 0, true);
    assert first.creating.value == [1] && Fill(first, 1, FirstReady) == first;
    var full := Complete(FIRST_TAKEN, 0, true);
    assert full.creating.value == [] && Fill(full, 1, AllReady) == full;
  }

  lemma FirstCreatedIsTracked()
    ensures Tracked<int>(FIRST_CREATED, map[])
  {
    SecondCreatedLater();
    NewPoolTracked<int>(2);
    TrackPoll<int>(NewPool(2), map[], FirstReady);
  }

  lemma FirstTakenIsTracked()
    ensures Tracked(FIRST_TAKEN, map[0 := Placed(0, 0)])
  {
    TakeFirst();
    FirstCreatedIsTracked();
    TrackTake(FIRST_CREATED, map[], 0);
  }

  lemma TakeFirst()
    ensures AnyFree(FIRST_CREATED) && Next(FIRST_CREATED) == Placed(0, 0) && Take(FIRST_CREATED) == FIRST_TAKEN
  {
    assert FirstFree(FIRST_CREATED.slots) == 0;
  }

  lemma BothCreatedIsTracked()
    ensures Tracked(BOTH_CREATED, map[0 := Placed(0, 0)])
  {
    SecondCreatedLater();
    FirstTakenIsTracked();
    TrackPoll(FIRST_TAKEN, map[0 := Placed(0, 0)], AllReady);
  }

  lemma BothCreatedLosesOne()
    ensures var busy := map[0 := Placed(0, 0)];
            Live(BOTH_CREATED, busy) == 2 && Live(Put(BOTH_CREATED, busy[0]), busy - {0}) == 1
  {
    var busy := map[0 := Placed(0, 0)];
    var after := Put(BOTH_CREATED, busy[0]);
    assert after.slots == [Some(0), None];
    OneFree(BOTH_CREATED);
    OneFree(after);
    OneLess(busy, 0);
  }

  lemma OneFree(p: PoolState)
    requires |p.slots| == 2 && p.slots[0].Some? && p.slots[1].None?
    ensures |FreeSlots(p)| == 1
  {
    assert FreeSlots(p) == {0};
  }

  /** A pool of two whose second VM is created while the first is in use: creation
      is over, both VMs are live, and returning the first overwrites the second. */
  lemma LossAfterCreation()
    ensures var first := PollPool(NewPool(2), FirstReady);
            AnyFree(first) &&
            var full, busy := PollPool(Take(first), AllReady), map[0 := Next(first)];
            && full.creating == Some([]) && Tracked(full, busy)
            && Live(full, busy) == 2 && Live(Put(full, busy[0]), busy - {0}) == 1
  {
    SecondCreatedLater();
    TakeFirst();
    BothCreatedIsTracked();
    BothCreatedLosesOne();
  }

  ghost function PlacedSlots(p: PoolState): set<nat> {
    set q | q in p.placed :: q.slot
  }

  /** With no VM in use, the live VMs are as many as the different slots that
      creation wrote: every further write has cost one. */
  lemma RestingLive<K>(p: PoolState)
    requires Tracked<K>(p, map[])
    ensures FreeSlots(p) == PlacedSlots(p)
    ensures Live<K>(p, map[]) == |PlacedSlots(p)|
  {
    var none: map<K, Placed> := map[];
    forall i: nat | i in PlacedSlots(p) ensures i in FreeSlots(p) {
      var q :| q in p.placed && q.slot == i;
      assert Covered(p, none, q.slot);
    }
    forall i: nat | i in FreeSlots(p) ensures i in PlacedSlots(p) {
      assert Placed(i, p.slots[i].value) in p.placed;
    }
  }

  /** `free_vms` reports the number of slots: that is the number of free VMs
      exactly when no slot is empty. */
  lemma FreeVmsExactIff(p: PoolState)
    ensures ReportedFree(p) == |FreeSlots(p)| <==> forall i: nat :: i < |p.slots| ==> FreeAt(p, i)
  {
    var all, free := Below(|p.slots|), FreeSlots(p);
    BelowIs(|p.slots|);
    assert all == free + (all - free);
    if |all| == |free| {
      assert |all - free| == 0 && all == free;
      forall i: nat | i < |p.slots| ensures FreeAt(p, i) { assert i in free; }
    }
    if forall i: nat :: i < |p.slots| ==> FreeAt(p, i) { assert all == free; }
  }

  /** Before its only VM is created, a pool of one reports one free VM. */
  lemma FreeVmsOfNewPool()
    ensures ReportedFree(NewPool(1)) == 1 && FreeSlots(NewPool(1)) == {}
  {
  }
}
