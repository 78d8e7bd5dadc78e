/** The pool of interpreter VMs (aquamarine/src/vm_pool.rs).

    A VM is an opaque token: the position its creation future had when the pool
    started creating runtimes. `placed` is a history of the slots into which
    finished creations were written, in the order of the writes. */
module VmPools {
  import opened Base

  type Vm = nat

  datatype Placed = Placed(slot: nat, vm: Vm)

  /** What polling one creation future yields. */
  datatype Creation = Pending | Created | Failed

  datatype PoolState = PoolState(
    slots: seq<Option<Vm>>,
    creating: Option<seq<Vm>>,
    size: nat,
    placed: seq<Placed>
  )

  function NewPool(size: nat): PoolState {
    PoolState(seq(size, _ => None), None, size, [])
  }

  // ---------------------------------------------------------------- taking and returning

  function FirstFree(slots: seq<Option<Vm>>): (i: nat)
    ensures i <= |slots|
    ensures forall j :: 0 <= j < i ==> slots[j].None?
    ensures i < |slots| ==> slots[i].Some?
  {
    if slots == [] then 0
    else if slots[0].Some? then 0
    else 1 + FirstFree(slots[1..])
  }

  predicate AnyFree(p: PoolState) {
    FirstFree(p.slots) < |p.slots|
  }

  /** The VM `get_vm` hands out, with its slot. */
  function Next(p: PoolState): Placed
    requires AnyFree(p)
  {
    var i := FirstFree(p.slots);
    Placed(i, p.slots[i].value)
  }

  function Take(p: PoolState): PoolState
    requires AnyFree(p)
  {
    p.(slots := p.slots[FirstFree(p.slots) := None])
  }

  /** What `free_vms` reports. */
  function ReportedFree(p: PoolState): nat {
    |p.slots|
  }

  /** A write outside the slots would panic; `Tracked` rules it out. */
  function Put(p: PoolState, at: Placed): PoolState {
    if at.slot < |p.slots| then p.(slots := p.slots[at.slot := Some(at.vm)]) else p
  }

  // ---------------------------------------------------------------- creation

  function Begin(p: PoolState): (q: PoolState)
    ensures q.creating.Some?
  {
    if p.creating.Some? then p else p.(creating := Some(seq(p.size, i requires 0 <= i => i)))
  }

  /** Future `i` of the waiting list completes: it leaves the list, and a created
      VM is written to the slot with the same index `i`. */
  function Complete(p: PoolState, i: nat, ok: bool): (q: PoolState)
    requires p.creating.Some? && i < |p.creating.value|
    ensures q.creating.Some?
  {
    var c := p.creating.value;
    var q := p.(creating := Some(c[..i] + c[i + 1..]));
    if ok then Put(q, Placed(i, c[i])).(placed := p.placed + [Placed(i, c[i])]) else q
  }

  /** The fill loop from index `i`. The index advances even when the list shrank. */
  function Fill(p: PoolState, i: nat, ready: Vm -> Creation): (q: PoolState)
    requires p.creating.Some?
    ensures q.creating.Some?
    decreases |p.creating.value| - i
  {
    var c := p.creating.value;
    if i >= |c| then p
    else if ready(c[i]).Pending? then Fill(p, i + 1, ready)
    else Fill(Complete(p, i, ready(c[i]).Created?), i + 1, ready)
  }

  function PollPool(p: PoolState, ready: Vm -> Creation): PoolState {
    Fill(Begin(p), 0, ready)
  }

  // ---------------------------------------------------------------- what creation keeps

  ghost predicate Ascending(c: seq<Vm>) {
    forall i, j :: 0 <= i < j < |c| ==> c[i] < c[j]
  }

  ghost predicate WasPlaced(p: PoolState, vm: Vm) {
    exists q :: q in p.placed && q.vm == vm
  }

  /** Creation bookkeeping: waiting and placed VMs are different VMs, and there
      are never more of them than `size`. */
  ghost predicate CreationOk(p: PoolState) {
    && |p.slots| == p.size
    && (p.creating.None? ==> p.placed == [])
    && (p.creating.Some? ==>
          && Ascending(p.creating.value)
          && |p.creating.value| + |p.placed| <= p.size
          && (forall vm :: vm in p.creating.value ==> vm < p.size && !WasPlaced(p, vm)))
    && (forall i, j :: 0 <= i < j < |p.placed| ==> p.placed[i].vm != p.placed[j].vm)
    && (forall q :: q in p.placed ==> q.slot < p.size && q.slot <= q.vm < p.size)
  }

  ghost predicate SlotsDistinct(placed: seq<Placed>) {
    forall i, j :: 0 <= i < j < |placed| ==> placed[i].slot != placed[j].slot
  }

  ghost predicate Descending(placed: seq<Placed>) {
    forall i, j :: 0 <= i < j < |placed| ==> placed[i].vm > placed[j].vm
  }

  /** Every VM that landed in its own slot did so before any lower VM left the list. */
  ghost predicate HomeIsEarly(p: PoolState) {
    forall j :: 0 <= j < |p.placed| && p.placed[j].slot == p.placed[j].vm ==>
      forall i :: 0 <= i < j ==> p.placed[i].vm > p.placed[j].vm
  }

  /** As long as no creation failed, every VM is waiting or placed. */
  ghost predicate NothingLost(p: PoolState) {
    p.creating.Some? && |p.creating.value| + |p.placed| == p.size ==>
      && (forall vm: nat :: vm < p.size ==> vm in p.creating.value || WasPlaced(p, vm))
      && (forall j :: 0 <= j < |p.placed| && (forall i :: 0 <= i < j ==> p.placed[i].vm > p.placed[j].vm) ==>
            p.placed[j].slot == p.placed[j].vm)
  }

  ghost predicate FillOk(p: PoolState) {
    CreationOk(p) && HomeIsEarly(p) && NothingLost(p)
  }

  lemma {:induction false} AscendingAboveIndex(c: seq<Vm>, i: nat)
    requires Ascending(c) && i < |c|
    ensures c[i] >= i
    ensures c[i] == i ==> forall v: nat :: v <= i ==> v in c
  {
    if i > 0 {
      AscendingAboveIndex(c, i - 1);
      if c[i] == i {
        forall v: nat | v <= i ensures v in c {
          if v == i { assert c[i] in c; }
        }
      }
    }
  }

  /** When all numbers up to `c[i]` are in an ascending list, `c[i]` sits at its own index. */
  lemma {:induction false} FullPrefixIsHome(c: seq<Vm>, i: nat)
    requires Ascending(c) && i < |c|
    requires forall v: nat :: v < c[i] ==> v in c
    ensures c[i] == i
  {
    AscendingAboveIndex(c, i);
    if i == 0 {
      assert 0 < c[0] ==> 0 in c;
    } else {
      forall v: nat | v < c[i - 1] ensures v in c { assert c[i - 1] < c[i]; }
      FullPrefixIsHome(c, i - 1);
      assert c[i] > i ==> i in c;
    }
  }

  lemma CompletePlaced(p: PoolState, i: nat, ok: bool)
    requires CreationOk(p) && p.creating.Some? && i < |p.creating.value|
    ensures var c, q := p.creating.value, Complete(p, i, ok);
            && |q.slots| == |p.slots| && q.size == p.size
            && q.creating == Some(c[..i] + c[i + 1..])
            && q.placed == (if ok then p.placed + [Placed(i, c[i])] else p.placed)
            && i < |p.slots|
            && (forall j :: 0 <= j < |p.slots| ==>
                 q.slots[j] == if ok && j == i then Some(c[i]) else p.slots[j])
            && forall vm :: WasPlaced(q, vm) <==> WasPlaced(p, vm) || (ok && vm == c[i])
  {
    var c, q := p.creating.value, Complete(p, i, ok);
    forall vm ensures WasPlaced(q, vm) <==> WasPlaced(p, vm) || (ok && vm == c[i]) {
      if WasPlaced(p, vm) {
        var x :| x in p.placed && x.vm == vm;
        assert x in q.placed;
      }
      if ok && vm == c[i] {
        assert q.placed[|p.placed|] == Placed(i, c[i]);
        assert Placed(i, c[i]) in q.placed;
      }
    }
  }

  /** What is still waiting was waiting, in order, and has not been placed. */
  lemma StillWaiting(p: PoolState, i: nat, ok: bool)
    requires CreationOk(p) && p.creating.Some? && i < |p.creating.value|
    ensures var q := Complete(p, i, ok);
            && Ascending(q.creating.value)
            && forall vm :: vm in q.creating.value ==> vm < p.size && !WasPlaced(q, vm)
  {
    var c, q := p.creating.value, Complete(p, i, ok);
    CompletePlaced(p, i, ok);
    var d := q.creating.value;
    assert forall k :: 0 <= k < |d| ==> d[k] == if k < i then c[k] else c[k + 1];
    forall vm | vm in d ensures vm < p.size && !WasPlaced(q, vm) {
      var k :| 0 <= k < |d| && d[k] == vm;
      assert vm in c;
    }
  }

  lemma CompleteKeepsCreation(p: PoolState, i: nat, ok: bool)
    requires CreationOk(p) && p.creating.Some? && i < |p.creating.value|
    ensures CreationOk(Complete(p, i, ok))
  {
    var c := p.creating.value;
    CompletePlaced(p, i, ok);
    StillWaiting(p, i, ok);
    AscendingAboveIndex(c, i);
    assert c[i] in c;
    forall k | 0 <= k < |p.placed| ensures p.placed[k].vm != c[i] {
      assert p.placed[k] in p.placed;
    }
  }

  lemma CompleteKeepsHome(p: PoolState, i: nat)
    requires CreationOk(p) && HomeIsEarly(p) && p.creating.Some? && i < |p.creating.value|
    ensures HomeIsEarly(Complete(p, i, true))
  {
    var c, q, n := p.creating.value, Complete(p, i, true), |p.placed|;
    CompletePlaced(p, i, true);
    if c[i] == i {
      AscendingAboveIndex(c, i);
      forall k | 0 <= k < n ensures p.placed[k].vm > i {
        assert p.placed[k] in p.placed;
        assert WasPlaced(p, p.placed[k].vm);
      }
    }
  }

  /** A VM that completes before every lower one has left the list lands at home. */
  lemma LowestFirstIsHome(p: PoolState, i: nat)
    requires CreationOk(p) && NothingLost(p) && p.creating.Some? && i < |p.creating.value|
    requires |p.creating.value| + |p.placed| == p.size
    requires forall k :: 0 <= k < |p.placed| ==> p.placed[k].vm > p.creating.value[i]
    ensures p.creating.value[i] == i
  {
    var c := p.creating.value;
    assert c[i] in c;
    forall v: nat | v < c[i] ensures v in c {
      assert v in c || WasPlaced(p, v);
    }
    FullPrefixIsHome(c, i);
  }

  lemma StillListed(p: PoolState, i: nat)
    requires CreationOk(p) && p.creating.Some? && i < |p.creating.value|
    requires forall vm: nat :: vm < p.size ==> vm in p.creating.value || WasPlaced(p, vm)
    ensures var q := Complete(p, i, true);
            forall vm: nat :: vm < q.size ==> vm in q.creating.value || WasPlaced(q, vm)
  {
    var c, q := p.creating.value, Complete(p, i, true);
    CompletePlaced(p, i, true);
    var d := q.creating.value;
    forall vm: nat | vm < q.size ensures vm in d || WasPlaced(q, vm) {
      if vm in c && vm != c[i] {
        var k :| 0 <= k < |c| && c[k] == vm;
        assert d[if k < i then k else k - 1] == vm;
      }
    }
  }

  lemma CompleteKeepsAll(p: PoolState, i: nat)
    requires CreationOk(p) && NothingLost(p) && p.creating.Some? && i < |p.creating.value|
    ensures NothingLost(Complete(p, i, true))
  {
    var c, q, n := p.creating.value, Complete(p, i, true), |p.placed|;
    CompletePlaced(p, i, true);
    if |c| + n == p.size {
      StillListed(p, i);
      forall j | 0 <= j < |q.placed| && (forall k :: 0 <= k < j ==> q.placed[k].vm > q.placed[j].vm)
        ensures q.placed[j].slot == q.placed[j].vm
      {
        assert forall k :: 0 <= k < n ==> q.placed[k] == p.placed[k];
        if j == n { LowestFirstIsHome(p, i); }
      }
    }
  }

  lemma CompleteKeepsFill(p: PoolState, i: nat, ok: bool)
    requires FillOk(p) && p.creating.Some? && i < |p.creating.value|
    ensures FillOk(Complete(p, i, ok))
  {
    CompleteKeepsCreation(p, i, ok);
    if ok {
      CompleteKeepsHome(p, i);
      CompleteKeepsAll(p, i);
    }
  }

  lemma {:induction false} FillKeeps(p: PoolState, i: nat, ready: Vm -> Creation)
    requires FillOk(p) && p.creating.Some?
    ensures FillOk(Fill(p, i, ready))
    decreases |p.creating.value| - i
  {
    var c := p.creating.value;
    if i >= |c| {
    } else if ready(c[i]).Pending? {
      FillKeeps(p, i + 1, ready);
    } else {
      var ok := ready(c[i]).Created?;
      CompleteKeepsFill(p, i, ok);
      FillKeeps(Complete(p, i, ok), i + 1, ready);
    }
  }

  lemma BeginKeeps(p: PoolState)
    requires FillOk(p)
    ensures FillOk(Begin(p))
  {
    if p.creating.None? {
      var c := Begin(p).creating.value;
      forall vm: nat | vm < p.size ensures vm in c { assert c[vm] == vm; }
    }
  }

  lemma PollPoolKeeps(p: PoolState, ready: Vm -> Creation)
    requires FillOk(p)
    ensures FillOk(PollPool(p, ready))
  {
    BeginKeeps(p);
    FillKeeps(Begin(p), 0, ready);
  }

  /** Distinct slots force every VM into its own slot, lowest VM first. */
  lemma {:induction false} DistinctSlotsAreHome(p: PoolState, m: nat)
    requires CreationOk(p) && SlotsDistinct(p.placed)
    requires forall vm: nat :: vm < p.size ==> WasPlaced(p, vm)
    requires m <= p.size
    ensures forall j :: 0 <= j < |p.placed| && p.placed[j].vm < m ==> p.placed[j].slot == p.placed[j].vm
  {
    if m > 0 {
      DistinctSlotsAreHome(p, m - 1);
      forall j | 0 <= j < |p.placed| && p.placed[j].vm == m - 1 ensures p.placed[j].slot == m - 1 {
        assert p.placed[j] in p.placed;
        var s := p.placed[j].slot;
        assert WasPlaced(p, s);
      }
    }
  }

  /** Of a pool whose creations all succeeded, no created VM was written over a
      used slot if and only if the creations finished in descending order of
      their position. */
  lemma NoConflictIffDescending(p: PoolState)
    requires FillOk(p) && p.creating.Some?
    requires |p.placed| == p.size
    ensures SlotsDistinct(p.placed) <==> Descending(p.placed)
  {
    assert p.creating.value == [];
    if SlotsDistinct(p.placed) {
      DistinctSlotsAreHome(p, p.size);
      assert forall j :: 0 <= j < |p.placed| ==> p.placed[j] in p.placed;
    }
    if Descending(p.placed) {
      assert forall j :: 0 <= j < |p.placed| ==> p.placed[j].slot == p.placed[j].vm;
    }
  }

  function AllReady(vm: Vm): Creation {
    Created
  }

  /** With two VMs that are both ready at once, the second one is written over
      the slot of the first: a pool of two is left with one VM. */
  lemma TwoReadyVmsConflict()
    ensures var p := PollPool(PollPool(NewPool(2), AllReady), AllReady);
            && p.placed == [Placed(0, 0), Placed(0, 1)]
            && p.slots == [Some(1), None]
  {
    var start := Begin(NewPool(2));
    assert start.creating.value == [0, 1];
    var one := Complete(start, 0, true);
    assert one.creating.value == [1];
    assert Fill(one, 1, AllReady) == one;
    assert PollPool(NewPool(2), AllReady) == one;
    var two := Complete(one, 0, true);
    assert two.creating.value == [];
    assert Fill(two, 1, AllReady) == two;
    assert PollPool(one, AllReady) == two;
  }

  // ---------------------------------------------------------------- where a creation lands

  /** The positions below `vm` whose creation is over, failed ones included. */
  ghost function FinishedBelow(p: PoolState, vm: Vm): set<nat>
    requires p.creating.Some?
  {
    set u | u in Below(vm) && u !in p.creating.value
  }

  /** A creation is written to its position less the number of lower positions
      that finished before it, whether those succeeded or not. */
  lemma WrittenSlot(p: PoolState, i: nat)
    requires CreationOk(p) && p.creating.Some? && i < |p.creating.value|
    ensures var vm := p.creating.value[i];
            && |FinishedBelow(p, vm)| <= vm
            && Complete(p, i, true).placed == p.placed + [Placed(vm - |FinishedBelow(p, vm)|, vm)]
  {
    var c := p.creating.value;
    var lower := ToSet(c[..i]);
    SetOfSeqSize(c[..i]);
    BelowIs(c[i]);
    forall u: nat | u in c && u < c[i] ensures u in lower {
      var j :| 0 <= j < |c| && c[j] == u;
      assert j < i && c[..i][j] == u;
    }
    assert Below(c[i]) == lower + FinishedBelow(p, c[i]);
  }

  // ---------------------------------------------------------------- the object

  class VmPool {
    var runtimes: seq<Option<Vm>>
    var creatingRuntimes: Option<seq<Vm>>
    const poolSize: nat
    ghost var placed: seq<Placed>

    ghost function View(): PoolState
      reads this
    {
      PoolState(runtimes, creatingRuntimes, poolSize, placed)
    }

    constructor (size: nat)
      ensures View() == NewPool(size)
    {
      runtimes := seq(size, _ => None);
      creatingRuntimes := None;
      poolSize := size;
      placed := [];
    }

    method GetVm() returns (vm: Option<Placed>)
      modifies this
      ensures vm == if old(AnyFree(View())) then Some(old(Next(View()))) else None
      ensures View() == if old(AnyFree(View())) then old(Take(View())) else old(View())
    {
      var i := 0;
      ghost var first := FirstFree(runtimes);
      while i < |runtimes| && runtimes[i].None?
        invariant i <= first <= |runtimes|
      {
        i := i + 1;
      }
      if i < |runtimes| {
        vm := Some(Placed(i, runtimes[i].value));
        runtimes := runtimes[i := None];
      } else {
        vm := None;
      }
    }

    method FreeVms() returns (n: nat)
      ensures n == ReportedFree(View())
    {
      n := |runtimes|;
    }

    /** The slot is in bounds and, unless creation wrote some slot twice, empty,
        as the source asserts. */
    method PutVm(at: Placed)
      requires at.slot < |runtimes|
      requires SlotsDistinct(placed) ==> runtimes[at.slot].None?
      modifies this
      ensures View() == old(Put(View(), at))
    {
      runtimes := runtimes[at.slot := Some(at.vm)];
    }

    method Poll(ready: Vm -> Creation)
      requires CreationOk(View())
      modifies this
      ensures View() == old(PollPool(View(), ready))
      ensures CreationOk(View())
    {
      ghost var start := View();
      if creatingRuntimes.None? {
        assert Begin(start).creating.value == seq(poolSize, i requires 0 <= i => i);
        creatingRuntimes := Some(seq(poolSize, i requires 0 <= i => i));
      }
      assert View() == Begin(start);
      var i := 0;
      while i < |creatingRuntimes.value|
        invariant creatingRuntimes.Some?
        invariant CreationOk(View())
        invariant Fill(View(), i, ready) == PollPool(start, ready)
        decreases |creatingRuntimes.value| - i
      {
        var c := creatingRuntimes.value;
        match ready(c[i]) {
          case Pending =>
          case Created =>
            CompleteKeepsCreation(View(), i, true);
            ghost var before := View();
            creatingRuntimes := Some(c[..i] + c[i + 1..]);
            runtimes := runtimes[i := Some(c[i])];
            placed := placed + [Placed(i, c[i])];
            assert View() == Complete(before, i, true);
          case Failed =>
            CompleteKeepsCreation(View(), i, false);
            ghost var before := View();
            creatingRuntimes := Some(c[..i] + c[i + 1..]);
            assert View() == Complete(before, i, false);
        }
        i := i + 1;
      }
    }
  }
}
