/** Small notions shared by every component: optional values, listings of the
    keys of a hash map, and cardinalities of images. */
module Base {

  datatype Option<+T> = None | Some(value: T)

  ghost predicate Distinct<T>(s: seq<T>) {
    forall i, j :: 0 <= i < j < |s| ==> s[i] != s[j]
  }

  /** `order` lists every element of `keys` exactly once: one of the orders in
      which a hash map may hand out its keys. */
  ghost predicate Enumerates<T>(order: seq<T>, keys: set<T>) {
    && Distinct(order)
    && (forall k :: k in order ==> k in keys)
    && (forall k :: k in keys ==> k in order)
  }

  /** The sequence without the element at `i`. */
  function DropAt<T>(s: seq<T>, i: nat): seq<T>
    requires i < |s|
  {
    s[..i] + s[i + 1..]
  }

  function ToSet<T>(s: seq<T>): set<T> {
    set x | x in s
  }

  /** The numbers below `n`. */
  function Below(n: nat): set<nat> {
    if n == 0 then {} else Below(n - 1) + {n - 1}
  }

  lemma {:induction false} BelowIs(n: nat)
    ensures |Below(n)| == n
    ensures forall u: nat :: u in Below(n) <==> u < n
  {
    if n > 0 { BelowIs(n - 1); }
  }

  lemma {:induction false} SetOfSeqSize<T>(s: seq<T>)
    ensures |ToSet(s)| <= |s|
    ensures Distinct(s) ==> |ToSet(s)| == |s|
  {
    if s == [] {
      assert ToSet(s) == {};
    } else {
      var init, last := s[..|s| - 1], s[|s| - 1];
      SetOfSeqSize(init);
      assert s == init + [last];
      assert ToSet(s) == ToSet(init) + {last};
      if Distinct(s) {
        assert forall i :: 0 <= i < |init| ==> init[i] == s[i];
        assert last !in init;
      }
    }
  }

  /** An injective image of a finite set has the size of the set. */
  lemma {:induction false} ImageSize<A, B>(xs: set<A>, f: map<A, B>, ys: set<B>)
    requires xs <= f.Keys
    requires forall a, b :: a in xs && b in xs && f[a] == f[b] ==> a == b
    requires forall y :: y in ys <==> exists a :: a in xs && f[a] == y
    ensures |ys| == |xs|
    decreases |xs|
  {
    if xs == {} {
      assert ys == {};
    } else {
      var a :| a in xs;
      assert f[a] in ys;
      ImageSize(xs - {a}, f, ys - {f[a]});
    }
  }

  /** One step of a queue: what left and what remains is what was there and what
      came; then the same holds of everything that ever left and came. */
  lemma QueueShift<T>(gone: seq<T>, queue: seq<T>, out: seq<T>, left: seq<T>, more: seq<T>)
    requires out + left == queue + more
    ensures (gone + out) + left == (gone + queue) + more
  {
    assert (gone + out) + left == gone + (out + left);
    assert (gone + queue) + more == gone + (queue + more);
  }
}
