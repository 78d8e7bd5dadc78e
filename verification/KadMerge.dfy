/** Merging two lists of keys by distance to a target (`kad_merge` in
    particle-builtins/src/builtins.rs).

    A key is a byte string with its 256-bit hash as a number; keys are equal when
    their hashes are. Hashing and base58 are parameters. */
module KadMerge {
  import opened Base

  type Bytes = seq<bv8>

  datatype Key = Key(preimage: Bytes, bytes: nat)

  datatype Result = Ok(keys: seq<string>) | DecodeBase58

  /** The number of keys returned when no count is given. */
  const K_VALUE: nat := 20

  // ---------------------------------------------------------------- the metric

  function Xor(a: nat, b: nat): nat {
    if a == 0 && b == 0 then 0
    else 2 * Xor(a / 2, b / 2) + (if a % 2 == b % 2 then 0 else 1)
  }

  predicate Bit(n: nat, i: nat) {
    if i == 0 then n % 2 == 1 else Bit(n / 2, i - 1)
  }

  /** A bit of the distance is set where the two hashes differ. */
  lemma {:induction false} XorBits(a: nat, b: nat, i: nat)
    ensures Bit(Xor(a, b), i) <==> Bit(a, i) != Bit(b, i)
  {
    var x := Xor(a, b);
    assert x / 2 == Xor(a / 2, b / 2) && (x % 2 == 1 <==> a % 2 != b % 2);
    if i > 0 { XorBits(a / 2, b / 2, i - 1); }
  }

  lemma {:induction false} XorInjective(t: nat, a: nat, b: nat)
    requires Xor(t, a) == Xor(t, b)
    ensures a == b
    decreases a + b
  {
    if a + b > 0 {
      var x, y := Xor(t / 2, a / 2), Xor(t / 2, b / 2);
      assert Xor(t, a) == 2 * x + (if t % 2 == a % 2 then 0 else 1);
      assert Xor(t, b) == 2 * y + (if t % 2 == b % 2 then 0 else 1);
      assert x == y && a % 2 == b % 2;
      XorInjective(t / 2, a / 2, b / 2);
    }
  }

  /** The distance of a hash to some fixed target. */
  type Metric = nat -> nat

  function DistanceTo(target: nat): Metric {
    bytes => Xor(target, bytes)
  }

  /** Different hashes have different distances, which is what brings duplicates
      together when keys are sorted by distance. */
  ghost predicate Injective(d: Metric) {
    forall a, b :: Separates(d, a, b)
  }

  ghost predicate Separates(d: Metric, a: nat, b: nat) {
    d(a) == d(b) ==> a == b
  }

  lemma DistanceIsInjective(target: nat)
    ensures Injective(DistanceTo(target))
  {
    forall a, b ensures Separates(DistanceTo(target), a, b) {
      if DistanceTo(target)(a) == DistanceTo(target)(b) { XorInjective(target, a, b); }
    }
  }

  // ---------------------------------------------------------------- sort, dedup, take

  function Insert(d: Metric, sorted: seq<Key>, k: Key): seq<Key> {
    if sorted == [] || d(sorted[|sorted| - 1].bytes) <= d(k.bytes) then sorted + [k]
    else Insert(d, sorted[..|sorted| - 1], k) + [sorted[|sorted| - 1]]
  }

  /** The stable sort by distance. */
  function Sort(d: Metric, keys: seq<Key>): seq<Key> {
    if keys == [] then [] else Insert(d, Sort(d, keys[..|keys| - 1]), keys[|keys| - 1])
  }

  /** Drops every key that equals the last one kept. */
  function Dedup(keys: seq<Key>): seq<Key> {
    if keys == [] then []
    else
      var kept, last := Dedup(keys[..|keys| - 1]), keys[|keys| - 1];
      if kept != [] && kept[|kept| - 1].bytes == last.bytes then kept else kept + [last]
  }

  function Take(keys: seq<Key>, count: nat): seq<Key> {
    if count <= |keys| then keys[..count] else keys
  }

  function Merge(d: Metric, keys: seq<Key>, count: nat): seq<Key> {
    Take(Dedup(Sort(d, keys)), count)
  }

  // ---------------------------------------------------------------- properties

  ghost predicate Sorted(d: Metric, keys: seq<Key>) {
    forall i, j :: 0 <= i < j < |keys| ==> d(keys[i].bytes) <= d(keys[j].bytes)
  }

  ghost predicate Increasing(d: Metric, keys: seq<Key>) {
    forall i, j :: 0 <= i < j < |keys| ==> d(keys[i].bytes) < d(keys[j].bytes)
  }

  /** The keys with a given hash, in order. */
  function Class(keys: seq<Key>, bytes: nat): seq<Key> {
    if keys == [] then []
    else Class(keys[..|keys| - 1], bytes) + if keys[|keys| - 1].bytes == bytes then [keys[|keys| - 1]] else []
  }

  lemma ClassOneMore(keys: seq<Key>, k: Key, bytes: nat)
    ensures Class(keys + [k], bytes) == Class(keys, bytes) + if k.bytes == bytes then [k] else []
  {
    assert (keys + [k])[..|keys|] == keys;
  }

  lemma {:induction false} ClassHas(keys: seq<Key>, bytes: nat)
    ensures Class(keys, bytes) != [] <==> exists k :: k in keys && k.bytes == bytes
    ensures forall k :: k in Class(keys, bytes) ==> k in keys && k.bytes == bytes
  {
    if keys != [] {
      ClassHas(keys[..|keys| - 1], bytes);
      assert keys == keys[..|keys| - 1] + [keys[|keys| - 1]];
    }
  }

  lemma {:induction false} InsertSorted(d: Metric, sorted: seq<Key>, k: Key)
    requires Sorted(d, sorted)
    ensures Sorted(d, Insert(d, sorted, k))
    ensures forall x :: x in Insert(d, sorted, k) ==> x in sorted || x == k
  {
    if sorted != [] && d(sorted[|sorted| - 1].bytes) > d(k.bytes) {
      var init, last := sorted[..|sorted| - 1], sorted[|sorted| - 1];
      InsertSorted(d, init, k);
      var r := Insert(d, init, k);
      forall i | 0 <= i < |r| ensures d(r[i].bytes) <= d(last.bytes) {
        assert r[i] in r;
      }
    }
  }

  /** Inserting puts a key behind all keys with its hash and leaves the others
      as they are. */
  lemma {:induction false} InsertClass(d: Metric, sorted: seq<Key>, k: Key, bytes: nat)
    ensures Class(Insert(d, sorted, k), bytes) == Class(sorted, bytes) + if k.bytes == bytes then [k] else []
  {
    if sorted == [] || d(sorted[|sorted| - 1].bytes) <= d(k.bytes) {
      ClassOneMore(sorted, k, bytes);
    } else {
      var init, last := sorted[..|sorted| - 1], sorted[|sorted| - 1];
      InsertClass(d, init, k, bytes);
      ClassOneMore(Insert(d, init, k), last, bytes);
    }
  }

  /** Sorting keeps the keys of each hash in their order. */
  lemma {:induction false} SortIs(d: Metric, keys: seq<Key>, bytes: nat)
    ensures Sorted(d, Sort(d, keys))
    ensures Class(Sort(d, keys), bytes) == Class(keys, bytes)
  {
    if keys != [] {
      var init, last := keys[..|keys| - 1], keys[|keys| - 1];
      SortIs(d, init, bytes);
      InsertSorted(d, Sort(d, init), last);
      InsertClass(d, Sort(d, init), last, bytes);
    }
  }

  lemma {:induction false} DedupIncreasing(d: Metric, keys: seq<Key>)
    requires Injective(d) && Sorted(d, keys)
    ensures Increasing(d, Dedup(keys))
    ensures keys != [] ==> Dedup(keys) != [] && Dedup(keys)[|Dedup(keys)| - 1].bytes == keys[|keys| - 1].bytes
  {
    if keys != [] {
      var init, last := keys[..|keys| - 1], keys[|keys| - 1];
      DedupIncreasing(d, init);
      if init != [] {
        var top := Dedup(init)[|Dedup(init)| - 1];
        assert Separates(d, top.bytes, last.bytes);
        assert top.bytes == init[|init| - 1].bytes;
      }
    }
  }

  function First(keys: seq<Key>): seq<Key> {
    if keys == [] then [] else [keys[0]]
  }

  /** Dedup keeps exactly the first key of each hash. */
  lemma {:induction false} DedupFirst(d: Metric, keys: seq<Key>, bytes: nat)
    requires Injective(d) && Sorted(d, keys)
    ensures Class(Dedup(keys), bytes) == First(Class(keys, bytes))
  {
    if keys != [] {
      var init, last := keys[..|keys| - 1], keys[|keys| - 1];
      DedupFirst(d, init, bytes);
      DedupIncreasing(d, init);
      ClassOneMore(Dedup(init), last, bytes);
      FirstOneMore(d, keys, bytes);
    }
  }

  /** One more key is the first of its class unless it equals its predecessor. */
  lemma FirstOneMore(d: Metric, keys: seq<Key>, bytes: nat)
    requires Injective(d) && Sorted(d, keys) && keys != []
    ensures var n := |keys| - 1;
            First(Class(keys, bytes)) == First(Class(keys[..n], bytes))
              + if keys[n].bytes == bytes && (n == 0 || keys[n - 1].bytes != bytes) then [keys[n]] else []
  {
    var n := |keys| - 1;
    if n > 0 && keys[n].bytes == bytes {
      if keys[n - 1].bytes == bytes {
        assert keys[..n][|keys[..n]| - 1] == keys[n - 1];
        assert Class(keys[..n], bytes) != [];
      } else {
        NoneBehind(d, keys, n);
      }
    }
  }

  /** A key at the end of a sorted list that differs from its predecessor is the
      first with its hash. */
  lemma NoneBehind(d: Metric, keys: seq<Key>, n: nat)
    requires Injective(d) && Sorted(d, keys) && 0 < n < |keys| && keys[n - 1].bytes != keys[n].bytes
    ensures Class(keys[..n], keys[n].bytes) == []
  {
    ClassHas(keys[..n], keys[n].bytes);
    assert Separates(d, keys[n - 1].bytes, keys[n].bytes);
    assert forall i :: 0 <= i < n ==> d(keys[i].bytes) <= d(keys[n - 1].bytes);
  }

  function Hashes(keys: seq<Key>): set<nat> {
    set k | k in keys :: k.bytes
  }

  lemma {:induction false} IncreasingSize(d: Metric, keys: seq<Key>)
    requires Increasing(d, keys)
    ensures |Hashes(keys)| == |keys|
  {
    if keys != [] {
      var init, last := keys[..|keys| - 1], keys[|keys| - 1];
      IncreasingSize(d, init);
      assert keys == init + [last];
      assert Hashes(keys) == Hashes(init) + {last.bytes};
      assert forall k :: k in init ==> d(k.bytes) < d(last.bytes);
      assert last.bytes !in Hashes(init);
    }
  }

  /** What the merge promises: the nearest distinct keys, nearest first, each
      represented by its first occurrence; everything left out is farther. */
  ghost predicate Nearest(d: Metric, keys: seq<Key>, count: nat, r: seq<Key>) {
    && |r| == (if count <= |Hashes(keys)| then count else |Hashes(keys)|)
    && Increasing(d, r)
    && (forall k :: k in r ==> Class(keys, k.bytes) != [] && k == Class(keys, k.bytes)[0])
    && (forall k, x :: k in keys && k.bytes !in Hashes(r) && x in r ==> d(x.bytes) < d(k.bytes))
  }

  lemma DedupSortClass(d: Metric, keys: seq<Key>, bytes: nat)
    requires Injective(d)
    ensures Class(Dedup(Sort(d, keys)), bytes) == First(Class(keys, bytes))
  {
    SortIs(d, keys, bytes);
    DedupFirst(d, Sort(d, keys), bytes);
  }

  lemma HashesHas(keys: seq<Key>, bytes: nat)
    ensures bytes in Hashes(keys) <==> Class(keys, bytes) != []
  {
    ClassHas(keys, bytes);
  }

  lemma DedupSortIs(d: Metric, keys: seq<Key>)
    requires Injective(d)
    ensures Increasing(d, Dedup(Sort(d, keys)))
    ensures Hashes(Dedup(Sort(d, keys))) == Hashes(keys)
  {
    var u := Dedup(Sort(d, keys));
    SortIs(d, keys, 0);
    DedupIncreasing(d, Sort(d, keys));
    forall b ensures b in Hashes(u) <==> b in Hashes(keys) {
      HashesHas(u, b);
      HashesHas(keys, b);
      DedupSortClass(d, keys, b);
    }
  }

  /** A key that is kept is the first of its class. */
  lemma KeptIsFirst(d: Metric, keys: seq<Key>, k: Key)
    requires Injective(d) && k in Dedup(Sort(d, keys))
    ensures Class(keys, k.bytes) != [] && k == Class(keys, k.bytes)[0]
  {
    InItsClass(Dedup(Sort(d, keys)), k);
    DedupSortClass(d, keys, k.bytes);
  }

  lemma {:induction false} InItsClass(keys: seq<Key>, k: Key)
    requires k in keys
    ensures k in Class(keys, k.bytes)
  {
    var init, last := keys[..|keys| - 1], keys[|keys| - 1];
    assert keys == init + [last];
    if k != last { InItsClass(init, k); }
  }

  /** A key whose hash is not among the first keys is behind them. */
  lemma OmittedIsFarther(d: Metric, u: seq<Key>, n: nat, bytes: nat, i: nat)
    requires Increasing(d, u) && i < n <= |u| && bytes in Hashes(u) && bytes !in Hashes(u[..n])
    ensures d(u[i].bytes) < d(bytes)
  {
    var j :| 0 <= j < |u| && u[j].bytes == bytes;
    assert forall m :: 0 <= m < n ==> u[m] in u[..n];
  }

  /** The merge returns exactly the nearest distinct keys. */
  lemma MergeIsNearest(d: Metric, keys: seq<Key>, count: nat)
    requires Injective(d)
    ensures Nearest(d, keys, count, Merge(d, keys, count))
  {
    DedupSortIs(d, keys);
    var u, r := Dedup(Sort(d, keys)), Merge(d, keys, count);
    IncreasingSize(d, u);
    forall k | k in r ensures Class(keys, k.bytes) != [] && k == Class(keys, k.bytes)[0] { KeptIsFirst(d, keys, k); }
    forall k, x | k in keys && k.bytes !in Hashes(r) && x in r ensures d(x.bytes) < d(k.bytes) {
      TakenIsNearer(d, u, count, k.bytes, x);
    }
  }

  lemma TakenIsNearer(d: Metric, u: seq<Key>, count: nat, bytes: nat, x: Key)
    requires Increasing(d, u) && bytes in Hashes(u) && bytes !in Hashes(Take(u, count)) && x in Take(u, count)
    ensures d(x.bytes) < d(bytes)
  {
    var r := Take(u, count);
    var i :| 0 <= i < |r| && r[i] == x;
    assert r == u[..|r|];
    OmittedIsFarther(d, u, |r|, bytes, i);
  }

  /** All distinct keys are returned if and only if there are no more than `count`. */
  lemma AllReturnedIff(d: Metric, keys: seq<Key>, count: nat, r: seq<Key>)
    requires Nearest(d, keys, count, r)
    ensures Hashes(r) == Hashes(keys) <==> |Hashes(keys)| <= count
  {
    IncreasingSize(d, r);
    forall b | b in Hashes(r) ensures b in Hashes(keys) {
      var k :| k in r && k.bytes == b;
      HashesHas(keys, b);
    }
    if |Hashes(keys)| <= count { SameSize(Hashes(r), Hashes(keys)); }
  }

  lemma SameSize(a: set<nat>, b: set<nat>)
    requires a <= b && |a| == |b|
    ensures a == b
  {
    assert b == a + (b - a);
    assert |b - a| == 0;
  }

  /** Nothing else meets that promise. */
  lemma NearestIsUnique(d: Metric, keys: seq<Key>, count: nat, a: seq<Key>, b: seq<Key>)
    requires Injective(d) && Nearest(d, keys, count, a) && Nearest(d, keys, count, b)
    ensures a == b
  {
    forall i | 0 <= i < |a| ensures a[i] == b[i] { NearestAgree(d, keys, count, a, b, i); }
  }

  lemma {:induction false} NearestAgree(d: Metric, keys: seq<Key>, count: nat, a: seq<Key>, b: seq<Key>, i: nat)
    requires Injective(d) && Nearest(d, keys, count, a) && Nearest(d, keys, count, b) && i < |a|
    ensures a[i] == b[i]
  {
    forall m | 0 <= m < i ensures a[m] == b[m] { NearestAgree(d, keys, count, a, b, m); }
    NotNearer(d, keys, count, a, b, i);
    NotNearer(d, keys, count, b, a, i);
    assert Separates(d, a[i].bytes, b[i].bytes);
    assert a[i] in a && b[i] in b;
  }

  /** Where two answers first differ, neither key is nearer. */
  lemma NotNearer(d: Metric, keys: seq<Key>, count: nat, a: seq<Key>, b: seq<Key>, i: nat)
    requires Nearest(d, keys, count, a) && Nearest(d, keys, count, b) && i < |a| == |b|
    requires forall m :: 0 <= m < i ==> a[m] == b[m]
    ensures d(a[i].bytes) >= d(b[i].bytes)
  {
    var x := a[i];
    assert x in a;
    if x.bytes in Hashes(b) {
      var z :| z in b && z.bytes == x.bytes;
      var j :| 0 <= j < |b| && b[j] == z;
      assert j >= i;
    } else {
      ClassHas(keys, x.bytes);
      assert x in keys && b[i] in b;
    }
  }

  // ---------------------------------------------------------------- the operation

  function Keys(hash: Bytes -> nat, decode: string -> Option<Bytes>, texts: seq<string>): Option<seq<Key>> {
    if texts == [] then Some([])
    else
      var init, last := Keys(hash, decode, texts[..|texts| - 1]), decode(texts[|texts| - 1]);
      if init.None? || last.None? then None else Some(init.value + [Key(last.value, hash(last.value))])
  }

  function Encoded(encode: Bytes -> string, keys: seq<Key>): seq<string> {
    if keys == [] then [] else Encoded(encode, keys[..|keys| - 1]) + [encode(keys[|keys| - 1].preimage)]
  }

  lemma {:induction false} KeysNone(hash: Bytes -> nat, decode: string -> Option<Bytes>, texts: seq<string>)
    ensures Keys(hash, decode, texts).None? <==> exists t :: t in texts && decode(t).None?
    ensures Keys(hash, decode, texts).Some? ==> |Keys(hash, decode, texts).value| == |texts|
  {
    if texts != [] {
      KeysNone(hash, decode, texts[..|texts| - 1]);
      assert texts == texts[..|texts| - 1] + [texts[|texts| - 1]];
    }
  }

  lemma {:induction false} EncodedAre(encode: Bytes -> string, keys: seq<Key>)
    ensures |Encoded(encode, keys)| == |keys|
    ensures forall i :: 0 <= i < |keys| ==> Encoded(encode, keys)[i] == encode(keys[i].preimage)
  {
    if keys != [] { EncodedAre(encode, keys[..|keys| - 1]); }
  }

  /** The keys are those of the texts, in order, each with the hash of its bytes. */
  lemma {:induction false} KeysAre(hash: Bytes -> nat, decode: string -> Option<Bytes>, texts: seq<string>)
    requires Keys(hash, decode, texts).Some?
    ensures |Keys(hash, decode, texts).value| == |texts|
    ensures forall i :: 0 <= i < |texts| ==>
              decode(texts[i]).Some? &&
              Keys(hash, decode, texts).value[i] == Key(decode(texts[i]).value, hash(decode(texts[i]).value))
  {
    if texts != [] { KeysAre(hash, decode, texts[..|texts| - 1]); }
  }

  /** The texts of the given keys, in order. */
  ghost predicate TextsOf(encode: Bytes -> string, keys: seq<Key>, texts: seq<string>) {
    |texts| == |keys| && forall i :: 0 <= i < |keys| ==> texts[i] == encode(keys[i].preimage)
  }

  /** The keys of the given texts, in order, each with the hash of its bytes. */
  ghost predicate KeysOf(hash: Bytes -> nat, decode: string -> Option<Bytes>, texts: seq<string>, keys: seq<Key>) {
    && |keys| == |texts|
    && forall i :: 0 <= i < |texts| ==>
         decode(texts[i]).Some? && keys[i] == Key(decode(texts[i]).value, hash(decode(texts[i]).value))
  }

  // ---------------------------------------------------------------- more keys than the default

  /** Whatever the texts: with more than 20 distinct keys and no count, 20 come
      back and some key does not. */
  lemma SomeKeyIsMissing(hash: Bytes -> nat, decode: string -> Option<Bytes>, texts: seq<string>, target: nat)
    requires Keys(hash, decode, texts).Some? && |Hashes(Keys(hash, decode, texts).value)| > K_VALUE
    ensures var keys := Keys(hash, decode, texts).value;
            var r := Merge(DistanceTo(target), keys, K_VALUE);
            |r| == K_VALUE && Hashes(r) != Hashes(keys)
  {
    var d, keys := DistanceTo(target), Keys(hash, decode, texts).value;
    DistanceIsInjective(target);
    MergeIsNearest(d, keys, K_VALUE);
    AllReturnedIff(d, keys, K_VALUE, Merge(d, keys, K_VALUE));
  }

  /** A text of `n` characters. */
  function Text(n: nat): string {
    if n == 0 then "" else Text(n - 1) + "1"
  }

  function Zeros(n: nat): Bytes {
    if n == 0 then [] else Zeros(n - 1) + [0]
  }

  /** On these texts base58 is one zero byte per character. */
  function OneByteEach(text: string): Option<Bytes> {
    Some(Zeros(|text|))
  }

  function Length(b: Bytes): nat {
    |b|
  }

  /** The texts with fewer than `n` characters. */
  function Texts(n: nat): seq<string> {
    if n == 0 then [] else Texts(n - 1) + [Text(n - 1)]
  }

  lemma {:induction false} TextSize(n: nat)
    ensures |Text(n)| == n && |Zeros(n)| == n
  {
    if n > 0 { TextSize(n - 1); }
  }

  lemma {:induction false} TextsAreKeys(n: nat)
    ensures Keys(Length, OneByteEach, Texts(n)).Some?
    ensures Hashes(Keys(Length, OneByteEach, Texts(n)).value) == Below(n)
  {
    if n > 0 {
      TextsAreKeys(n - 1);
      TextSize(n - 1);
      var texts := Texts(n);
      assert texts[..|texts| - 1] == Texts(n - 1);
      var before, k := Keys(Length, OneByteEach, Texts(n - 1)).value, Key(Zeros(n - 1), n - 1);
      assert Keys(Length, OneByteEach, texts) == Some(before + [k]);
      assert Hashes(before + [k]) == Hashes(before) + {n - 1};
    }
  }

  /** Twenty-one texts that decode to distinct keys, of which a call without a
      count returns twenty, whatever the target. */
  lemma TwentyOneKeys(target: nat)
    ensures var keys := Keys(Length, OneByteEach, Texts(21));
            && keys.Some? && |Hashes(keys.value)| == 21
            && |Merge(DistanceTo(target), keys.value, K_VALUE)| == 20
            && Hashes(Merge(DistanceTo(target), keys.value, K_VALUE)) != Hashes(keys.value)
  {
    TextsAreKeys(21);
    BelowIs(21);
    SomeKeyIsMissing(Length, OneByteEach, Texts(21), target);
  }

  // ---------------------------------------------------------------- the methods

  /** Decodes until the first text that is not base58. */
  method Decode(hash: Bytes -> nat, decode: string -> Option<Bytes>, texts: seq<string>) returns (r: Option<seq<Key>>)
    ensures r == Keys(hash, decode, texts)
  {
    var keys := [];
    for i := 0 to |texts|
      invariant Keys(hash, decode, texts[..i]) == Some(keys)
    {
      assert texts[..i + 1][..i] == texts[..i];
      var d := decode(texts[i]);
      if d.None? {
        KeysNone(hash, decode, texts);
        assert texts[i] in texts;
        return None;
      }
      keys := keys + [Key(d.value, hash(d.value))];
    }
    assert texts[..|texts|] == texts;
    return Some(keys);
  }

  method SortByDistance(d: Metric, keys: seq<Key>) returns (sorted: seq<Key>)
    ensures sorted == Sort(d, keys)
  {
    sorted := [];
    for i := 0 to |keys|
      invariant sorted == Sort(d, keys[..i])
    {
      assert keys[..i + 1][..i] == keys[..i];
      sorted := InsertByDistance(d, sorted, keys[i]);
    }
    assert keys[..|keys|] == keys;
  }

  /** A key goes in front of a tail of farther keys. */
  lemma {:induction false} InsertBefore(d: Metric, sorted: seq<Key>, k: Key, j: nat)
    requires j <= |sorted| && (forall m :: j <= m < |sorted| ==> d(sorted[m].bytes) > d(k.bytes))
    requires j == 0 || d(sorted[j - 1].bytes) <= d(k.bytes)
    ensures Insert(d, sorted, k) == sorted[..j] + [k] + sorted[j..]
  {
    if j == |sorted| {
      assert sorted[..j] == sorted;
    } else {
      var init, last := sorted[..|sorted| - 1], sorted[|sorted| - 1];
      InsertBefore(d, init, k, j);
      assert Insert(d, sorted, k) == init[..j] + [k] + init[j..] + [last];
      assert sorted[..j] == init[..j];
      assert sorted[j..] == init[j..] + [last];
    }
  }

  method InsertByDistance(d: Metric, sorted: seq<Key>, k: Key) returns (r: seq<Key>)
    ensures r == Insert(d, sorted, k)
  {
    var j := |sorted|;
    while j > 0 && d(sorted[j - 1].bytes) > d(k.bytes)
      invariant 0 <= j <= |sorted|
      invariant forall m :: j <= m < |sorted| ==> d(sorted[m].bytes) > d(k.bytes)
    {
      j := j - 1;
    }
    r := sorted[..j] + [k] + sorted[j..];
    InsertBefore(d, sorted, k, j);
  }

  method DedupKeys(keys: seq<Key>) returns (kept: seq<Key>)
    ensures kept == Dedup(keys)
  {
    kept := [];
    for i := 0 to |keys|
      invariant kept == Dedup(keys[..i])
    {
      assert keys[..i + 1][..i] == keys[..i];
      if kept == [] || kept[|kept| - 1].bytes != keys[i].bytes {
        kept := kept + [keys[i]];
      }
    }
    assert keys[..|keys|] == keys;
  }

  /** Fails exactly when the target or a key is not base58; otherwise returns
      the nearest distinct keys, `count` of them or 20 when no count is given, so
      that without a count all distinct keys come back exactly when they are at
      most 20. */
  method Run(hash: Bytes -> nat, decode: string -> Option<Bytes>, encode: Bytes -> string,
             target: string, left: seq<string>, right: seq<string>, count: Option<nat>) returns (r: Result)
    ensures r.DecodeBase58? <==> decode(target).None? || exists t :: t in left + right && decode(t).None?
    ensures r.Ok? ==> exists keys, picked ::
              && KeysOf(hash, decode, left + right, keys)
              && Nearest(DistanceTo(hash(decode(target).value)), keys,
                         if count.Some? then count.value else K_VALUE, picked)
              && TextsOf(encode, picked, r.keys)
    ensures r.Ok? ==> Keys(hash, decode, left + right).Some?
    ensures r.Ok? && count.None? ==>
              var all := |Hashes(Keys(hash, decode, left + right).value)|;
              |r.keys| == all <==> all <= K_VALUE
  {
    KeysNone(hash, decode, left + right);
    var limit := if count.Some? then count.value else K_VALUE;
    var t := decode(target);
    if t.None? {
      return DecodeBase58;
    }
    var keys := Decode(hash, decode, left + right);
    if keys.None? {
      return DecodeBase58;
    }
    var picked := Pick(hash(t.value), keys.value, limit);
    var texts := EncodeAll(encode, picked);
    EncodedAre(encode, picked);
    KeysAre(hash, decode, left + right);
    assert KeysOf(hash, decode, left + right, keys.value) && TextsOf(encode, picked, texts);
    return Ok(texts);
  }

  method Pick(target: nat, keys: seq<Key>, limit: nat) returns (picked: seq<Key>)
    ensures Nearest(DistanceTo(target), keys, limit, picked)
  {
    var sorted := SortByDistance(DistanceTo(target), keys);
    var kept := DedupKeys(sorted);
    picked := Take(kept, limit);
    DistanceIsInjective(target);
    MergeIsNearest(DistanceTo(target), keys, limit);
  }

  method EncodeAll(encode: Bytes -> string, keys: seq<Key>) returns (texts: seq<string>)
    ensures texts == Encoded(encode, keys)
  {
    texts := [];
    for i := 0 to |keys|
      invariant texts == Encoded(encode, keys[..i])
    {
      assert keys[..i + 1][..i] == keys[..i];
      texts := texts + [encode(keys[i].preimage)];
    }
    assert keys[..|keys|] == keys;
  }
}
