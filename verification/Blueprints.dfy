/** Identity of service blueprints: the byte stream that is hashed for a facade
    module and its dependencies (crates/service-modules/src/modules/dependencies.rs),
    the module repository that adds blueprints (particle-modules/src/modules.rs)
    and the deployer that predicts their ids (crates/builtins-deployer/src/utils.rs).

    The hash function is a parameter; an id is the hash itself. */
module Blueprints {
  type Byte = n: nat | n < 256

  const HASH_LENGTH: nat := 32

  type Hash = h: seq<Byte> | |h| == HASH_LENGTH witness seq(HASH_LENGTH, _ => 0)

  type Hasher = seq<Byte> -> Hash

  // ---------------------------------------------------------------- the order of hashes

  /** Byte-wise lexicographic comparison. */
  predicate Leq(a: seq<Byte>, b: seq<Byte>) {
    a == [] || (b != [] && (a[0] < b[0] || (a[0] == b[0] && Leq(a[1..], b[1..]))))
  }

  lemma {:induction false} LeqTotal(a: seq<Byte>, b: seq<Byte>)
    ensures Leq(a, b) || Leq(b, a)
  {
    if a != [] && b != [] { LeqTotal(a[1..], b[1..]); }
  }

  lemma {:induction false} LeqAntisymmetric(a: seq<Byte>, b: seq<Byte>)
    requires Leq(a, b) && Leq(b, a)
    ensures a == b
  {
    if a != [] && b != [] {
      LeqAntisymmetric(a[1..], b[1..]);
      assert a == [a[0]] + a[1..] && b == [b[0]] + b[1..];
    }
  }

  lemma {:induction false} LeqTransitive(a: seq<Byte>, b: seq<Byte>, c: seq<Byte>)
    requires Leq(a, b) && Leq(b, c)
    ensures Leq(a, c)
  {
    if a != [] && a[0] == b[0] == c[0] { LeqTransitive(a[1..], b[1..], c[1..]); }
  }

  /** The order is decided by the first byte that differs. */
  lemma {:induction false} FirstDifferenceDecides(a: seq<Byte>, b: seq<Byte>, i: nat)
    requires i < |a| && i < |b| && a[..i] == b[..i] && a[i] != b[i]
    ensures Leq(a, b) <==> a[i] < b[i]
  {
    if i > 0 {
      assert a[0] == a[..i][0] && b[0] == b[..i][0];
      assert a[1..][..i - 1] == a[..i][1..] && b[1..][..i - 1] == b[..i][1..];
      FirstDifferenceDecides(a[1..], b[1..], i - 1);
    }
  }

  // ---------------------------------------------------------------- sorting

  function Insert(sorted: seq<Hash>, h: Hash): seq<Hash> {
    if sorted == [] || Leq(sorted[|sorted| - 1], h) then sorted + [h]
    else Insert(sorted[..|sorted| - 1], h) + [sorted[|sorted| - 1]]
  }

  function Sort(hashes: seq<Hash>): seq<Hash> {
    if hashes == [] then [] else Insert(Sort(hashes[..|hashes| - 1]), hashes[|hashes| - 1])
  }

  ghost predicate Sorted(hashes: seq<Hash>) {
    forall i, j :: 0 <= i < j < |hashes| ==> Leq(hashes[i], hashes[j])
  }

  /** How often a hash occurs. */
  function Count(hashes: seq<Hash>, h: Hash): nat {
    if hashes == [] then 0 else Count(hashes[..|hashes| - 1], h) + if hashes[|hashes| - 1] == h then 1 else 0
  }

  /** The same hashes with the same multiplicity, in any order. */
  ghost predicate SameHashes(a: seq<Hash>, b: seq<Hash>) {
    forall h: Hash :: Count(a, h) == Count(b, h)
  }

  lemma CountOneMore(hashes: seq<Hash>, x: Hash, h: Hash)
    ensures Count(hashes + [x], h) == Count(hashes, h) + if x == h then 1 else 0
  {
    assert (hashes + [x])[..|hashes|] == hashes;
  }

  lemma {:induction false} CountHas(hashes: seq<Hash>, h: Hash)
    ensures Count(hashes, h) > 0 <==> h in hashes
  {
    if hashes != [] {
      CountHas(hashes[..|hashes| - 1], h);
      assert hashes == hashes[..|hashes| - 1] + [hashes[|hashes| - 1]];
    }
  }

  lemma {:induction false} InsertCounts(sorted: seq<Hash>, x: Hash, h: Hash)
    ensures Count(Insert(sorted, x), h) == Count(sorted, h) + if x == h then 1 else 0
  {
    if sorted == [] || Leq(sorted[|sorted| - 1], x) {
      CountOneMore(sorted, x, h);
    } else {
      var init, last := sorted[..|sorted| - 1], sorted[|sorted| - 1];
      InsertCounts(init, x, h);
      CountOneMore(Insert(init, x), last, h);
    }
  }

  lemma {:induction false} InsertSorted(sorted: seq<Hash>, x: Hash)
    requires Sorted(sorted)
    ensures Sorted(Insert(sorted, x))
    ensures forall h :: h in Insert(sorted, x) ==> h in sorted || h == x
  {
    if sorted == [] {
    } else if Leq(sorted[|sorted| - 1], x) {
      forall i | 0 <= i < |sorted| ensures Leq(sorted[i], x) {
        if i < |sorted| - 1 { LeqTransitive(sorted[i], sorted[|sorted| - 1], x); }
      }
    } else {
      var init, last := sorted[..|sorted| - 1], sorted[|sorted| - 1];
      InsertSorted(init, x);
      LeqTotal(last, x);
      var r := Insert(init, x);
      forall i | 0 <= i < |r| ensures Leq(r[i], last) { assert r[i] in r; }
    }
  }

  lemma {:induction false} SortSorts(hashes: seq<Hash>)
    ensures Sorted(Sort(hashes))
  {
    if hashes != [] {
      SortSorts(hashes[..|hashes| - 1]);
      InsertSorted(Sort(hashes[..|hashes| - 1]), hashes[|hashes| - 1]);
    }
  }

  lemma {:induction false} SortCounts(hashes: seq<Hash>, h: Hash)
    ensures Count(Sort(hashes), h) == Count(hashes, h)
  {
    if hashes != [] {
      SortCounts(hashes[..|hashes| - 1], h);
      InsertCounts(Sort(hashes[..|hashes| - 1]), hashes[|hashes| - 1], h);
    }
  }

  /** The last hash of a sorted list is its largest. */
  lemma LastIsLargest(s: seq<Hash>, h: Hash)
    requires Sorted(s) && h in s
    ensures Leq(h, s[|s| - 1])
  {
    LeqTotal(h, h);
  }

  lemma SameEmptiness(a: seq<Hash>, b: seq<Hash>)
    requires SameHashes(a, b)
    ensures a == [] <==> b == []
  {
    assert (a != [] ==> a[0] in a) && (b != [] ==> b[0] in b);
    forall h: Hash ensures h in a <==> h in b {
      CountHas(a, h);
      CountHas(b, h);
    }
  }

  /** A sorted list is determined by what it contains. */
  lemma {:induction false} SortedIsUnique(a: seq<Hash>, b: seq<Hash>)
    requires Sorted(a) && Sorted(b) && SameHashes(a, b)
    ensures a == b
    decreases |a|
  {
    SameEmptiness(a, b);
    if a != [] {
      var x := a[|a| - 1];
      CountHas(a, x);
      CountHas(b, x);
      var y := b[|b| - 1];
      CountHas(a, y);
      CountHas(b, y);
      LastIsLargest(a, y);
      LastIsLargest(b, x);
      LeqAntisymmetric(x, y);
      var c, d := a[..|a| - 1], b[..|b| - 1];
      forall h: Hash ensures Count(c, h) == Count(d, h) { assert Count(a, h) == Count(b, h); }
      SortedIsUnique(c, d);
      assert a == c + [x] && b == d + [y];
    }
  }

  lemma SortsAgree(a: seq<Hash>, b: seq<Hash>)
    ensures Sort(a) == Sort(b) <==> SameHashes(a, b)
  {
    SortSorts(a);
    SortSorts(b);
    forall h: Hash ensures Count(Sort(a), h) == Count(a, h) && Count(Sort(b), h) == Count(b, h) {
      SortCounts(a, h);
      SortCounts(b, h);
    }
    if SameHashes(a, b) {
      assert SameHashes(Sort(a), Sort(b));
      SortedIsUnique(Sort(a), Sort(b));
    }
  }

  // ---------------------------------------------------------------- the stream

  function Concat(hashes: seq<Hash>): seq<Byte> {
    if hashes == [] then [] else Concat(hashes[..|hashes| - 1]) + hashes[|hashes| - 1]
  }

  /** What the hasher is fed: the sorted dependencies, then the facade. */
  function Stream(facade: Hash, deps: seq<Hash>): seq<Byte> {
    Concat(Sort(deps)) + facade
  }

  function HashOf(hasher: Hasher, facade: Hash, deps: seq<Hash>): Hash {
    hasher(Stream(facade, deps))
  }

  lemma {:induction false} ConcatLength(hashes: seq<Hash>)
    ensures |Concat(hashes)| == HASH_LENGTH * |hashes|
  {
    if hashes != [] { ConcatLength(hashes[..|hashes| - 1]); }
  }

  /** A concatenation of hashes can be taken apart again. */
  lemma {:induction false} ConcatInjective(a: seq<Hash>, b: seq<Hash>)
    requires Concat(a) == Concat(b)
    ensures a == b
  {
    ConcatLength(a);
    ConcatLength(b);
    if a != [] {
      var c, d := a[..|a| - 1], b[..|b| - 1];
      SplitLast(Concat(c), a[|a| - 1], Concat(d), b[|b| - 1]);
      ConcatInjective(c, d);
      assert a == c + [a[|a| - 1]] && b == d + [b[|b| - 1]];
    }
  }

  lemma SplitLast(s: seq<Byte>, x: Hash, t: seq<Byte>, y: Hash)
    requires s + x == t + y
    ensures s == t && x == y
  {
    assert |s| == |t|;
    assert s == (s + x)[..|s|] == (t + y)[..|t|] == t;
    assert x == (s + x)[|s|..] == (t + y)[|t|..] == y;
  }

  /** Blueprint identity: two inputs feed the hasher the same bytes if and only if
      their facades are equal and their dependencies are the same up to order. */
  lemma StreamIdentity(f: Hash, a: seq<Hash>, g: Hash, b: seq<Hash>)
    ensures Stream(f, a) == Stream(g, b) <==> f == g && SameHashes(a, b)
  {
    SortsAgree(a, b);
    if Stream(f, a) == Stream(g, b) {
      SplitLast(Concat(Sort(a)), f, Concat(Sort(b)), g);
      ConcatInjective(Sort(a), Sort(b));
    }
  }

  /** The layout of the stream: 32 bytes for each dependency, in ascending order and
      with multiplicity, and then the facade. */
  lemma StreamLayout(facade: Hash, deps: seq<Hash>) returns (sorted: seq<Hash>)
    ensures Sorted(sorted) && SameHashes(sorted, deps)
    ensures |Stream(facade, deps)| == HASH_LENGTH * (|sorted| + 1)
    ensures forall i :: 0 <= i < |sorted| ==> Chunk(Stream(facade, deps), i) == sorted[i]
    ensures Chunk(Stream(facade, deps), |sorted|) == facade
  {
    sorted := Sort(deps);
    SortSorts(deps);
    forall h: Hash ensures Count(sorted, h) == Count(deps, h) { SortCounts(deps, h); }
    ConcatLength(sorted);
    forall i | 0 <= i < |sorted| ensures Chunk(Stream(facade, deps), i) == sorted[i] {
      ConcatChunk(sorted, i);
      ChunkOfPrefix(Concat(sorted), facade, i, |sorted|);
    }
  }

  /** The i-th 32 bytes. */
  function Chunk(stream: seq<Byte>, i: nat): seq<Byte> {
    if HASH_LENGTH * i + HASH_LENGTH <= |stream| then stream[HASH_LENGTH * i..HASH_LENGTH * i + HASH_LENGTH] else []
  }

  lemma ChunkOfPrefix(s: seq<Byte>, more: seq<Byte>, i: nat, n: nat)
    requires i < n && |s| == HASH_LENGTH * n
    ensures Chunk(s + more, i) == Chunk(s, i)
  {
  }

  lemma {:induction false} ConcatChunk(hashes: seq<Hash>, i: nat)
    requires i < |hashes|
    ensures Chunk(Concat(hashes), i) == hashes[i]
  {
    var init, last := hashes[..|hashes| - 1], hashes[|hashes| - 1];
    ConcatLength(hashes);
    ConcatLength(init);
    if i < |init| {
      ConcatChunk(init, i);
      ChunkOfPrefix(Concat(init), last, i, |init|);
    }
  }

  /** Hence, unless the hash function collides on the two streams, ids tell
      blueprints apart exactly up to the order of their dependencies. */
  lemma SameIdIffSameParts(hasher: Hasher, f: Hash, a: seq<Hash>, g: Hash, b: seq<Hash>)
    requires hasher(Stream(f, a)) == hasher(Stream(g, b)) ==> Stream(f, a) == Stream(g, b)
    ensures HashOf(hasher, f, a) == HashOf(hasher, g, b) <==> f == g && SameHashes(a, b)
  {
    StreamIdentity(f, a, g, b);
  }

  method SortHashes(hashes: seq<Hash>) returns (sorted: seq<Hash>)
    ensures sorted == Sort(hashes)
  {
    sorted := [];
    for i := 0 to |hashes|
      invariant sorted == Sort(hashes[..i])
    {
      assert hashes[..i + 1][..i] == hashes[..i];
      sorted := InsertHash(sorted, hashes[i]);
    }
    assert hashes[..|hashes|] == hashes;
  }

  /** A hash goes in front of a tail of larger hashes. */
  lemma {:induction false} InsertBefore(sorted: seq<Hash>, h: Hash, j: nat)
    requires j <= |sorted| && (forall m :: j <= m < |sorted| ==> !Leq(sorted[m], h))
    requires j == 0 || Leq(sorted[j - 1], h)
    ensures Insert(sorted, h) == sorted[..j] + [h] + sorted[j..]
  {
    if j == |sorted| {
      assert sorted[..j] == sorted;
    } else {
      var init, last := sorted[..|sorted| - 1], sorted[|sorted| - 1];
      InsertBefore(init, h, j);
      assert Insert(sorted, h) == init[..j] + [h] + init[j..] + [last];
      assert sorted[..j] == init[..j];
      assert sorted[j..] == init[j..] + [last];
    }
  }

  method InsertHash(sorted: seq<Hash>, h: Hash) returns (r: seq<Hash>)
    ensures r == Insert(sorted, h)
  {
    var j := |sorted|;
    while j > 0 && !Leq(sorted[j - 1], h)
      invariant 0 <= j <= |sorted|
      invariant forall m :: j <= m < |sorted| ==> !Leq(sorted[m], h)
    {
      j := j - 1;
    }
    r := sorted[..j] + [h] + sorted[j..];
    InsertBefore(sorted, h, j);
  }

  method HashDependencies(hasher: Hasher, facade: Hash, deps: seq<Hash>) returns (r: Hash)
    ensures r == HashOf(hasher, facade, deps)
  {
    var sorted := SortHashes(deps);
    var stream := [];
    for i := 0 to |sorted|
      invariant stream == Concat(sorted[..i])
    {
      assert sorted[..i + 1][..i] == sorted[..i];
      stream := stream + sorted[i];
    }
    assert sorted[..|sorted|] == sorted;
    r := hasher(stream + facade);
  }

  // ---------------------------------------------------------------- the repository

  datatype Dependency = ByHash(hash: Hash) | ByName(name: string)

  datatype Blueprint = Blueprint(name: string, id: Hash, dependencies: seq<Dependency>)

  datatype Error = EmptyDependenciesList(blueprint: string) | InvalidModuleName(name: string)

  datatype Result<T> = Ok(value: T) | Err(error: Error)

  function Resolve(modules: map<string, Hash>, d: Dependency): Result<Hash> {
    match d
    case ByHash(h) => Ok(h)
    case ByName(n) => if n in modules then Ok(modules[n]) else Err(InvalidModuleName(n))
  }

  /** Resolves in order and stops at the first name that is not known. */
  function ResolveAll(modules: map<string, Hash>, deps: seq<Dependency>): Result<seq<Hash>> {
    if deps == [] then Ok([])
    else
      var before := ResolveAll(modules, deps[..|deps| - 1]);
      if before.Err? then before
      else
        match Resolve(modules, deps[|deps| - 1])
        case Ok(h) => Ok(before.value + [h])
        case Err(e) => Err(e)
  }

  /** The last module is the facade. */
  function IdOf(hasher: Hasher, hashes: seq<Hash>, name: string): Result<Hash> {
    if hashes == [] then Err(EmptyDependenciesList(name))
    else Ok(HashOf(hasher, hashes[|hashes| - 1], hashes[..|hashes| - 1]))
  }

  function BlueprintId(hasher: Hasher, modules: map<string, Hash>, deps: seq<Dependency>, name: string): Result<Hash> {
    match ResolveAll(modules, deps)
    case Ok(hashes) => IdOf(hasher, hashes, name)
    case Err(e) => Err(e)
  }

  function ByHashes(hashes: seq<Hash>): seq<Dependency> {
    if hashes == [] then [] else ByHashes(hashes[..|hashes| - 1]) + [ByHash(hashes[|hashes| - 1])]
  }

  lemma {:induction false} ByHashesResolve(modules: map<string, Hash>, hashes: seq<Hash>)
    ensures ResolveAll(modules, ByHashes(hashes)) == Ok(hashes)
  {
    if hashes != [] {
      var init, last := hashes[..|hashes| - 1], hashes[|hashes| - 1];
      ByHashesResolve(modules, init);
      assert (ByHashes(init) + [ByHash(last)])[..|ByHashes(init)|] == ByHashes(init);
      assert hashes == init + [last];
    }
  }

  /** Resolution fails with the first dependency, in order, that is named and not
      known, and only then; otherwise each one is its hash or the hash of its name. */
  lemma {:induction false} ResolvesInOrder(modules: map<string, Hash>, deps: seq<Dependency>)
    ensures var r := ResolveAll(modules, deps);
            && (r.Ok? ==>
                  && |r.value| == |deps|
                  && forall i :: 0 <= i < |deps| ==> Known(modules, deps[i]) && r.value[i] == HashFor(modules, deps[i]))
            && (r.Err? ==>
                  exists i :: 0 <= i < |deps| && !Known(modules, deps[i]) && r.error == InvalidModuleName(deps[i].name)
                              && forall j :: 0 <= j < i ==> Known(modules, deps[j]))
  {
    if deps != [] {
      var init, last := deps[..|deps| - 1], deps[|deps| - 1];
      ResolvesInOrder(modules, init);
      var before, r := ResolveAll(modules, init), ResolveAll(modules, deps);
      if before.Err? {
        var i :| 0 <= i < |init| && !Known(modules, init[i]) && before.error == InvalidModuleName(init[i].name)
                 && forall j :: 0 <= j < i ==> Known(modules, init[j]);
        assert deps[i] == init[i] && forall j :: 0 <= j < i ==> deps[j] == init[j];
      } else if !Known(modules, last) {
        assert deps[|deps| - 1] == last && forall j :: 0 <= j < |init| ==> deps[j] == init[j];
      }
    }
  }

  predicate Known(modules: map<string, Hash>, d: Dependency) {
    d.ByName? ==> d.name in modules
  }

  function HashFor(modules: map<string, Hash>, d: Dependency): Hash
    requires Known(modules, d)
  {
    if d.ByHash? then d.hash else modules[d.name]
  }

  /** What identifies a list of modules: its last one, the facade, and the others up
      to order. Unless the hash function collides on the two streams, two lists have
      the same id if and only if they agree in this; an empty list has none. */
  lemma IdentifiedByFacadeAndRest(hasher: Hasher, a: seq<Hash>, b: seq<Hash>, name: string)
    requires a != [] && b != []
    requires var (f, g) := (a[|a| - 1], b[|b| - 1]);
             var (x, y) := (Stream(f, a[..|a| - 1]), Stream(g, b[..|b| - 1]));
             hasher(x) == hasher(y) ==> x == y
    ensures IdOf(hasher, a, name).Ok? && IdOf(hasher, b, name).Ok? && IdOf(hasher, [], name).Err?
    ensures IdOf(hasher, a, name) == IdOf(hasher, b, name) <==>
              a[|a| - 1] == b[|b| - 1] && SameHashes(a[..|a| - 1], b[..|b| - 1])
  {
    SameIdIffSameParts(hasher, a[|a| - 1], a[..|a| - 1], b[|b| - 1], b[..|b| - 1]);
  }

  // ---------------------------------------------------------------- the deployer

  function Hashed(hasher: Hasher, data: seq<seq<Byte>>): seq<Hash> {
    if data == [] then [] else Hashed(hasher, data[..|data| - 1]) + [hasher(data[|data| - 1])]
  }

  lemma {:induction false} HashedAre(hasher: Hasher, data: seq<seq<Byte>>)
    ensures |Hashed(hasher, data)| == |data|
    ensures forall i :: 0 <= i < |data| ==> Hashed(hasher, data)[i] == hasher(data[i])
  {
    if data != [] { HashedAre(hasher, data[..|data| - 1]); }
  }

  /** The deployer and the repository agree: when each dependency resolves to the
      hash of the bytes the deployer loaded for it, the predicted id is the id the
      repository gives, and both refuse an empty list. */
  lemma DeployerAgrees(hasher: Hasher, modules: map<string, Hash>, deps: seq<Dependency>,
                       data: seq<seq<Byte>>, name: string)
    requires |deps| == |data|
    requires forall i :: 0 <= i < |deps| ==> Known(modules, deps[i]) && HashFor(modules, deps[i]) == hasher(data[i])
    ensures BlueprintId(hasher, modules, deps, name) == IdOf(hasher, Hashed(hasher, data), name)
    ensures BlueprintId(hasher, modules, deps, name).Err? <==> deps == []
    ensures deps != [] ==>
              var facade, others := hasher(data[|data| - 1]), Hashed(hasher, data[..|data| - 1]);
              BlueprintId(hasher, modules, deps, name) == Ok(hasher(Stream(facade, others)))
  {
    ResolvesInOrder(modules, deps);
    HashedAre(hasher, data);
    var hashes := ResolveAll(modules, deps).value;
    assert hashes == Hashed(hasher, data);
  }

  /** The id the deployer predicts for the bytes of the modules. */
  method GetBlueprintId(hasher: Hasher, data: seq<seq<Byte>>, name: string) returns (r: Result<Hash>)
    ensures r == IdOf(hasher, Hashed(hasher, data), name)
  {
    var hashes := [];
    for i := 0 to |data|
      invariant hashes == Hashed(hasher, data[..i])
    {
      assert data[..i + 1][..i] == data[..i];
      hashes := hashes + [hasher(data[i])];
    }
    assert data[..|data|] == data;
    if hashes == [] {
      return Err(EmptyDependenciesList(name));
    }
    var facade, deps := hashes[|hashes| - 1], hashes[..|hashes| - 1];
    var id := HashDependencies(hasher, facade, deps);
    return Ok(id);
  }

  class ModuleRepository {
    const hasher: Hasher
    var modulesByName: map<string, Hash>
    var blueprints: map<Hash, Blueprint>

    constructor (hasher: Hasher, modulesByName: map<string, Hash>)
      ensures this.hasher == hasher && this.modulesByName == modulesByName && blueprints == map[]
    {
      this.hasher, this.modulesByName, blueprints := hasher, modulesByName, map[];
    }

    method ResolveDependencies(deps: seq<Dependency>) returns (r: Result<seq<Hash>>)
      ensures r == ResolveAll(modulesByName, deps)
    {
      var hashes := [];
      for i := 0 to |deps|
        invariant ResolveAll(modulesByName, deps[..i]) == Ok(hashes)
      {
        assert deps[..i + 1][..i] == deps[..i];
        var h := Resolve(modulesByName, deps[i]);
        if h.Err? {
          FirstErrorStands(modulesByName, deps, i + 1);
          return Err(h.error);
        }
        hashes := hashes + [h.value];
      }
      assert deps[..|deps|] == deps;
      return Ok(hashes);
    }

    /** Stores a blueprint under its id, with every dependency resolved and the
        facade last; on an error nothing changes. */
    method AddBlueprint(name: string, deps: seq<Dependency>) returns (r: Result<Hash>)
      modifies this`blueprints
      ensures r == BlueprintId(hasher, modulesByName, deps, name)
      ensures r.Err? ==> blueprints == old(blueprints)
      ensures r.Ok? ==> ResolveAll(modulesByName, deps).Ok?
      ensures r.Ok? ==>
        var stored := Blueprint(name, r.value, ByHashes(ResolveAll(modulesByName, deps).value));
        blueprints == old(blueprints)[r.value := stored]
    {
      var resolved := ResolveDependencies(deps);
      if resolved.Err? {
        return Err(resolved.error);
      }
      var hashes := resolved.value;
      if hashes == [] {
        return Err(EmptyDependenciesList(name));
      }
      var facade, others := hashes[|hashes| - 1], hashes[..|hashes| - 1];
      var id := HashDependencies(hasher, facade, others);
      blueprints := blueprints[id := Blueprint(name, id, ByHashes(others) + [ByHash(facade)])];
      return Ok(id);
    }
  }

  lemma {:induction false} FirstErrorStands(modules: map<string, Hash>, deps: seq<Dependency>, k: nat)
    requires k <= |deps| && ResolveAll(modules, deps[..k]).Err?
    ensures ResolveAll(modules, deps) == ResolveAll(modules, deps[..k])
  {
    if k == |deps| {
      assert deps[..k] == deps;
    } else {
      assert deps[..|deps| - 1][..k] == deps[..k];
      FirstErrorStands(modules, deps[..|deps| - 1], k);
    }
  }

  /** A stored blueprint added again, whatever names mean by then, gets the same id
      and the same dependencies. */
  lemma ReAddingIsStable(hasher: Hasher, before: map<string, Hash>, after: map<string, Hash>,
                         deps: seq<Dependency>, name: string)
    requires BlueprintId(hasher, before, deps, name).Ok?
    ensures var stored := ByHashes(ResolveAll(before, deps).value);
            && ResolveAll(after, stored) == ResolveAll(before, deps)
            && BlueprintId(hasher, after, stored, name) == BlueprintId(hasher, before, deps, name)
  {
    ByHashesResolve(after, ResolveAll(before, deps).value);
  }
}
