/** The registry of services and aliases with its disk image
    (particle-services/src/app_services.rs, persistence.rs). Service ids and
    aliases are names; the file of a service is found by its id. Writes to the
    disk succeed. */
module Services {
  import opened Base

  type Name = nat
  type PeerId = nat
  type Blueprint = nat

  datatype Service = Service(blueprint: Blueprint, owner: PeerId, aliases: seq<Name>)

  datatype PersistedService = PersistedService(id: Name, blueprint: Blueprint, aliases: seq<Name>, owner: PeerId)

  datatype Registry = Registry(
    services: map<Name, Service>,
    aliases: map<Name, Name>,
    disk: map<Name, PersistedService>
  )

  /** Peers allowed to manage the node, and the cached blueprints: whether a
      known blueprint is that of a spell. */
  datatype Config = Config(management: PeerId, builtinsManagement: PeerId, isSpell: map<Blueprint, bool>)

  datatype ServiceError = NoSuchService(name: Name) | Forbidden | AliasAsServiceId(alias: Name) | BlueprintNotFound

  datatype Result<T> = Ok(value: T) | Err(error: ServiceError)

  function Empty(): Registry {
    Registry(map[], map[], map[])
  }

  function FromService(id: Name, s: Service): PersistedService {
    PersistedService(id, s.blueprint, s.aliases, s.owner)
  }

  function Image(services: map<Name, Service>): map<Name, PersistedService> {
    map id | id in services :: FromService(id, services[id])
  }

  // ---------------------------------------------------------------- lookup

  /** The id of the service with this id or, failing that, with this alias. */
  function GetService(r: Registry, name: Name): Option<Name> {
    if name in r.services then Some(name)
    else if name in r.aliases && r.aliases[name] in r.services then Some(r.aliases[name])
    else None
  }

  // ---------------------------------------------------------------- changes

  /** Creates the service in memory and on disk. */
  function Create(r: Registry, id: Name, blueprint: Blueprint, owner: PeerId, aliases: seq<Name>): Registry {
    var s := Service(blueprint, owner, aliases);
    r.(services := r.services[id := s], disk := r.disk[id := FromService(id, s)])
  }

  function Strip(aliases: seq<Name>, alias: Name): seq<Name> {
    if aliases == [] then []
    else
      var init, last := aliases[..|aliases| - 1], aliases[|aliases| - 1];
      Strip(init, alias) + (if last == alias then [] else [last])
  }

  function RemoveAlias(s: Service, alias: Name): Service {
    s.(aliases := Strip(s.aliases, alias))
  }

  /** Pushes the alias on the target, strips it from the previous owner in
      memory, writes the previous owner and then the target as it was pushed. */
  function Attach(r: Registry, alias: Name, id: Name): Registry
    requires id in r.services
  {
    var target := r.services[id].(aliases := r.services[id].aliases + [alias]);
    var pushed := r.services[id := target];
    var done :=
      if alias in r.aliases && r.aliases[alias] in pushed then
        var previous := r.aliases[alias];
        var stripped := RemoveAlias(pushed[previous], alias);
        r.(services := pushed[previous := stripped], disk := r.disk[previous := FromService(previous, stripped)])
      else r.(services := pushed);
    done.(disk := done.disk[id := FromService(id, target)], aliases := r.aliases[alias := id])
  }

  function AliasError(r: Registry, c: Config, alias: Name, id: Name, caller: PeerId): Option<ServiceError> {
    if caller != c.management && caller != c.builtinsManagement then Some(Forbidden)
    else if alias in r.services then Some(AliasAsServiceId(alias))
    else if id !in r.services then Some(NoSuchService(id))
    else None
  }

  function AddAlias(r: Registry, c: Config, alias: Name, id: Name, caller: PeerId): (Registry, Result<()>) {
    var e := AliasError(r, c, alias, id, caller);
    if e.Some? then (r, Err(e.value)) else (Attach(r, alias, id), Ok(()))
  }

  function RemovalError(r: Registry, c: Config, name: Name, caller: PeerId, spell: bool): Option<ServiceError> {
    var id := GetService(r, name);
    if id.None? then Some(NoSuchService(name))
    else
      var s := r.services[id.value];
      if s.blueprint !in c.isSpell then Some(BlueprintNotFound)
      else if c.isSpell[s.blueprint] != spell then Some(Forbidden)
      else if s.owner != caller && c.management != caller && c.builtinsManagement != caller then Some(Forbidden)
      else None
  }

  function Detach(r: Registry, id: Name): Registry
    requires id in r.services
  {
    Registry(r.services - {id}, r.aliases - ToSet(r.services[id].aliases), r.disk - {id})
  }

  function Remove(r: Registry, c: Config, name: Name, caller: PeerId, spell: bool): (Registry, Result<()>) {
    var e := RemovalError(r, c, name, caller, spell);
    if e.Some? then (r, Err(e.value)) else (Detach(r, GetService(r, name).value), Ok(()))
  }

  // ---------------------------------------------------------------- restart

  function Index(aliases: map<Name, Name>, names: seq<Name>, id: Name): map<Name, Name> {
    if names == [] then aliases else Index(aliases, names[..|names| - 1], id)[names[|names| - 1] := id]
  }

  /** Recreates one persisted service; creation writes it back to the disk. */
  function Recreate(r: Registry, p: PersistedService): Registry {
    var n := Create(r, p.id, p.blueprint, p.owner, p.aliases);
    n.(aliases := Index(r.aliases, p.aliases, p.id))
  }

  /** A fresh node that reads the files of the disk in some order. */
  function Reload(disk: map<Name, PersistedService>, order: seq<Name>): Registry
    requires forall id :: id in order ==> id in disk
  {
    if order == [] then Registry(map[], map[], disk)
    else Recreate(Reload(disk, order[..|order| - 1]), disk[order[|order| - 1]])
  }

  // ---------------------------------------------------------------- runs

  datatype Step =
    | DoCreate(id: Name, blueprint: Blueprint, owner: PeerId, ok: bool)
    | DoAddAlias(alias: Name, target: Name, caller: PeerId)
    | DoRemove(name: Name, caller: PeerId, spell: bool)

  function Apply(r: Registry, c: Config, step: Step): Registry {
    match step
    case DoCreate(id, blueprint, owner, ok) => if ok then Create(r, id, blueprint, owner, []) else r
    case DoAddAlias(alias, id, caller) => AddAlias(r, c, alias, id, caller).0
    case DoRemove(name, caller, spell) => Remove(r, c, name, caller, spell).0
  }

  /** Service ids are freshly generated. */
  ghost predicate Fresh(r: Registry, step: Step) {
    step.DoCreate? ==> step.id !in r.services
  }

  /** Whether the step adds an alias once more to the service that has it. */
  predicate ReAdds(r: Registry, step: Step) {
    step.DoAddAlias? && step.alias in r.aliases && r.aliases[step.alias] == step.target
  }

  ghost function Run(c: Config, steps: seq<Step>): Registry {
    if steps == [] then Empty() else Apply(Run(c, steps[..|steps| - 1]), c, steps[|steps| - 1])
  }

  ghost predicate FreshRun(c: Config, steps: seq<Step>) {
    steps == [] || (FreshRun(c, steps[..|steps| - 1]) && Fresh(Run(c, steps[..|steps| - 1]), steps[|steps| - 1]))
  }

  ghost predicate NeverReAdds(c: Config, steps: seq<Step>) {
    steps == [] || (NeverReAdds(c, steps[..|steps| - 1]) && !ReAdds(Run(c, steps[..|steps| - 1]), steps[|steps| - 1]))
  }

  // ---------------------------------------------------------------- invariants

  /** Every alias listed by a service is indexed to that service. */
  ghost predicate Indexed(r: Registry) {
    forall id, a :: id in r.services && a in r.services[id].aliases ==> a in r.aliases && r.aliases[a] == id
  }

  /** Every indexed alias belongs to a live service that lists it. */
  ghost predicate Owned(r: Registry) {
    forall a :: a in r.aliases ==> r.aliases[a] in r.services && a in r.services[r.aliases[a]].aliases
  }

  ghost predicate NoRepeats(r: Registry) {
    forall id :: id in r.services ==> Distinct(r.services[id].aliases)
  }

  /** Memory, index and disk agree. */
  ghost predicate Consistent(r: Registry) {
    Indexed(r) && Owned(r) && NoRepeats(r) && r.disk == Image(r.services)
  }

  lemma {:induction false} StripIs(aliases: seq<Name>, alias: Name)
    ensures forall a :: a in Strip(aliases, alias) <==> a in aliases && a != alias
    ensures Distinct(aliases) ==> Distinct(Strip(aliases, alias))
    ensures alias !in aliases ==> Strip(aliases, alias) == aliases
  {
    if aliases != [] {
      var init, last := aliases[..|aliases| - 1], aliases[|aliases| - 1];
      StripIs(init, alias);
      assert aliases == init + [last];
      if Distinct(aliases) {
        assert forall i :: 0 <= i < |init| ==> init[i] == aliases[i];
        assert last !in init;
      }
    }
  }

  lemma PushKeepsDistinct(aliases: seq<Name>, alias: Name)
    requires Distinct(aliases) && alias !in aliases
    ensures Distinct(aliases + [alias])
  {
  }

  /** What a service lists after an alias was attached to `id`. */
  lemma AttachListed(r: Registry, alias: Name, id: Name, x: Name, a: Name)
    requires Indexed(r) && id in r.services && x in Attach(r, alias, id).services
    requires a in Attach(r, alias, id).services[x].aliases
    ensures if a == alias then x == id else x in r.services && a in r.services[x].aliases
  {
    if alias in r.aliases && r.aliases[alias] in r.services {
      var previous := r.aliases[alias];
      StripIs(if previous == id then r.services[id].aliases + [alias] else r.services[previous].aliases, alias);
    }
  }

  lemma AttachIndexed(r: Registry, alias: Name, id: Name)
    requires Indexed(r) && id in r.services
    ensures Indexed(Attach(r, alias, id))
  {
    var n := Attach(r, alias, id);
    assert n.aliases == r.aliases[alias := id];
    forall x, a | x in n.services && a in n.services[x].aliases ensures a in n.aliases && n.aliases[a] == x {
      AttachListed(r, alias, id, x, a);
    }
  }

  lemma DetachIndexed(r: Registry, id: Name)
    requires Indexed(r) && id in r.services
    ensures Indexed(Detach(r, id))
  {
    var n := Detach(r, id);
    forall x, a | x in n.services && a in n.services[x].aliases ensures a in n.aliases && n.aliases[a] == x {
      assert x in r.services && x != id && r.aliases[a] == x;
      assert a !in r.services[id].aliases;
    }
  }

  lemma ApplyIndexed(r: Registry, c: Config, step: Step)
    requires Indexed(r)
    requires Fresh(r, step)
    ensures Indexed(Apply(r, c, step))
  {
    match step
    case DoCreate(_, _, _, _) =>
    case DoAddAlias(alias, id, caller) =>
      if AliasError(r, c, alias, id, caller).None? { AttachIndexed(r, alias, id); }
    case DoRemove(name, caller, spell) =>
      if RemovalError(r, c, name, caller, spell).None? { DetachIndexed(r, GetService(r, name).value); }
  }

  /** What `Attach` does to the alias lists when the alias is new to the target. */
  lemma AttachLists(r: Registry, alias: Name, id: Name)
    requires Indexed(r) && NoRepeats(r) && id in r.services && !(alias in r.aliases && r.aliases[alias] == id)
    ensures var n := Attach(r, alias, id);
            && n.services.Keys == r.services.Keys
            && n.services[id].aliases == r.services[id].aliases + [alias]
            && NoRepeats(n)
            && forall x, a :: x in r.services && x != id ==>
                 (a in n.services[x].aliases <==> a in r.services[x].aliases && a != alias)
  {
    var n := Attach(r, alias, id);
    assert alias !in r.services[id].aliases;
    PushKeepsDistinct(r.services[id].aliases, alias);
    forall x | x in r.services && x != id
      ensures Distinct(n.services[x].aliases)
      ensures forall a :: a in n.services[x].aliases <==> a in r.services[x].aliases && a != alias
    {
      StripIs(r.services[x].aliases, alias);
    }
  }

  lemma AttachImage(r: Registry, alias: Name, id: Name)
    requires r.disk == Image(r.services) && id in r.services && !(alias in r.aliases && r.aliases[alias] == id)
    ensures Attach(r, alias, id).disk == Image(Attach(r, alias, id).services)
  {
  }

  lemma AttachConsistent(r: Registry, alias: Name, id: Name)
    requires Consistent(r) && id in r.services && !(alias in r.aliases && r.aliases[alias] == id)
    ensures Consistent(Attach(r, alias, id))
  {
    AttachIndexed(r, alias, id);
    AttachLists(r, alias, id);
    AttachImage(r, alias, id);
    var n := Attach(r, alias, id);
    forall a | a in n.aliases ensures n.aliases[a] in n.services && a in n.services[n.aliases[a]].aliases {
      if a == alias {
        assert n.services[id].aliases[|r.services[id].aliases|] == alias;
      } else {
        assert n.aliases[a] == r.aliases[a];
      }
    }
  }

  lemma DetachConsistent(r: Registry, id: Name)
    requires Consistent(r) && id in r.services
    ensures Consistent(Detach(r, id))
  {
    DetachIndexed(r, id);
    var n := Detach(r, id);
    assert n.disk == Image(n.services);
  }

  /** Adding an alias again to its holder leaves it indexed and on disk but no
      longer listed in memory. */
  lemma ReAddBreaks(r: Registry, alias: Name, id: Name)
    requires id in r.services && alias in r.aliases && r.aliases[alias] == id
    ensures var n := Attach(r, alias, id);
            alias !in n.services[id].aliases && n.aliases[alias] == id && alias in n.disk[id].aliases
  {
    StripIs(r.services[id].aliases + [alias], alias);
  }

  function ReAddSteps(): seq<Step> {
    [DoCreate(1, 0, 0, true), DoAddAlias(5, 1, 0), DoAddAlias(5, 1, 0)]
  }

  /** A run that adds the alias 5 twice to the service 1: the alias stays indexed
      but is no longer listed, while the file lists it twice, so that a restart does
      not reproduce the services. */
  lemma ReAddedAliasIsLost()
    ensures var c, steps := Config(0, 0, map[0 := false]), ReAddSteps();
            var r := Run(c, steps);
            && FreshRun(c, steps) && !Owned(r)
            && r.services == map[1 := Service(0, 0, [])] && r.aliases == map[5 := 1]
            && r.disk == map[1 := PersistedService(1, 0, [5, 5], 0)]
            && Reload(r.disk, [1]).services == map[1 := Service(0, 0, [5, 5])]
  {
    var c, steps := Config(0, 0, map[0 := false]), ReAddSteps();
    var one := Registry(map[1 := Service(0, 0, [])], map[], map[1 := PersistedService(1, 0, [], 0)]);
    var two := Registry(map[1 := Service(0, 0, [5])], map[5 := 1], map[1 := PersistedService(1, 0, [5], 0)]);
    assert Create(Empty(), 1, 0, 0, []) == one;
    assert AddAlias(one, c, 5, 1, 0).0 == two by { assert [] + [5] == [5]; }
    ReAddedState(c, two);
    assert steps[..1][..0] == [] && steps[..2][..1] == steps[..1] && steps[..3] == steps;
    assert Run(c, steps[..0]) == Empty() && FreshRun(c, steps[..0]);
    assert Run(c, steps[..1]) == one && FreshRun(c, steps[..1]);
    assert Run(c, steps[..2]) == two && FreshRun(c, steps[..2]);
    assert Run(c, steps) == AddAlias(two, c, 5, 1, 0).0;
    assert Run(c, steps).aliases[5] == 1 && 5 !in Run(c, steps).services[1].aliases;
  }

  lemma ReAddedState(c: Config, two: Registry)
    requires c == Config(0, 0, map[0 := false])
    requires two == Registry(map[1 := Service(0, 0, [5])], map[5 := 1], map[1 := PersistedService(1, 0, [5], 0)])
    ensures var r := AddAlias(two, c, 5, 1, 0).0;
            && r.services == map[1 := Service(0, 0, [])] && r.aliases == map[5 := 1]
            && r.disk == map[1 := PersistedService(1, 0, [5, 5], 0)]
            && Reload(r.disk, [1]).services == map[1 := Service(0, 0, [5, 5])]
  {
    assert [5] + [5] == [5, 5];
    StripAll();
    ReloadOne(PersistedService(1, 0, [5, 5], 0));
  }

  lemma StripAll()
    ensures Strip([5, 5], 5) == []
  {
    assert [5, 5][..1] == [5] && [5][..0] == [];
  }

  lemma ReloadOne(f: PersistedService)
    ensures Reload(map[f.id := f], [f.id]).services == map[f.id := Service(f.blueprint, f.owner, f.aliases)]
  {
    var disk := map[f.id := f];
    assert [f.id][..0] == [] && Reload(disk, []) == Registry(map[], map[], disk);
  }

  lemma ApplyConsistent(r: Registry, c: Config, step: Step)
    requires Consistent(r) && Fresh(r, step) && !ReAdds(r, step)
    ensures Consistent(Apply(r, c, step))
  {
    match step
    case DoCreate(id, blueprint, owner, ok) =>
      var n := Create(r, id, blueprint, owner, []);
      assert n.disk == Image(n.services);
    case DoAddAlias(alias, id, caller) =>
      if AliasError(r, c, alias, id, caller).None? { AttachConsistent(r, alias, id); }
    case DoRemove(name, caller, spell) =>
      if RemovalError(r, c, name, caller, spell).None? { DetachConsistent(r, GetService(r, name).value); }
  }

  // ---------------------------------------------------------------- main theorems

  /** In every run with fresh ids, an alias listed by a service is indexed to
      that service; so no alias has two owners. */
  lemma {:induction false} AliasesIndexed(c: Config, steps: seq<Step>)
    requires FreshRun(c, steps)
    ensures Indexed(Run(c, steps))
  {
    if steps != [] {
      AliasesIndexed(c, steps[..|steps| - 1]);
      ApplyIndexed(Run(c, steps[..|steps| - 1]), c, steps[|steps| - 1]);
    }
  }

  /** In every run that moreover never adds an alias again to its holder,
      memory, index and disk agree in both directions. */
  lemma {:induction false} RunConsistent(c: Config, steps: seq<Step>)
    requires FreshRun(c, steps) && NeverReAdds(c, steps)
    ensures Consistent(Run(c, steps))
  {
    if steps == [] {
      assert Empty().disk == Image(Empty().services);
    } else {
      RunConsistent(c, steps[..|steps| - 1]);
      ApplyConsistent(Run(c, steps[..|steps| - 1]), c, steps[|steps| - 1]);
    }
  }

  /** Agreement survives a successful `add_alias` if and only if the alias was
      not already indexed to the target. */
  lemma ConsistentIffNotReAdded(r: Registry, c: Config, alias: Name, id: Name, caller: PeerId)
    requires Consistent(r) && AddAlias(r, c, alias, id, caller).1.Ok?
    ensures Consistent(AddAlias(r, c, alias, id, caller).0) <==> !(alias in r.aliases && r.aliases[alias] == id)
  {
    if alias in r.aliases && r.aliases[alias] == id {
      ReAddBreaks(r, alias, id);
    } else {
      AttachConsistent(r, alias, id);
    }
  }

  lemma {:induction false} IndexIs(aliases: map<Name, Name>, names: seq<Name>, id: Name)
    ensures var n := Index(aliases, names, id);
            && n.Keys == aliases.Keys + ToSet(names)
            && forall a :: a in n ==> n[a] == if a in names then id else aliases[a]
  {
    if names != [] {
      var init, last := names[..|names| - 1], names[|names| - 1];
      IndexIs(aliases, init, id);
      assert names == init + [last];
    }
  }

  /** Part of a consistent registry: the services with the given ids and their
      aliases, on top of the whole disk. */
  ghost predicate Loaded(r: Registry, n: Registry, order: seq<Name>) {
    && n.disk == r.disk
    && n.services == (map id | id in r.services && id in order :: r.services[id])
    && n.aliases == (map a | a in r.aliases && r.aliases[a] in order :: r.aliases[a])
  }

  lemma RecreateServices(r: Registry, m: Registry, init: seq<Name>, id: Name)
    requires Consistent(r) && id in r.services && Loaded(r, m, init)
    ensures var n := Recreate(m, r.disk[id]);
            n.disk == r.disk && n.services == (map x | x in r.services && x in init + [id] :: r.services[x])
  {
    assert r.disk[id] == FromService(id, r.services[id]);
  }

  lemma RecreateAliases(r: Registry, m: Registry, init: seq<Name>, id: Name)
    requires Consistent(r) && id in r.services && Loaded(r, m, init)
    ensures Recreate(m, r.disk[id]).aliases == (map a | a in r.aliases && r.aliases[a] in init + [id] :: r.aliases[a])
  {
    assert r.disk[id] == FromService(id, r.services[id]);
    var names := r.services[id].aliases;
    IndexIs(m.aliases, names, id);
    var n := Index(m.aliases, names, id);
    forall a ensures a in names <==> a in r.aliases && r.aliases[a] == id { ListedIffIndexed(r, id, a); }
    forall a ensures a in n <==> a in r.aliases && r.aliases[a] in init + [id] {}
  }

  lemma ListedIffIndexed(r: Registry, id: Name, a: Name)
    requires Indexed(r) && Owned(r) && id in r.services
    ensures a in r.services[id].aliases <==> a in r.aliases && r.aliases[a] == id
  {
  }

  lemma {:induction false} ReloadLoads(r: Registry, order: seq<Name>)
    requires Consistent(r) && forall id :: id in order ==> id in r.disk
    ensures Loaded(r, Reload(r.disk, order), order)
  {
    if order != [] {
      var init, id := order[..|order| - 1], order[|order| - 1];
      ReloadLoads(r, init);
      assert order == init + [id];
      assert id in r.disk && r.disk.Keys == r.services.Keys;
      RecreateServices(r, Reload(r.disk, init), init, id);
      RecreateAliases(r, Reload(r.disk, init), init, id);
    }
  }

  lemma ReloadIsIdentity(r: Registry, order: seq<Name>)
    requires Consistent(r) && Enumerates(order, r.disk.Keys)
    ensures Reload(r.disk, order) == r
  {
    ReloadLoads(r, order);
    assert r.services == (map id | id in r.services && id in order :: r.services[id]);
    assert r.aliases == (map a | a in r.aliases && r.aliases[a] in order :: r.aliases[a]);
  }

  /** Restart reproduces the registry: after any run without re-added aliases,
      reading the files back in any order rebuilds the same services, the same
      aliases and the same disk. */
  lemma RestartReproduces(c: Config, steps: seq<Step>, order: seq<Name>)
    requires FreshRun(c, steps) && NeverReAdds(c, steps)
    requires Enumerates(order, Run(c, steps).disk.Keys)
    ensures Reload(Run(c, steps).disk, order) == Run(c, steps)
  {
    RunConsistent(c, steps);
    ReloadIsIdentity(Run(c, steps), order);
  }

  /** After one more successful `add_alias` the restart still reproduces the
      services if and only if the alias was not already the target's. */
  lemma RestartIffNotReAdded(r: Registry, c: Config, alias: Name, id: Name, caller: PeerId, order: seq<Name>)
    requires Consistent(r) && AddAlias(r, c, alias, id, caller).1.Ok?
    requires Enumerates(order, AddAlias(r, c, alias, id, caller).0.disk.Keys)
    ensures var n := AddAlias(r, c, alias, id, caller).0;
            Reload(n.disk, order).services == n.services <==> !(alias in r.aliases && r.aliases[alias] == id)
  {
    var n := AddAlias(r, c, alias, id, caller).0;
    if alias in r.aliases && r.aliases[alias] == id {
      ReAddBreaks(r, alias, id);
      assert id in order;
      ReloadFrom(n.disk, order, id);
    } else {
      AttachConsistent(r, alias, id);
      ReloadIsIdentity(n, order);
    }
  }

  /** A reloaded service is what its file says. */
  lemma {:induction false} ReloadFrom(disk: map<Name, PersistedService>, order: seq<Name>, id: Name)
    requires forall x :: x in order ==> x in disk
    requires forall x :: x in disk ==> disk[x].id == x
    ensures id in order <==> id in Reload(disk, order).services
    ensures id in order ==>
              Reload(disk, order).services[id] == Service(disk[id].blueprint, disk[id].owner, disk[id].aliases)
  {
    if order != [] {
      var init, last := order[..|order| - 1], order[|order| - 1];
      ReloadFrom(disk, init, id);
      assert order == init + [last];
    }
  }

  /** Recreating a service on restart replaces none, as the source asserts. */
  lemma ReloadReplacesNothing(disk: map<Name, PersistedService>, order: seq<Name>, i: nat)
    requires Enumerates(order, disk.Keys) && i < |order| && forall x :: x in disk ==> disk[x].id == x
    ensures disk[order[i]].id !in Reload(disk, order[..i]).services
  {
    ReloadFrom(disk, order[..i], order[i]);
  }

  /** Removing a service takes away its own aliases only. */
  lemma RemovalIsLocal(r: Registry, c: Config, name: Name, caller: PeerId, spell: bool, other: Name)
    requires Indexed(r) && Remove(r, c, name, caller, spell).1.Ok?
    requires other in r.services && GetService(r, name) != Some(other)
    ensures var n := Remove(r, c, name, caller, spell).0;
            && n.services.Keys == r.services.Keys - {GetService(r, name).value}
            && other in n.services && n.services[other] == r.services[other]
            && forall a :: a in r.services[other].aliases ==> a in n.aliases && n.aliases[a] == other
  {
    var id := GetService(r, name).value;
    forall a | a in r.services[other].aliases ensures a in r.aliases && a !in ToSet(r.services[id].aliases) {
      assert r.aliases[a] == other;
    }
  }

  /** In a consistent registry an alias that is not itself an id resolves to the
      one service that lists it, and a name resolves at all exactly when it is
      an id or an indexed alias. */
  lemma Resolution(r: Registry, name: Name)
    requires Consistent(r)
    ensures name in r.services ==> GetService(r, name) == Some(name)
    ensures GetService(r, name).Some? <==> name in r.services || name in r.aliases
    ensures forall id :: id in r.services && name in r.services[id].aliases && name !in r.services ==>
              GetService(r, name) == Some(id)
  {
  }

  /** Who may remove a service: its owner and the managing peers, and a spell only
      as a spell. */
  predicate MayRemove(c: Config, s: Service, caller: PeerId, spell: bool) {
    && (caller == s.owner || caller == c.management || caller == c.builtinsManagement)
    && s.blueprint in c.isSpell && (c.isSpell[s.blueprint] <==> spell)
  }

  /** A service leaves the registry in a step if and only if somebody who may
      removes it by its id or by an alias of it; otherwise it keeps its owner and
      blueprint, unless its id is created anew. */
  lemma LeavesOnlyByRight(r: Registry, c: Config, step: Step, id: Name)
    requires id in r.services
    ensures var n := Apply(r, c, step);
            && (id !in n.services <==>
                  && step.DoRemove? && GetService(r, step.name) == Some(id)
                  && MayRemove(c, r.services[id], step.caller, step.spell))
            && (id in n.services && !(step.DoCreate? && step.id == id) ==>
                  n.services[id].owner == r.services[id].owner && n.services[id].blueprint == r.services[id].blueprint)
  {
  }

  /** Who may add an alias, and what it does. Only a managing peer may, the alias must
      not be the id of a service, and the target must exist; these are asked in this
      order and a refusal changes nothing. Otherwise the alias resolves to the target,
      the service that had it before loses it, and no other service changes. */
  lemma AddAliasExactly(r: Registry, c: Config, alias: Name, id: Name, caller: PeerId)
    ensures var (n, result) := AddAlias(r, c, alias, id, caller);
            && (result.Ok? <==>
                  && (caller == c.management || caller == c.builtinsManagement)
                  && alias !in r.services && id in r.services)
            && (result.Err? ==> n == r)
            && (result == Err(Forbidden) <==> caller != c.management && caller != c.builtinsManagement)
            && (result == Err(AliasAsServiceId(alias)) <==>
                  (caller == c.management || caller == c.builtinsManagement) && alias in r.services)
            && (result.Ok? ==> Attached(r, n, alias, id))
  {
    if AliasError(r, c, alias, id, caller).None? { AttachExactly(r, alias, id); }
  }

  /** What a service becomes when an alias is attached to `id`: the service that had
      the alias loses it, the target, if it did not have it, gets it. */
  ghost predicate ServiceAttached(r: Registry, n: Registry, alias: Name, id: Name, x: Name)
    requires x in r.services && x in n.services
  {
    && n.services[x].owner == r.services[x].owner && n.services[x].blueprint == r.services[x].blueprint
    && (forall a :: a != alias ==> (a in n.services[x].aliases <==> a in r.services[x].aliases))
    && (alias in r.aliases && r.aliases[alias] == x ==> alias !in n.services[x].aliases)
    && (!(alias in r.aliases && r.aliases[alias] == x) && x == id ==>
          n.services[x].aliases == r.services[x].aliases + [alias])
    && (!(alias in r.aliases && r.aliases[alias] == x) && x != id ==> n.services[x] == r.services[x])
  }

  ghost predicate Attached(r: Registry, n: Registry, alias: Name, id: Name) {
    && id in r.services && n.aliases == r.aliases[alias := id] && n.services.Keys == r.services.Keys
    && GetService(n, alias) == Some(if alias in r.services then alias else id)
    && (forall x :: x in r.services ==> ServiceAttached(r, n, alias, id, x))
  }

  lemma AttachService(r: Registry, alias: Name, id: Name, x: Name)
    requires id in r.services && x in r.services
    ensures x in Attach(r, alias, id).services && ServiceAttached(r, Attach(r, alias, id), alias, id, x)
  {
    if alias in r.aliases && r.aliases[alias] == x {
      StripIs(if x == id then r.services[id].aliases + [alias] else r.services[x].aliases, alias);
    }
  }

  lemma AttachExactly(r: Registry, alias: Name, id: Name)
    requires id in r.services
    ensures Attached(r, Attach(r, alias, id), alias, id)
  {
    var n := Attach(r, alias, id);
    assert n.services.Keys == r.services.Keys && n.aliases == r.aliases[alias := id];
    forall x | x in r.services ensures ServiceAttached(r, n, alias, id, x) { AttachService(r, alias, id, x); }
  }

  /** Who may remove a service, and what it does. The name must resolve, the blueprint
      be known, the kind be right and the caller allowed, asked in this order; a refusal
      changes nothing. Otherwise exactly the service, its listed aliases and its file go. */
  lemma RemoveExactly(r: Registry, c: Config, name: Name, caller: PeerId, spell: bool)
    ensures var (n, result) := Remove(r, c, name, caller, spell);
            var found := GetService(r, name);
            && (result.Err? ==> n == r)
            && (result == Err(NoSuchService(name)) <==> found.None?)
            && (result == Err(BlueprintNotFound) <==> found.Some? && r.services[found.value].blueprint !in c.isSpell)
            && (result.Ok? <==> found.Some? && MayRemove(c, r.services[found.value], caller, spell))
            && (result.Ok? ==>
                  && n.services == r.services - {found.value} && n.disk == r.disk - {found.value}
                  && (forall a :: a in n.aliases <==> a in r.aliases && a !in r.services[found.value].aliases)
                  && (forall a :: a in n.aliases ==> n.aliases[a] == r.aliases[a]))
  {
  }

  /** A service was created by this step. */
  ghost predicate CreatedBy(steps: seq<Step>, i: nat, id: Name, s: Service) {
    i < |steps| && steps[i] == DoCreate(id, s.blueprint, s.owner, true)
  }

  /** In every run each service has the blueprint and the owner of its creation. */
  lemma {:induction false} OwnersAreCreators(c: Config, steps: seq<Step>, id: Name)
    requires id in Run(c, steps).services
    ensures exists i :: CreatedBy(steps, i, id, Run(c, steps).services[id])
  {
    var init, last := steps[..|steps| - 1], steps[|steps| - 1];
    var r, n := Run(c, init), Run(c, steps);
    if last == DoCreate(id, n.services[id].blueprint, n.services[id].owner, true) {
      assert CreatedBy(steps, |steps| - 1, id, n.services[id]);
    } else {
      StaysAsCreated(r, c, last, id);
      OwnersAreCreators(c, init, id);
      var i :| CreatedBy(init, i, id, r.services[id]);
      assert CreatedBy(steps, i, id, n.services[id]);
    }
  }

  lemma StaysAsCreated(r: Registry, c: Config, step: Step, id: Name)
    requires id in Apply(r, c, step).services
    ensures var s := Apply(r, c, step).services[id];
            || step == DoCreate(id, s.blueprint, s.owner, true)
            || (id in r.services && s.owner == r.services[id].owner && s.blueprint == r.services[id].blueprint)
  {
    if step.DoAddAlias? && AliasError(r, c, step.alias, step.target, step.caller).None? {
      AttachExactly(r, step.alias, step.target);
    }
  }

  /** A created service has the given owner and blueprint and no alias, also on disk,
      and changes no other. */
  lemma CreateExactly(r: Registry, c: Config, id: Name, blueprint: Blueprint, owner: PeerId, ok: bool)
    ensures var n := Apply(r, c, DoCreate(id, blueprint, owner, ok));
            if !ok then n == r
            else
              && n.services == r.services[id := Service(blueprint, owner, [])] && n.aliases == r.aliases
              && n.disk == r.disk[id := PersistedService(id, blueprint, [], owner)]
  {
  }
}
