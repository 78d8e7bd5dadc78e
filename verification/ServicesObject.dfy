/** The registry as an object: the two maps in memory and the directory of
    persisted services, updated in place and proved against module `Services`. */
module ServicesObject {
  import opened Base
  import opened Services

  class ParticleAppServices {
    const config: Config
    var services: map<Name, Service>
    var aliases: map<Name, Name>
    var disk: map<Name, PersistedService>

    ghost function View(): Registry
      reads this
    {
      Registry(services, aliases, disk)
    }

    /** Starts on the files of a directory, read in the given order. */
    constructor (config: Config, files: map<Name, PersistedService>, order: seq<Name>)
      requires forall id :: id in order ==> id in files
      ensures this.config == config
      ensures View() == Reload(files, order)
    {
      this.config := config;
      services, aliases, disk := map[], map[], files;
      new;
      CreatePersistedServices(files, order);
    }

    method CreatePersistedServices(files: map<Name, PersistedService>, order: seq<Name>)
      requires forall id :: id in order ==> id in files
      requires View() == Registry(map[], map[], files)
      modifies this
      ensures View() == Reload(files, order)
    {
      for i := 0 to |order|
        invariant View() == Reload(files, order[..i])
      {
        assert order[..i + 1][..i] == order[..i];
        var p := files[order[i]];
        CreateServiceInner(p.id, p.blueprint, p.owner, p.aliases);
        ghost var before := aliases;
        for j := 0 to |p.aliases|
          invariant View() == Create(Reload(files, order[..i]), p.id, p.blueprint, p.owner, p.aliases)
                              .(aliases := Index(before, p.aliases[..j], p.id))
        {
          assert p.aliases[..j + 1][..j] == p.aliases[..j];
          aliases := aliases[p.aliases[j] := p.id];
        }
        assert p.aliases[..|p.aliases|] == p.aliases;
      }
      assert order[..|order|] == order;
    }

    method CreateServiceInner(id: Name, blueprint: Blueprint, owner: PeerId, names: seq<Name>)
      modifies this
      ensures View() == old(Create(View(), id, blueprint, owner, names))
    {
      var s := Service(blueprint, owner, names);
      disk := disk[id := FromService(id, s)];
      services := services[id := s];
    }

    /** Keeps the aliases that differ from the given one, in order. */
    method Retain(names: seq<Name>, alias: Name) returns (kept: seq<Name>)
      ensures kept == Strip(names, alias)
    {
      kept := [];
      for i := 0 to |names|
        invariant kept == Strip(names[..i], alias)
      {
        assert names[..i + 1][..i] == names[..i];
        if names[i] != alias {
          kept := kept + [names[i]];
        }
      }
      assert names[..|names|] == names;
    }

    method AddAlias(alias: Name, id: Name, caller: PeerId) returns (result: Result<()>)
      modifies this
      ensures (View(), result) == Services.AddAlias(old(View()), config, alias, id, caller)
    {
      if caller != config.management && caller != config.builtinsManagement {
        return Err(Forbidden);
      }
      if alias in services {
        return Err(AliasAsServiceId(alias));
      }
      if id !in services {
        return Err(NoSuchService(id));
      }
      var target := services[id].(aliases := services[id].aliases + [alias]);
      services := services[id := target];
      if alias in aliases && aliases[alias] in services {
        var previous := aliases[alias];
        var kept := Retain(services[previous].aliases, alias);
        services := services[previous := services[previous].(aliases := kept)];
        disk := disk[previous := FromService(previous, services[previous])];
      }
      disk := disk[id := FromService(id, target)];
      aliases := aliases[alias := id];
      return Ok(());
    }

    method RemoveService(name: Name, caller: PeerId, spell: bool) returns (result: Result<()>)
      modifies this
      ensures (View(), result) == Services.Remove(old(View()), config, name, caller, spell)
    {
      ghost var start := View();
      var id;
      if name in services {
        id := name;
      } else if name in aliases && aliases[name] in services {
        id := aliases[name];
      } else {
        return Err(NoSuchService(name));
      }
      var s := services[id];
      if s.blueprint !in config.isSpell {
        return Err(BlueprintNotFound);
      }
      if config.isSpell[s.blueprint] != spell {
        return Err(Forbidden);
      }
      if s.owner != caller && config.management != caller && config.builtinsManagement != caller {
        return Err(Forbidden);
      }
      disk := disk - {id};
      services := services - {id};
      for i := 0 to |s.aliases|
        invariant services == start.services - {id} && disk == start.disk - {id}
        invariant aliases == start.aliases - ToSet(s.aliases[..i])
      {
        assert s.aliases[..i + 1] == s.aliases[..i] + [s.aliases[i]];
        aliases := aliases - {s.aliases[i]};
      }
      assert s.aliases[..|s.aliases|] == s.aliases;
      return Ok(());
    }
  }
}
