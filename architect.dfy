/**
 * The module registry of amee/core/architect.py: a dictionary from module names
 * to module instances, with register, deregister and lookup.
 */
module Registry {
  import opened Errors

  /** A module instance; the registry only stores it and hands it back. */
  type Module(==)

  /** The `modules` dictionary of an `Architect`. */
  type ModuleMap = map<string, Module>

  const NotAModuleMessage := "Module must be an instance of Module."

  function NotRegisteredMessage(name: string): (message: string) {
    "Module '" + name + "' not registered."
  }

  function NotFoundMessage(name: string): (message: string) {
    "Module '" + name + "' not found."
  }

  /*
   * The three dictionary operations as functions from the old map to the new
   * map (or to the exception raised, in which case the map stays as it was).
   */

  /** `register_module`: type check, then insert, silently replacing an old entry. */
  function Register(modules: ModuleMap, name: string, candidate: Candidate<Module>): (r: Result<ModuleMap>)
    ensures r.Err? <==> candidate.NotInstance?
    ensures r.Err? ==> r.error == ValueError(NotAModuleMessage)
    ensures r.Ok? ==> r.value.Keys == modules.Keys + {name} && r.value[name] == candidate.value
    ensures r.Ok? ==> forall k :: k in modules && k != name ==> r.value[k] == modules[k]
  {
    match candidate
    case NotInstance => Err(ValueError(NotAModuleMessage))
    case Instance(m) => Ok(modules[name := m])
  }

  /** `deregister_module`: `KeyError` for an absent name, otherwise delete that key. */
  function Deregister(modules: ModuleMap, name: string): (r: Result<ModuleMap>)
    ensures r.Err? <==> name !in modules
    ensures r.Err? ==> r.error == KeyError(NotRegisteredMessage(name))
    ensures r.Ok? ==> r.value.Keys == modules.Keys - {name}
    ensures r.Ok? ==> forall k :: k in r.value ==> r.value[k] == modules[k]
  {
    if name !in modules then Err(KeyError(NotRegisteredMessage(name))) else Ok(modules - {name})
  }

  /** `get_module`: `KeyError` for an absent name, otherwise the stored module. */
  function Lookup(modules: ModuleMap, name: string): (r: Result<Module>)
    ensures r.Err? <==> name !in modules
    ensures r.Err? ==> r.error == KeyError(NotFoundMessage(name))
    ensures r.Ok? ==> name in modules && modules[name] == r.value
  {
    if name !in modules then Err(KeyError(NotFoundMessage(name))) else Ok(modules[name])
  }

  /** Registering a name that was not registered, then deregistering it, gives back the original map. */
  lemma RegisterThenDeregister(modules: ModuleMap, name: string, m: Module)
    requires name !in modules
    ensures Register(modules, name, Instance(m)).Ok?
    ensures Deregister(Register(modules, name, Instance(m)).value, name) == Ok(modules)
  {
    var added := Register(modules, name, Instance(m)).value;
    var removed := Deregister(added, name).value;
    assert removed.Keys == modules.Keys;
    assert forall k :: k in removed ==> removed[k] == modules[k];
    assert removed == modules;
  }

  /** After registering a module under a name, looking the name up returns that module. */
  lemma RegisterThenLookup(modules: ModuleMap, name: string, m: Module)
    ensures Register(modules, name, Instance(m)).Ok?
    ensures Lookup(Register(modules, name, Instance(m)).value, name) == Ok(m)
  {
  }

  /**
   * Registering under a name that is already taken replaces the old module
   * rather than failing: the map keeps its size and lookups of other names are
   * unaffected.
   */
  lemma RegisterReplaces(modules: ModuleMap, name: string, m: Module, other: string)
    requires name in modules && other != name
    ensures Register(modules, name, Instance(m)).Ok?
    ensures |Register(modules, name, Instance(m)).value| == |modules|
    ensures Lookup(Register(modules, name, Instance(m)).value, other) == Lookup(modules, other)
  {
    var added := Register(modules, name, Instance(m)).value;
    assert added.Keys == modules.Keys;
  }

  /** Once deregistered, a name is not found, and every other name looks up as before. */
  lemma DeregisterThenLookup(modules: ModuleMap, name: string, other: string)
    requires name in modules && other != name
    ensures Deregister(modules, name).Ok?
    ensures Lookup(Deregister(modules, name).value, name) == Err(KeyError(NotFoundMessage(name)))
    ensures Lookup(Deregister(modules, name).value, other) == Lookup(modules, other)
  {
  }

  /** The orchestrating object: owns the `modules` dictionary and mutates it in place. */
  class Architect {
    var modules: ModuleMap

    /** `__init__`: starts with no modules. */
    constructor ()
      ensures modules == map[]
    {
      modules := map[];
    }

    /** `register_module`: on a failed type check the map is untouched. */
    method RegisterModule(name: string, candidate: Candidate<Module>) returns (outcome: Outcome)
      modifies this
      ensures match Register(old(modules), name, candidate)
              case Ok(next) => outcome == Pass && modules == next
              case Err(e) => outcome == Fail(e) && modules == old(modules)
    {
      if candidate.NotInstance? {
        return Fail(ValueError(NotAModuleMessage));
      }
      modules := modules[name := candidate.value];
      outcome := Pass;
    }

    /** `deregister_module`: on an absent name the map is untouched. */
    method DeregisterModule(name: string) returns (outcome: Outcome)
      modifies this
      ensures match Deregister(old(modules), name)
              case Ok(next) => outcome == Pass && modules == next
              case Err(e) => outcome == Fail(e) && modules == old(modules)
    {
      if name !in modules {
        return Fail(KeyError(NotRegisteredMessage(name)));
      }
      modules := modules - {name};
      outcome := Pass;
    }

    /** `get_module`: a read-only lookup. */
    method GetModule(name: string) returns (r: Result<Module>)
      ensures r == Lookup(modules, name)
    {
      if name !in modules {
        return Err(KeyError(NotFoundMessage(name)));
      }
      r := Ok(modules[name]);
    }

    /** `orchestrate`: only logs, so the registry is left as it was. */
    method Orchestrate()
      ensures modules == old(modules)
    {
    }
  }
}
