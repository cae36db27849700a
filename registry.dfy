/**
 * The registry of named middleware factories (registry.go). A factory
 * builds a handler from a configuration map, or fails with an error.
 */
module Registries {

  import opened Wrappers
  import opened Contexts
  import opened Middlewares

  type Config = map<string, Value>

  /** What a factory returns: Go's `(Handler, error)`. */
  datatype Built = Built(handler: Handler) | BuildError(reason: string)

  type Factory = Config -> Built

  class Registry {
    /** `None` is the nil map of a zero-value `Registry`. */
    var factories: Option<map<string, Factory>>

    /** `NewRegistry`: an allocated, empty registry. */
    constructor ()
      ensures factories == Some(map[])
    {
      factories := Some(map[]);
    }

    /** A zero-value `Registry{}`, whose map is still nil. */
    constructor Zero()
      ensures factories == None
    {
      factories := None;
    }

    /** The registered factories by name; a nil map has none. */
    function Registered(): map<string, Factory>
      reads this
    {
      if factories.None? then map[] else factories.value
    }

    /** Registers `factory` under `name`, silently replacing any factory
        registered under that name before, and allocating the map of a
        zero-value registry first. */
    method Register(name: string, factory: Factory)
      modifies this
      ensures factories.Some?
      ensures Registered() == old(Registered())[name := factory]
    {
      if factories.None? {
        factories := Some(map[]);
      }
      factories := Some(factories.value[name := factory]);
    }

    /** Looks a factory up by name. */
    method Get(name: string) returns (factory: Option<Factory>)
      ensures factory.Some? <==> name in Registered()
      ensures factory.Some? ==> factory.value == Registered()[name]
    {
      if factories.Some? && name in factories.value {
        factory := Some(factories.value[name]);
      } else {
        factory := None;
      }
    }
  }

  /** A new registry knows no name. */
  method NewRegistryIsEmpty(name: string) returns (factory: Option<Factory>)
    ensures factory == None
  {
    var r := new Registry();
    factory := r.Get(name);
  }

  /** What was registered last under a name is what a lookup finds, on an
      allocated or a zero-value registry alike; other names keep their
      factories. */
  method RegisterThenGet(r: Registry, name: string, factory: Factory, other: string)
    returns (found: Option<Factory>, otherFound: Option<Factory>)
    modifies r
    ensures found == Some(factory)
    ensures other != name ==> otherFound == (if other in old(r.Registered()) then Some(old(r.Registered())[other]) else None)
  {
    r.Register(name, factory);
    found := r.Get(name);
    otherFound := r.Get(other);
  }

  /** Registering a name twice keeps the second factory and reports no
      error. */
  method RegisterOverwrites(name: string, first: Factory, second: Factory) returns (found: Option<Factory>)
    ensures found == Some(second)
  {
    var r := new Registry.Zero();
    r.Register(name, first);
    r.Register(name, second);
    found := r.Get(name);
  }
}
