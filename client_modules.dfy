/** The client's schema module registry (client/client.go, `client.module`): modules are
    loaded on first reference and kept for the lifetime of the connection. Parsing a module
    (`parser.LoadModule`) is not part of this model: the caller passes the outcome the loader
    would give. */
module ClientModules {
  import opened Wrappers
  import opened Restconf

  /** A parsed schema module. */
  datatype SchemaModule = SchemaModule(ident: string)

  class Client {
    var modules: map<string, SchemaModule>
    /** The names handed to the loader, in order. */
    ghost var loads: seq<string>

    /** `NewDevice` fills the registry with the modules the server's library lists. */
    constructor (known: map<string, SchemaModule>)
      ensures modules == known && loads == []
    {
      modules := known;
      loads := [];
    }

    /** `c.module(name)`: a cached module is returned without loading; on a miss the loader
        runs once, a loaded module is added under exactly that name, and a failed load leaves
        the registry as it was. No entry is ever removed or replaced. */
    method Module(name: string, load: Result<SchemaModule, Error>) returns (r: Result<SchemaModule, Error>)
      modifies this
      ensures name in old(modules) ==>
                r == Success(old(modules)[name]) && modules == old(modules) && loads == old(loads)
      ensures name !in old(modules) ==> r == load && loads == old(loads) + [name]
      ensures name !in old(modules) && load.Success? ==> modules == old(modules)[name := load.value]
      ensures name !in old(modules) && load.Failure? ==> modules == old(modules)
      ensures r.Success? ==> name in modules && modules[name] == r.value
      ensures forall n :: n in old(modules) ==> n in modules && modules[n] == old(modules)[n]
    {
      if name in modules {
        return Success(modules[name]);
      }
      loads := loads + [name];
      if load.Failure? {
        return Failure(load.error);
      }
      modules := modules[name := load.value];
      r := Success(load.value);
    }
  }

  /** Asking twice for the same module loads it at most once. */
  method ModuleTwice(c: Client, name: string, first: Result<SchemaModule, Error>,
                     second: Result<SchemaModule, Error>) returns (a: Result<SchemaModule, Error>, b: Result<SchemaModule, Error>)
    modifies c
    ensures a.Success? ==> b == a && |c.loads| <= |old(c.loads)| + 1
  {
    a := c.Module(name, first);
    b := c.Module(name, second);
  }
}
