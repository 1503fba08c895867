/**
 * The schema manager of one connection: it picks the schema mapper
 * registered for the connection's class, builds each schema at most once
 * and keeps it in a per-name cache, and can enumerate every schema of the
 * connection. The mapper registry is shared by every manager and can be
 * extended at any time.
 */
module SchemaManagement {
  import opened Results
  import opened Metadata
  import Strings

  const MySqlConnection := "Illuminate\\Database\\MySqlConnection"
  const SqliteConnection := "Illuminate\\Database\\SQLiteConnection"
  const DoctrineMySqlConnection := "Larapack\\DoctrineSupport\\Connections\\MySqlConnection"
  const PostgresConnection := "Illuminate\\Database\\PostgresConnection"
  const MySqlSchema := "Pursehouse\\Modeler\\Meta\\MySql\\Schema"
  const SqliteSchema := "Pursehouse\\Modeler\\Meta\\Sqlite\\Schema"
  const PostgresSchema := "Pursehouse\\Modeler\\Meta\\Postgres\\Schema"

  /** The registry as it is before any registration. */
  function DefaultLookup(): (lookup: map<string, string>)
    ensures lookup.Keys == {MySqlConnection, SqliteConnection, DoctrineMySqlConnection, PostgresConnection}
    ensures lookup[DoctrineMySqlConnection] == lookup[MySqlConnection] == MySqlSchema
  {
    map[MySqlConnection := MySqlSchema,
        SqliteConnection := SqliteSchema,
        DoctrineMySqlConnection := MySqlSchema,
        PostgresConnection := PostgresSchema]
  }

  /** The message of the exception raised for an unsupported connection. */
  function NoMapperMessage(kind: string): string {
    "There is no Schema Mapper registered for [" + kind + "] connection."
  }

  /** The process-wide map from connection class to schema mapper class. */
  class Registry {
    var lookup: map<string, string>

    constructor ()
      ensures lookup == DefaultLookup()
    {
      lookup := DefaultLookup();
    }

    /** `register`: the last registration for a connection class wins, and
        no other entry changes. */
    method Register(connection: string, mapper: string)
      modifies this
      ensures lookup == old(lookup)[connection := mapper]
      ensures connection in lookup && lookup[connection] == mapper
      ensures forall c :: c in old(lookup) && c != connection ==> c in lookup && lookup[c] == old(lookup)[c]
    {
      lookup := lookup[connection := mapper];
    }
  }

  /** A schema as a mapper builds it: named, read once from the database. */
  class Schema {
    const name: string
    const mapper: string
    const blueprints: seq<Blueprint>

    constructor (mapper: string, name: string, connection: Connection)
      ensures this.name == name && this.mapper == mapper
      ensures blueprints == connection.catalog.tables(mapper, name)
    {
      this.name := name;
      this.mapper := mapper;
      this.blueprints := connection.catalog.tables(mapper, name);
    }
  }

  /** The schemas of `cache` under the given names, in that order. */
  function InOrder(cache: map<string, Schema>, order: seq<string>): seq<Schema>
    requires forall n :: n in order ==> n in cache
  {
    seq(|order|, i requires 0 <= i < |order| => cache[order[i]])
  }

  /** A cache as `make` keeps it: every name once, in insertion order, each
      schema holding the tables its mapper reads for its name, and each
      built by exactly one mapper invocation. */
  ghost predicate Coherent(catalog: Catalog, schemas: map<string, Schema>, order: seq<string>, builds: map<string, nat>) {
    && (forall n :: n in schemas <==> n in order)
    && (forall n :: n in schemas ==> schemas[n].name == n)
    && (forall n :: n in schemas ==> schemas[n].blueprints == catalog.tables(schemas[n].mapper, n))
    && (order == [] <==> schemas == map[])
    && (forall i, j :: 0 <= i < j < |order| ==> order[i] != order[j])
    && builds.Keys == schemas.Keys
    && (forall n :: n in builds ==> builds[n] == 1)
  }

  /** Caching a schema built for a new name keeps the cache coherent. */
  lemma CoherentAdd(catalog: Catalog, schemas: map<string, Schema>, order: seq<string>, builds: map<string, nat>, name: string, s: Schema)
    requires Coherent(catalog, schemas, order, builds) && name !in schemas
    requires s.name == name && s.blueprints == catalog.tables(s.mapper, name)
    ensures Coherent(catalog, schemas[name := s], order + [name], builds[name := 1])
  {
    var order' := order + [name];
    forall i, j | 0 <= i < j < |order'| ensures order'[i] != order'[j] {
      if j == |order| {
        assert order'[i] == order[i] && order[i] in schemas;
      }
    }
  }

  class SchemaManager {
    const connection: Connection
    const registry: Registry
    /** The cache, by schema name. */
    var schemas: map<string, Schema>
    /** The cached names in insertion order (the array order of the source). */
    var order: seq<string>
    /** How many times a mapper was invoked for each name. */
    ghost var builds: map<string, nat>

    ghost predicate Valid()
      reads this, registry
    {
      connection.kind in registry.lookup && Coherent(connection.catalog, schemas, order, builds)
    }

    /** The mapper class registered for this connection's class now. */
    function Mapper(): string
      reads registry
      requires connection.kind in registry.lookup
    {
      registry.lookup[connection.kind]
    }

    /** The cached schemas in insertion order. */
    function Cached(): seq<Schema>
      reads this
      requires forall n :: n in order ==> n in schemas
    {
      InOrder(schemas, order)
    }

    constructor (connection: Connection, registry: Registry)
      requires connection.kind in registry.lookup
      ensures Valid()
      ensures this.connection == connection && this.registry == registry
      ensures schemas == map[] && order == [] && builds == map[]
    {
      this.connection := connection;
      this.registry := registry;
      schemas := map[];
      order := [];
      builds := map[];
    }

    /** `__construct` with `boot`: fails, before any schema is read, iff no
        mapper is registered for the connection's class. */
    static method Open(connection: Connection, registry: Registry) returns (r: Result<SchemaManager, string>)
      ensures r.Failure? <==> connection.kind !in registry.lookup
      ensures r.Failure? ==> r.error == NoMapperMessage(connection.kind)
      ensures r.Success? ==> fresh(r.value) && r.value.Valid()
      ensures r.Success? ==> r.value.connection == connection && r.value.registry == registry
      ensures r.Success? ==> r.value.schemas == map[] && r.value.builds == map[]
    {
      if connection.kind !in registry.lookup {
        return Failure(NoMapperMessage(connection.kind));
      }
      var m := new SchemaManager(connection, registry);
      return Success(m);
    }

    /** `makeMapper`: builds a new schema with the registered mapper and
        counts the invocation. */
    method MakeMapper(name: string) returns (s: Schema)
      requires connection.kind in registry.lookup
      modifies this`builds
      ensures fresh(s) && s.name == name && s.mapper == Mapper()
      ensures s.blueprints == connection.catalog.tables(Mapper(), name)
      ensures builds == old(builds)[name := (if name in old(builds) then old(builds)[name] else 0) + 1]
    {
      s := new Schema(registry.lookup[connection.kind], name, connection);
      builds := builds[name := (if name in builds then builds[name] else 0) + 1];
    }

    /** `make`: a cached name returns the cached schema and invokes no
        mapper; a new name invokes the mapper once and caches the result
        under that name, leaving every other entry as it was. */
    method Make(name: string) returns (s: Schema)
      requires Valid()
      modifies this
      ensures Valid()
      ensures name in old(schemas) ==>
        && s == old(schemas)[name]
        && schemas == old(schemas) && order == old(order) && builds == old(builds)
      ensures name !in old(schemas) ==>
        && fresh(s) && s.name == name && s.mapper == Mapper()
        && s.blueprints == connection.catalog.tables(Mapper(), name)
        && schemas == old(schemas)[name := s] && order == old(order) + [name]
        && builds == old(builds)[name := 1]
      ensures name in schemas && schemas[name] == s
    {
      if name in schemas {
        return schemas[name];
      }
      ghost var before := builds;
      s := MakeMapper(name);
      CoherentAdd(connection.catalog, schemas, order, before, name, s);
      schemas := schemas[name := s];
      order := order + [name];
    }

    /** Two calls with the same name return the same object, and the second
        changes nothing. */
    method MakeTwice(name: string) returns (first: Schema, second: Schema)
      requires Valid()
      modifies this
      ensures Valid()
      ensures first == second
      ensures name in old(schemas) ==> builds == old(builds) && schemas == old(schemas)
      ensures name !in old(schemas) ==> builds == old(builds)[name := 1]
    {
      first := Make(name);
      ghost var between := schemas;
      second := Make(name);
      assert schemas == between;
    }

    /** `getIterator`: enumerates the connection's schemas through the
        mapper only when the cache is empty; otherwise yields just what is
        cached. Enumerated names are made in order, so duplicates collapse
        and the cache order is the order of first appearance. */
    method GetIterator() returns (all: seq<Schema>)
      requires Valid()
      modifies this
      ensures Valid()
      ensures old(schemas) != map[] ==> schemas == old(schemas) && order == old(order) && builds == old(builds)
      ensures old(schemas) == map[] ==> order == Strings.Unique(connection.catalog.schemaNames(Mapper()))
      ensures old(schemas) == map[] ==> MappedBy(schemas, Mapper())
      ensures all == Cached()
      ensures forall i :: 0 <= i < |all| ==> all[i].blueprints == connection.catalog.tables(all[i].mapper, all[i].name)
    {
      if schemas == map[] {
        var names := connection.catalog.schemaNames(registry.lookup[connection.kind]);
        MakeAll(names);
      }
      all := Cached();
      CachedHoldCatalogTables(this);
    }

    /** The enumeration loop of `getIterator`: makes every name in turn, so
        the cache holds each distinct name once, in order of first
        appearance, built by the registered mapper. */
    method MakeAll(names: seq<string>)
      requires Valid() && schemas == map[]
      modifies this
      ensures Valid()
      ensures order == Strings.Unique(names)
      ensures MappedBy(schemas, Mapper())
    {
      assert order == [];
      var mapper := Mapper();
      for i := 0 to |names|
        invariant Valid()
        invariant order == Strings.Unique(names[..i])
        invariant MappedBy(schemas, mapper)
      {
        MakeNext(names, i, mapper);
      }
      assert names[..|names|] == names;
    }

    /** One round of the enumeration loop: making the next name extends
        the first-appearance order by it. */
    method MakeNext(names: seq<string>, i: nat, mapper: string)
      requires Valid() && i < |names| && mapper == Mapper()
      requires order == Strings.Unique(names[..i])
      requires MappedBy(schemas, mapper)
      modifies this
      ensures Valid()
      ensures order == Strings.Unique(names[..i + 1])
      ensures MappedBy(schemas, mapper)
    {
      ghost var next := if names[i] in schemas then order else order + [names[i]];
      assert next == Strings.Unique(names[..i + 1]) by {
        Strings.TakeSnoc(names, i);
        Strings.UniqueSnoc(names[..i], names[i]);
      }
      ghost var before := schemas;
      var s := Make(names[i]);
      MappedByAdd(before, names[i], s, mapper);
      assert schemas == before[names[i] := s];
    }
  }

  /** Every schema in the cache was built by `mapper`. */
  ghost predicate MappedBy(schemas: map<string, Schema>, mapper: string) {
    forall n :: n in schemas ==> schemas[n].mapper == mapper
  }

  /** Adding a schema built by `mapper` keeps every schema built by it. */
  lemma MappedByAdd(schemas: map<string, Schema>, name: string, s: Schema, mapper: string)
    requires MappedBy(schemas, mapper) && s.mapper == mapper
    ensures MappedBy(schemas[name := s], mapper)
  {
  }

  /** Every cached schema holds the tables its mapper reads for its name,
      so iterating over the cache yields the catalog's tables. */
  lemma CachedHoldCatalogTables(sm: SchemaManager)
    requires sm.Valid()
    ensures forall i :: 0 <= i < |sm.Cached()| ==>
      sm.Cached()[i].name == sm.order[i]
      && sm.Cached()[i].blueprints == sm.connection.catalog.tables(sm.Cached()[i].mapper, sm.order[i])
  {
    forall i | 0 <= i < |sm.Cached()|
      ensures sm.Cached()[i].name == sm.order[i]
      ensures sm.Cached()[i].blueprints == sm.connection.catalog.tables(sm.Cached()[i].mapper, sm.order[i])
    {
      assert sm.order[i] in sm.schemas;
    }
  }
}
