/**
 * seal/db/structures.py: the registry of table structures, keyed first by the string
 * `data_source + '.' + database` (a None database counts as `''`) and then by table.
 */
module Structures {
  import opened Wrappers

  /** `f'{data_source}.{database}'`, with None as the empty database. */
  function Key(dataSource: string, database: Option<string>): string
  {
    dataSource + "." + database.GetOr("")
  }

  type Registry<S> = map<string, map<string, S>>

  /** `register` on the registry's value: the table's entry under its key is set. */
  function Registered<S>(d: Registry<S>, dataSource: string, database: Option<string>, table: string, structure: S): Registry<S>
  {
    var key := Key(dataSource, database);
    var tables := if key in d then d[key] else map[];
    d[key := tables[table := structure]]
  }

  /** `get` on the registry's value: None for an unknown key or table. */
  function Lookup<S>(d: Registry<S>, dataSource: string, database: Option<string>, table: string): (r: Option<S>)
    ensures r.Some? <==> Key(dataSource, database) in d && table in d[Key(dataSource, database)]
    ensures r.Some? ==> r.value == d[Key(dataSource, database)][table]
  {
    var key := Key(dataSource, database);
    if key !in d then None
    else if table !in d[key] then None
    else Some(d[key][table])
  }

  /**
   * What `get` returns after `register`: the registered structure for the same triple, and
   * for any other triple what it returned before, unless that triple names the same key
   * and table.
   */
  lemma RegisterThenLookup<S>(d: Registry<S>, ds: string, db: Option<string>, table: string, s: S,
                              ds': string, db': Option<string>, table': string)
    ensures Lookup(Registered(d, ds, db, table, s), ds, db, table) == Some(s)
    ensures Key(ds', db') != Key(ds, db) || table' != table ==>
              Lookup(Registered(d, ds, db, table, s), ds', db', table') == Lookup(d, ds', db', table')
  {
  }

  /** A None database and the empty database name the same entries. */
  lemma NoneIsEmptyDatabase<S>(d: Registry<S>, ds: string, table: string)
    ensures Lookup(d, ds, None, table) == Lookup(d, ds, Some(""), table)
  {
  }

  /**
   * Keys are plain concatenations, so data source `a.b` with database `c` and data source
   * `a` with database `b.c` share one table map.
   */
  lemma KeysCollide<S>(d: Registry<S>, table: string, s: S)
    ensures Key("a.b", Some("c")) == Key("a", Some("b.c"))
    ensures Lookup(Registered(d, "a.b", Some("c"), table, s), "a", Some("b.c"), table) == Some(s)
  {
    assert Key("a.b", Some("c")) == "a.b.c" == Key("a", Some("b.c"));
  }

  /** `Structures` */
  class StructureRegistry<S> {
    /** `structure_dict` */
    var structureDict: Registry<S>

    constructor ()
      ensures structureDict == map[]
    {
      structureDict := map[];
    }

    /** `register` */
    method Register(dataSource: string, database: Option<string>, table: string, structure: S)
      modifies this
      ensures structureDict == Registered(old(structureDict), dataSource, database, table, structure)
      ensures Get(dataSource, database, table) == Some(structure)
    {
      var key := Key(dataSource, database);
      if key !in structureDict {
        structureDict := structureDict[key := map[]];
      }
      structureDict := structureDict[key := structureDict[key][table := structure]];
    }

    /** `get` */
    function Get(dataSource: string, database: Option<string>, table: string): (r: Option<S>)
      reads this
      ensures r.Some? <==> Key(dataSource, database) in structureDict && table in structureDict[Key(dataSource, database)]
      ensures r.Some? ==> r.value == structureDict[Key(dataSource, database)][table]
    {
      Lookup(structureDict, dataSource, database, table)
    }
  }
}
