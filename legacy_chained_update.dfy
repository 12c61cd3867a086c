/**
 * seal/db/base_chained_update.py: the older chained UPDATE/DELETE/INSERT builder over an
 * entity class. Its where-list and `update_statement` are those of the newer builder; its
 * entity statements always work on an entity, and its INSERT has no upsert. The current
 * user id and the clock are parameters (`uid`, `now`).
 */
module LegacyChainedUpdates {
  import opened Wrappers
  import opened Errors
  import opened Text
  import opened Values
  import opened Conditions
  import opened OrderedMaps
  import opened WhereLists
  import opened ChainedUpdates
  import SqlBuilder

  /** `INSERT INTO t (a, b) VALUES (p, p)` */
  function EntityInsertText(table: string, cols: seq<string>, placeholder: string): string
  {
    "INSERT INTO " + table + ValuesText(cols, placeholder)
  }

  class LegacyChainedUpdate {
    const table: string
    /** The entity class's `columns()`. */
    const modelColumns: seq<string>
    const placeholder: string
    var where: seq<Condition>
    var sets: Pairs<string, Value>

    predicate Valid()
      reads this
    {
      |where| > 0 && DistinctKeys(sets)
    }

    constructor (table: string, modelColumns: seq<string>, placeholder: string, logicDeleteCol: Option<string> := None)
      ensures this.table == table && this.modelColumns == modelColumns && this.placeholder == placeholder
      ensures where == Seed(logicDeleteCol) && sets == []
      ensures Valid()
    {
      this.table, this.modelColumns, this.placeholder := table, modelColumns, placeholder;
      where := Seed(logicDeleteCol);
      sets := [];
    }

    /** `eq` … `like`: one triple appended to the where-list. */
    method Compare(k: Comparison, col: string, value: Value) returns (self: LegacyChainedUpdate)
      requires Valid()
      modifies this
      ensures Valid() && self == this
      ensures where == old(where) + [Conditions.Compare(k, col, value)] && sets == old(sets)
    {
      where := where + [Conditions.Compare(k, col, value)];
      self := this;
    }

    /** `set(**sets)`: replaces the whole map. */
    method Set(given: Pairs<string, Value>) returns (self: LegacyChainedUpdate)
      requires Valid() && DistinctKeys(given)
      modifies this
      ensures Valid() && self == this
      ensures sets == given && where == old(where)
    {
      sets := given;
      self := this;
    }

    /** `delete_statement`: its guard cannot fire, since the where-list is never empty. */
    function DeleteStatement(): (r: Result<SqlBuilder.Statement, Error>)
      reads this
      ensures Valid() ==> r.Ok?
      ensures r.Ok? ==> r.value == SqlBuilder.Statement("DELETE FROM " + table + " " + BuildWhere(where, placeholder), BuildArgs(where))
    {
      if BuildWhere(where, placeholder) == "" then Err(ConditionsRequired)
      else Ok(SqlBuilder.Statement("DELETE FROM " + table + " " + BuildWhere(where, placeholder), BuildArgs(where)))
    }

    /** `update_statement`: stamps the sets in place, then renders them and the where-list. */
    method UpdateStatement(uid: Value, now: Value) returns (r: Result<SqlBuilder.Statement, Error>)
      requires Valid()
      modifies this
      ensures Valid() && where == old(where)
      ensures var u := WhereLists.UpdateStatement(table, old(sets), where, placeholder, uid, now);
              && (u.Ok? ==> sets == u.value.1 && r == Ok(u.value.0))
              && (u.Err? ==> sets == old(sets) && r == Err(u.error))
      ensures |old(sets)| > 0 <==> r.Ok?
    {
      var u := WhereLists.UpdateStatement(table, sets, where, placeholder, uid, now);
      if u.Err? {
        return Err(u.error);
      }
      StampedDistinct(sets, uid, now);
      sets := u.value.1;
      r := Ok(u.value.0);
    }

    /**
     * `update_entity_statement`: the entity is stamped with `update_by` (even a None user)
     * and `update_at`; every non-id column is set and the row is chosen by its id.
     */
    function UpdateEntityStatement(entity: Record, uid: Value, now: Value): (r: Result<SqlBuilder.Statement, Error>)
      reads this
      ensures var stamped := entity["update_by" := uid]["update_at" := now];
              var cols := NonIdColumns(modelColumns);
              && (r.Ok? <==> (forall c | c in cols :: c in stamped) && "id" in stamped)
              && (r.Ok? ==>
                    && r.value.sql == "UPDATE " + table + " SET " + Join(Assignments(cols, placeholder), ", ") + " where id = " + placeholder
                    && |r.value.args| == |cols| + 1
                    && (forall i | 0 <= i < |cols| :: r.value.args[i] == stamped[cols[i]])
                    && r.value.args[|cols|] == stamped["id"])
    {
      var stamped := entity["update_by" := uid]["update_at" := now];
      var cols := NonIdColumns(modelColumns);
      match SqlBuilder.Attributes(stamped, cols)
      case Err(e) => Err(e)
      case Ok(vals) =>
        if "id" !in stamped then Err(MissingAttribute("id"))
        else Ok(SqlBuilder.Statement("UPDATE " + table + " SET " + Join(Assignments(cols, placeholder), ", ") + " where id = " + placeholder,
                                     vals + [stamped["id"]]))
    }

    /**
     * `insert_entity_statement`: the entity is stamped with `deleted = 0`, `create_by` and
     * `create_at`, then every non-id column is inserted.
     */
    function InsertEntityStatement(entity: Record, uid: Value, now: Value): (r: Result<SqlBuilder.Statement, Error>)
      reads this
      ensures var stamped := entity["deleted" := Int(0)]["create_by" := uid]["create_at" := now];
              var cols := NonIdColumns(modelColumns);
              && (r.Ok? <==> forall c | c in cols :: c in stamped)
              && (r.Ok? ==> r.value.sql == EntityInsertText(table, cols, placeholder)
                            && SqlBuilder.Attributes(stamped, cols) == Ok(r.value.args))
    {
      var stamped := entity["deleted" := Int(0)]["create_by" := uid]["create_at" := now];
      var cols := NonIdColumns(modelColumns);
      match SqlBuilder.Attributes(stamped, cols)
      case Err(e) => Err(e)
      case Ok(vals) => Ok(SqlBuilder.Statement(EntityInsertText(table, cols, placeholder), vals))
    }

    /** `insert_bulk_statement`: the newer builder's text without upsert, one `?` per non-id column. */
    function InsertBulkStatement(ignore: bool := false): (s: string)
      reads this
      ensures placeholder == "?" && Occurrences(table, '?') == 0 && (forall c | c in modelColumns :: Occurrences(c, '?') == 0) ==>
        Occurrences(s, '?') == |NonIdColumns(modelColumns)|
    {
      InsertTextMarks(table, modelColumns, ignore, false);
      InsertText(table, NonIdColumns(modelColumns), placeholder, ignore, false)
    }
  }

  /** An inserted entity always carries the stamps: it is marked not deleted. */
  lemma InsertedEntityNotDeleted(q: LegacyChainedUpdate, entity: Record, uid: Value, now: Value)
    requires "deleted" in q.modelColumns
    requires q.InsertEntityStatement(entity, uid, now).Ok?
    ensures var cols := NonIdColumns(q.modelColumns);
            exists i | 0 <= i < |cols| :: cols[i] == "deleted" && q.InsertEntityStatement(entity, uid, now).value.args[i] == Int(0)
  {
    var cols := NonIdColumns(q.modelColumns);
    assert "deleted" in cols;
    var i :| 0 <= i < |cols| && cols[i] == "deleted";
    var stamped := entity["deleted" := Int(0)]["create_by" := uid]["create_at" := now];
    assert stamped["deleted"] == Int(0);
  }

  /** With `?` as the placeholder, the entity INSERT has one `?` per argument. */
  lemma InsertEntityPlaceholders(q: LegacyChainedUpdate, entity: Record, uid: Value, now: Value)
    requires q.placeholder == "?" && Occurrences(q.table, '?') == 0
    requires forall c | c in q.modelColumns :: Occurrences(c, '?') == 0
    requires q.InsertEntityStatement(entity, uid, now).Ok?
    ensures var st := q.InsertEntityStatement(entity, uid, now).value;
            Occurrences(st.sql, '?') == |st.args|
  {
    var cols := NonIdColumns(q.modelColumns);
    NoneInParts(cols, '?');
    ValuesTextMarks(cols);
    NoOccurrence("INSERT INTO ", '?');
    OccurrencesAppend("INSERT INTO ", q.table, '?');
    OccurrencesAppend("INSERT INTO " + q.table, ValuesText(cols, "?"), '?');
  }

  /** With `?` as the placeholder, the entity UPDATE has one `?` per argument. */
  lemma UpdateEntityPlaceholders(q: LegacyChainedUpdate, entity: Record, uid: Value, now: Value)
    requires q.placeholder == "?" && Occurrences(q.table, '?') == 0
    requires forall c | c in q.modelColumns :: Occurrences(c, '?') == 0
    requires q.UpdateEntityStatement(entity, uid, now).Ok?
    ensures var st := q.UpdateEntityStatement(entity, uid, now).value;
            Occurrences(st.sql, '?') == |st.args|
  {
    var cols := NonIdColumns(q.modelColumns);
    NoneInParts(cols, '?');
    ByIdTextMarks(q.table, cols);
  }
}
