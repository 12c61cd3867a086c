/**
 * seal/db/_base_chained_update.py: a chained UPDATE/DELETE/INSERT builder over a flat
 * where-list seeded with the not-deleted predicate, with a map of columns to set. The
 * current user id and the clock are parameters (`uid`, `now`).
 */
module ChainedUpdates {
  import opened Wrappers
  import opened Errors
  import opened Text
  import opened Values
  import opened Conditions
  import opened OrderedMaps
  import opened WhereLists
  import SqlBuilder

  /** A record handed to the builder: a pydantic entity (mutable) or a named tuple (immutable). */
  datatype RecordKind = Entity | NamedTuple

  /**
   * `update_by_pk_statement`'s stamping: an entity gets `update_by` and `update_at`; a named
   * tuple cannot be assigned, so one that has either field raises.
   */
  function StampForUpdate(kind: RecordKind, record: Record, uid: Value, now: Value): (r: Result<Record, Error>)
    ensures kind == Entity ==> r.Ok? && "update_by" in r.value && "update_at" in r.value && r.value["update_by"] == uid && r.value["update_at"] == now
    ensures kind == Entity ==> forall f | f in record && f != "update_by" && f != "update_at" :: f in r.value && r.value[f] == record[f]
    ensures kind == Entity ==> r.value.Keys == record.Keys + {"update_by", "update_at"}
    ensures kind == NamedTuple ==> (r.Ok? <==> "update_by" !in record && "update_at" !in record)
    ensures kind == NamedTuple && r.Ok? ==> r.value == record
  {
    if kind == Entity then Ok(record["update_by" := uid]["update_at" := now])
    else if "update_by" in record then Err(CannotSetAttribute("update_by"))
    else if "update_at" in record then Err(CannotSetAttribute("update_at"))
    else Ok(record)
  }

  /**
   * `insert_statement`'s stamping: an entity gets `deleted = 0`, `create_by` and
   * `create_at`; a named tuple that has any of these fields raises.
   */
  function StampForInsert(kind: RecordKind, record: Record, uid: Value, now: Value): (r: Result<Record, Error>)
    ensures kind == Entity ==> r.Ok? && "deleted" in r.value && "create_by" in r.value && "create_at" in r.value
    ensures kind == Entity ==> r.value["deleted"] == Int(0) && r.value["create_by"] == uid && r.value["create_at"] == now
    ensures kind == Entity ==> forall f | f in record && f != "deleted" && f != "create_by" && f != "create_at" :: f in r.value && r.value[f] == record[f]
    ensures kind == Entity ==> r.value.Keys == record.Keys + {"deleted", "create_by", "create_at"}
    ensures kind == NamedTuple ==> (r.Ok? <==> "deleted" !in record && "create_by" !in record && "create_at" !in record)
    ensures kind == NamedTuple && r.Ok? ==> r.value == record
  {
    if kind == Entity then Ok(record["deleted" := Int(0)]["create_by" := uid]["create_at" := now])
    else if "deleted" in record then Err(CannotSetAttribute("deleted"))
    else if "create_by" in record then Err(CannotSetAttribute("create_by"))
    else if "create_at" in record then Err(CannotSetAttribute("create_at"))
    else Ok(record)
  }

  /** `insert_statement`'s text as written: the upsert keyword runs straight into the first column. */
  function InsertTextAsWritten(table: string, cols: seq<string>, placeholder: string, ignore: bool, dupUpdate: bool): (s: string)
    ensures !dupUpdate ==> s == InsertText(table, cols, placeholder, ignore, false)
    ensures dupUpdate ==> |s| + 1 == |InsertText(table, cols, placeholder, ignore, true)|
  {
    SqlBuilder.InsertHead(ignore) + table + ValuesText(cols, placeholder)
      + (if dupUpdate then " ON DUPLICATE KEY UPDATE" + Join(Assignments(cols, placeholder), ", ") else "")
  }

  /**
   * Under upsert the written text is one character shorter than the bulk statement's text for
   * the same columns (the missing space), so for one column `a` it reads `UPDATEa = ?`.
   */
  lemma InsertTextMissesSpace(table: string, cols: seq<string>, placeholder: string, ignore: bool)
    ensures |InsertTextAsWritten(table, cols, placeholder, ignore, true)| + 1 == |InsertText(table, cols, placeholder, ignore, true)|
    ensures InsertTextAsWritten(table, cols, placeholder, ignore, true) != InsertText(table, cols, placeholder, ignore, true)
    ensures InsertTextAsWritten(table, cols, placeholder, ignore, false) == InsertText(table, cols, placeholder, ignore, false)
  {
  }

  class ChainedUpdate {
    const table: string
    /** The model's columns: the entity's `columns()` or the named tuple's `_fields`. */
    const modelColumns: seq<string>
    const placeholder: string
    var where: seq<Condition>
    var sets: Pairs<string, Value>

    /** The where-list never empties and the sets are a dict. */
    predicate Valid()
      reads this
    {
      |where| > 0 && DistinctKeys(sets)
    }

    constructor (table: string, modelColumns: seq<string>, placeholder: string, logicDeleteCol: Option<string> := None)
      ensures this.table == table && this.modelColumns == modelColumns && this.placeholder == placeholder
      ensures where == Seed(logicDeleteCol) && sets == []
      ensures Valid()
    {
      this.table, this.modelColumns, this.placeholder := table, modelColumns, placeholder;
      where := Seed(logicDeleteCol);
      sets := [];
    }

    /** `eq` … `like`: one triple appended to the where-list. */
    method Compare(k: Comparison, col: string, value: Value) returns (self: ChainedUpdate)
      requires Valid()
      modifies this
      ensures Valid() && self == this
      ensures where == old(where) + [Conditions.Compare(k, col, value)] && sets == old(sets)
    {
      where := where + [Conditions.Compare(k, col, value)];
      self := this;
    }

    /** `set(**sets)`: replaces the whole map. */
    method Set(given: Pairs<string, Value>) returns (self: ChainedUpdate)
      requires Valid() && DistinctKeys(given)
      modifies this
      ensures Valid() && self == this
      ensures sets == given && where == old(where)
    {
      sets := given;
      self := this;
    }

    /** `delete_statement`: its guard cannot fire, since the where-list is never empty. */
    function DeleteStatement(): (r: Result<SqlBuilder.Statement, Error>)
      reads this
      ensures Valid() ==> r.Ok?
      ensures r.Ok? ==> r.value == SqlBuilder.Statement("DELETE FROM " + table + " " + BuildWhere(where, placeholder), BuildArgs(where))
    {
      if BuildWhere(where, placeholder) == "" then Err(ConditionsRequired)
      else Ok(SqlBuilder.Statement("DELETE FROM " + table + " " + BuildWhere(where, placeholder), BuildArgs(where)))
    }

    /** `update_statement`: stamps the sets in place, then renders them and the where-list. */
    method UpdateStatement(uid: Value, now: Value) returns (r: Result<SqlBuilder.Statement, Error>)
      requires Valid()
      modifies this
      ensures Valid() && where == old(where)
      ensures var u := WhereLists.UpdateStatement(table, old(sets), where, placeholder, uid, now);
              && (u.Ok? ==> sets == u.value.1 && r == Ok(u.value.0))
              && (u.Err? ==> sets == old(sets) && r == Err(u.error))
      ensures |old(sets)| > 0 <==> r.Ok?
    {
      var u := WhereLists.UpdateStatement(table, sets, where, placeholder, uid, now);
      if u.Err? {
        return Err(u.error);
      }
      StampedDistinct(sets, uid, now);
      sets := u.value.1;
      r := Ok(u.value.0);
    }

    /**
     * `update_by_pk_statement`: None is refused; every non-id column is set and the row is
     * chosen by its id, which is the last argument.
     */
    function UpdateByPkStatement(kind: RecordKind, record: Option<Record>, uid: Value, now: Value): (r: Result<SqlBuilder.Statement, Error>)
      reads this
      ensures record.None? ==> r == Err(NullData)
      ensures r.Ok? <==> record.Some? && StampForUpdate(kind, record.value, uid, now).Ok?
                         && (forall c | c in NonIdColumns(modelColumns) :: c in StampForUpdate(kind, record.value, uid, now).value)
                         && "id" in StampForUpdate(kind, record.value, uid, now).value
      ensures r.Ok? ==>
        var stamped := StampForUpdate(kind, record.value, uid, now).value;
        var cols := NonIdColumns(modelColumns);
        && r.value.sql == "UPDATE " + table + " SET " + Join(Assignments(cols, placeholder), ", ") + " where id = " + placeholder
        && |r.value.args| == |cols| + 1
        && (forall i | 0 <= i < |cols| :: cols[i] in stamped) && "id" in stamped
        && (forall i | 0 <= i < |cols| :: r.value.args[i] == stamped[cols[i]])
        && r.value.args[|cols|] == stamped["id"]
    {
      if record.None? then Err(NullData)
      else match StampForUpdate(kind, record.value, uid, now)
        case Err(e) => Err(e)
        case Ok(stamped) =>
          var cols := NonIdColumns(modelColumns);
          match SqlBuilder.Attributes(stamped, cols)
          case Err(e) => Err(e)
          case Ok(vals) =>
            if "id" !in stamped then Err(MissingAttribute("id"))
            else Ok(SqlBuilder.Statement("UPDATE " + table + " SET " + Join(Assignments(cols, placeholder), ", ") + " where id = " + placeholder,
                                         vals + [stamped["id"]]))
    }

    /**
     * `insert_statement`: None is refused; one placeholder per non-id column, OR IGNORE only
     * when asked, and under upsert the assignments follow with the arguments doubled.
     */
    function InsertStatement(kind: RecordKind, record: Option<Record>, uid: Value, now: Value,
                             ignore: bool := false, dupUpdate: bool := false): (r: Result<SqlBuilder.Statement, Error>)
      reads this
      ensures record.None? ==> r == Err(NullData)
      ensures r.Ok? <==> record.Some? && StampForInsert(kind, record.value, uid, now).Ok?
                         && SqlBuilder.InsertArgs(StampForInsert(kind, record.value, uid, now).value, NonIdColumns(modelColumns), dupUpdate).Ok?
      ensures r.Err? && record.Some? && StampForInsert(kind, record.value, uid, now).Ok? ==> r.error.MissingAttribute?
      ensures r.Ok? ==>
        && r.value.sql == InsertBulkStatement(ignore, dupUpdate)
        && Ok(r.value.args) == SqlBuilder.InsertArgs(StampForInsert(kind, record.value, uid, now).value, NonIdColumns(modelColumns), dupUpdate)
    {
      if record.None? then Err(NullData)
      else match StampForInsert(kind, record.value, uid, now)
        case Err(e) => Err(e)
        case Ok(stamped) =>
          var cols := NonIdColumns(modelColumns);
          match SqlBuilder.InsertArgs(stamped, cols, dupUpdate)
          case Err(e) => Err(e)
          case Ok(args) => Ok(SqlBuilder.Statement(InsertText(table, cols, placeholder, ignore, dupUpdate), args))
    }

    /**
     * `insert_bulk_statement`: the text alone, for the executor's `executemany`. With `?` as
     * the placeholder it holds one marker per non-id column, twice that under upsert, so
     * each record's `InsertArgs` fills it.
     */
    function InsertBulkStatement(ignore: bool := false, dupUpdate: bool := false): (s: string)
      reads this
      ensures placeholder == "?" && Occurrences(table, '?') == 0 && (forall c | c in modelColumns :: Occurrences(c, '?') == 0) ==>
        Occurrences(s, '?') == (if dupUpdate then 2 else 1) * |NonIdColumns(modelColumns)|
    {
      InsertTextMarks(table, modelColumns, ignore, dupUpdate);
      InsertText(table, NonIdColumns(modelColumns), placeholder, ignore, dupUpdate)
    }
  }

  /**
   * With `?` as the placeholder and no `?` in the table or column names, the single-record
   * INSERT has exactly one `?` per argument, upsert or not.
   */
  lemma InsertStatementPlaceholders(q: ChainedUpdate, kind: RecordKind, record: Option<Record>, uid: Value, now: Value,
                                    ignore: bool, dupUpdate: bool)
    requires q.placeholder == "?" && Occurrences(q.table, '?') == 0
    requires forall c | c in q.modelColumns :: Occurrences(c, '?') == 0
    requires q.InsertStatement(kind, record, uid, now, ignore, dupUpdate).Ok?
    ensures var st := q.InsertStatement(kind, record, uid, now, ignore, dupUpdate).value;
            Occurrences(st.sql, '?') == |st.args|
  {
    var cols := NonIdColumns(q.modelColumns);
    NoneInParts(cols, '?');
    InsertTextPlaceholders(q.table, cols, ignore, dupUpdate);
  }

  /** The same for `update_by_pk_statement`: one `?` per non-id column and one for the id. */
  lemma UpdateByPkPlaceholders(q: ChainedUpdate, kind: RecordKind, record: Option<Record>, uid: Value, now: Value)
    requires q.placeholder == "?" && Occurrences(q.table, '?') == 0
    requires forall c | c in q.modelColumns :: Occurrences(c, '?') == 0
    requires q.UpdateByPkStatement(kind, record, uid, now).Ok?
    ensures var st := q.UpdateByPkStatement(kind, record, uid, now).value;
            Occurrences(st.sql, '?') == |st.args|
  {
    var cols := NonIdColumns(q.modelColumns);
    NoneInParts(cols, '?');
    ByIdTextMarks(q.table, cols);
  }

  lemma ByIdTextMarks(table: string, cols: seq<string>)
    requires Occurrences(table, '?') == 0 && TotalOccurrences(cols, '?') == 0
    ensures Occurrences("UPDATE " + table + " SET " + Join(Assignments(cols, "?"), ", ") + " where id = " + "?", '?') == |cols| + 1
  {
    var list := Join(Assignments(cols, "?"), ", ");
    var head := "UPDATE " + table + " SET ";
    AssignmentListMarks(cols);
    UpdateHeadMarks(table);
    WhereIdFree();
    SqlBuilder.MarkCounts();
    OccurrencesAppend(head, list, '?');
    OccurrencesAppend(head + list, " where id = ", '?');
    OccurrencesAppend(head + list + " where id = ", "?", '?');
  }

  lemma UpdateHeadMarks(table: string)
    requires Occurrences(table, '?') == 0
    ensures Occurrences("UPDATE " + table + " SET ", '?') == 0
  {
    UpdateWordsFree();
    OccurrencesAppend("UPDATE ", table, '?');
    OccurrencesAppend("UPDATE " + table, " SET ", '?');
  }

  lemma WhereIdFree()
    ensures Occurrences(" where id = ", '?') == 0
  {
    NoOccurrence(" where id = ", '?');
  }

  /** OR IGNORE appears right after INSERT exactly when it is asked for. */
  lemma InsertIgnoreFlag(table: string, cols: seq<string>, placeholder: string, ignore: bool, dupUpdate: bool)
    ensures StartsWith(InsertText(table, cols, placeholder, ignore, dupUpdate), "INSERT OR IGNORE") <==> ignore
  {
    var s := InsertText(table, cols, placeholder, ignore, dupUpdate);
    if ignore {
      assert s[..16] == "INSERT OR IGNORE";
    } else {
      assert s[7] == ' ' && "INSERT OR IGNORE"[7] == 'O';
    }
  }
}
