/**
 * seal/db/insert_wrapper.py: chooses the columns to insert from the parameter type's
 * fields and the record's values, then compiles INSERT statements.
 */
module InsertWrappers {
  import opened Wrappers
  import opened Errors
  import opened Values
  import opened Lists
  import opened SqlBuilder

  /**
   * `[f for f in fields(param_type) if f.name != 'id' and getattr(data, f.name) is not None]`:
   * the non-`id` fields, in declaration order, whose value is not None. Reading a field the
   * record lacks raises; `id` itself is never read.
   */
  function InsertFields(paramFields: seq<string>, data: Record): (r: Result<seq<string>, Error>)
    ensures r.Ok? <==> forall f | f in paramFields && f != "id" :: f in data
    ensures r.Err? ==> r.error.MissingAttribute? && r.error.name in paramFields && r.error.name != "id" && r.error.name !in data
    ensures r.Ok? ==> Subsequence(r.value, paramFields)
    ensures r.Ok? ==> forall f :: f in r.value <==> f in paramFields && f != "id" && f in data && data[f] != Null
  {
    if |paramFields| == 0 then Ok([])
    else
      var f := paramFields[0];
      if f != "id" && f !in data then Err(MissingAttribute(f))
      else match InsertFields(paramFields[1..], data)
        case Err(e) => Err(e)
        case Ok(rest) =>
          if f == "id" || data[f] == Null then
            assert |rest| > 0 ==> rest[0] in rest && rest[0] != f;
            Ok(rest)
          else
            assert ([f] + rest)[1..] == rest;
            Ok([f] + rest)
  }

  /**
   * The keyword arguments `insert_bulk` passes on: `duplicated_key_update` when given, else
   * `duplicated_key_ignore` when given; the other stays False.
   */
  function BulkFlags(dupUpdate: Option<bool>, dupIgnore: Option<bool>): (r: (bool, bool))
    ensures dupUpdate.Some? ==> r == (dupUpdate.value, false)
    ensures dupUpdate.None? ==> r == (false, dupIgnore.GetOr(false))
    ensures !(r.0 && r.1)
  {
    if dupUpdate.Some? then (dupUpdate.value, false)
    else if dupIgnore.Some? then (false, dupIgnore.value)
    else (false, false)
  }

  class InsertWrapper {
    const table: string
    const dataSource: string
    /** The field names of `data_source.get_data_structure(table)`, in declaration order. */
    const paramFields: seq<string>
    var insertFields: seq<string>

    constructor (table: string, dataSource: string, paramFields: seq<string>)
      ensures this.table == table && this.dataSource == dataSource && this.paramFields == paramFields
      ensures insertFields == []
    {
      this.table, this.dataSource, this.paramFields := table, dataSource, paramFields;
      insertFields := [];
    }

    /**
     * `insert(data, **options)`: None is refused; the columns are chosen from the record;
     * `duplicated_key_update` is forwarded when given; OR IGNORE is never requested.
     */
    method Insert(data: Option<Record>, dupUpdate: Option<bool>) returns (r: Result<Statement, Error>)
      modifies this
      ensures data.None? ==> r == Err(NullData) && insertFields == old(insertFields)
      ensures data.Some? && InsertFields(paramFields, data.value).Err? ==>
        r == Err(InsertFields(paramFields, data.value).error) && insertFields == old(insertFields)
      ensures data.Some? && InsertFields(paramFields, data.value).Ok? ==>
        && insertFields == InsertFields(paramFields, data.value).value
        && r == BuildInsert(table, insertFields, data.value, dupUpdate.GetOr(false), false)
    {
      if data.None? {
        return Err(NullData);
      }
      var chosen := InsertFields(paramFields, data.value);
      if chosen.Err? {
        return Err(chosen.error);
      }
      insertFields := chosen.value;
      r := BuildInsert(table, insertFields, data.value, dupUpdate.GetOr(false), false);
    }

    /**
     * `insert_bulk(data_list, **options)`: None or an empty list is refused; the columns
     * come from the first record only, and every record contributes its values for them.
     */
    method InsertBulk(records: Option<seq<Record>>, dupUpdate: Option<bool>, dupIgnore: Option<bool>)
      returns (r: Result<(string, seq<seq<Value>>), Error>)
      modifies this
      ensures (records.None? || |records.value| == 0) ==> r == Err(NullData) && insertFields == old(insertFields)
      ensures records.Some? && |records.value| > 0 && InsertFields(paramFields, records.value[0]).Err? ==>
        r == Err(InsertFields(paramFields, records.value[0]).error) && insertFields == old(insertFields)
      ensures records.Some? && |records.value| > 0 && InsertFields(paramFields, records.value[0]).Ok? ==>
        && insertFields == InsertFields(paramFields, records.value[0]).value
        && r == BuildInsertBulk(table, insertFields, records.value, BulkFlags(dupUpdate, dupIgnore).0, BulkFlags(dupUpdate, dupIgnore).1)
    {
      if records.None? || |records.value| == 0 {
        return Err(NullData);
      }
      var chosen := InsertFields(paramFields, records.value[0]);
      if chosen.Err? {
        return Err(chosen.error);
      }
      insertFields := chosen.value;
      var flags := BulkFlags(dupUpdate, dupIgnore);
      r := BuildInsertBulk(table, insertFields, records.value, flags.0, flags.1);
    }
  }

  /**
   * Bulk columns come from the first record: a later record holding None in one of them
   * still contributes that None as its argument.
   */
  lemma LaterNoneIsInserted(table: string, paramFields: seq<string>, records: seq<Record>, k: nat, i: nat)
    requires 0 < k < |records|
    requires InsertFields(paramFields, records[0]).Ok?
    requires var cols := InsertFields(paramFields, records[0]).value;
             BuildInsertBulk(table, cols, records).Ok? && i < |cols| && records[k][cols[i]] == Null
    ensures var cols := InsertFields(paramFields, records[0]).value;
            BuildInsertBulk(table, cols, records).value.1[k][i] == Null
  {
    var cols := InsertFields(paramFields, records[0]).value;
    var rows := BuildInsertBulk(table, cols, records).value.1;
    assert InsertArgs(records[k], cols, false) == Ok(rows[k]);
  }
}
