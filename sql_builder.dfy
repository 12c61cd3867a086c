/**
 * seal/db/sql_builder.py: compiles a wrapper's state into a `?`-placeholder SQL string
 * and its positional arguments.
 */
module SqlBuilder {
  import opened Wrappers
  import opened Errors
  import opened Text
  import opened Values
  import opened Conditions
  import opened OrderedMaps

  datatype Statement = Statement(sql: string, args: seq<Value>)

  /**
   * The ` WHERE …` text and its arguments: both empty for an empty tree, otherwise the
   * tree's parse, whose arguments are its leaf values in depth-first order.
   */
  function Where(t: Tree): (r: Result<(string, seq<Value>), Error>)
    ensures |t.conditions| == 0 ==> r == Ok(("", []))
    ensures |t.conditions| > 0 ==> (r.Ok? <==> NoEmptySubtree(t))
    ensures r.Err? ==> r.error == CannotUnpackNone
    ensures r.Ok? && |t.conditions| > 0 ==>
      Parse(t).Clause? && r.value.0 == " WHERE " + Parse(t).exp && r.value.1 == Leaves(t) && |r.value.1| > 0
  {
    if |t.conditions| == 0 then Ok(("", []))
    else
      ParseSucceedsIff(t);
      match Parse(t)
      case Clause(e, a) =>
        ParseArgsAreLeaves(t);
        ClauseHasArgs(t);
        Ok((" WHERE " + e, a))
      case _ => Err(CannotUnpackNone)
  }

  /** No `?` hides in the table name, the column names or the conditions. */
  predicate NoStrayQuestionMarks(table: string, names: seq<string>, t: Tree)
  {
    Occurrences(table, '?') == 0 && TotalOccurrences(names, '?') == 0 && NoQuestionMarks(t)
  }

  lemma WherePlaceholders(t: Tree)
    requires Where(t).Ok? && NoQuestionMarks(t)
    ensures Occurrences(Where(t).value.0, '?') == |Where(t).value.1|
  {
    if |t.conditions| > 0 {
      PlaceholdersMatchArgs(t);
      OccurrencesAppend(" WHERE ", Parse(t).exp, '?');
      NoOccurrence(" WHERE ", '?');
    }
  }

  function OrderByClause(orderBy: Option<seq<string>>): (s: string)
    ensures orderBy.None? ==> s == ""
    ensures orderBy.Some? ==> StartsWith(s, " ORDER BY ")
  {
    match orderBy
    case None => ""
    case Some(o) => " ORDER BY " + Join(o, ",")
  }

  function LimitClause(limit: Option<int>): (s: string)
    ensures limit.None? ==> s == ""
    ensures limit.Some? ==> StartsWith(s, " LIMIT ") && Occurrences(s, '?') == 0
  {
    match limit
    case None => ""
    case Some(n) =>
      IntToStringHasNo(n, '?');
      NoOccurrence(" LIMIT ", '?');
      OccurrencesAppend(" LIMIT ", IntToString(n), '?');
      " LIMIT " + IntToString(n)
  }

  function OffsetClause(offset: Option<int>): (s: string)
    ensures offset.None? ==> s == ""
    ensures offset.Some? ==> StartsWith(s, " OFFSET ") && Occurrences(s, '?') == 0
  {
    match offset
    case None => ""
    case Some(n) =>
      IntToStringHasNo(n, '?');
      NoOccurrence(" OFFSET ", '?');
      OccurrencesAppend(" OFFSET ", IntToString(n), '?');
      " OFFSET " + IntToString(n)
  }

  /**
   * `build_select`: `SELECT f1,f2 FROM t`, then WHERE (non-empty tree only), ORDER BY,
   * LIMIT and OFFSET (each only when set), in that order.
   */
  function BuildSelect(fieldList: seq<string>, table: string, t: Tree,
                       orderBy: Option<seq<string>>, limit: Option<int>, offset: Option<int>): (r: Result<Statement, Error>)
    ensures r.Ok? <==> Where(t).Ok?
    ensures r.Err? ==> r.error == CannotUnpackNone
    ensures r.Ok? ==> r.value.args == (if |t.conditions| == 0 then [] else Leaves(t))
    ensures r.Ok? ==> r.value.sql == "SELECT " + Join(fieldList, ",") + " FROM " + table + Where(t).value.0
                                     + OrderByClause(orderBy) + LimitClause(limit) + OffsetClause(offset)
  {
    var head := "SELECT " + Join(fieldList, ",") + " FROM " + table;
    match Where(t)
    case Err(e) => Err(e)
    case Ok(w) => Ok(Statement(head + w.0 + OrderByClause(orderBy) + LimitClause(limit) + OffsetClause(offset), w.1))
  }

  /** `build_count`: the same WHERE as a select, and nothing after it. */
  function BuildCount(table: string, t: Tree): (r: Result<Statement, Error>)
    ensures r.Ok? <==> Where(t).Ok?
    ensures r.Ok? ==> r.value.args == (if |t.conditions| == 0 then [] else Leaves(t))
    ensures r.Ok? ==> r.value.sql == "SELECT COUNT(1) FROM " + table + Where(t).value.0
  {
    match Where(t)
    case Err(e) => Err(e)
    case Ok(w) => Ok(Statement("SELECT COUNT(1) FROM " + table + w.0, w.1))
  }

  /**
   * The count compiled beside a page has the select's WHERE text and arguments and ends
   * right after it: no ORDER BY, LIMIT or OFFSET.
   */
  lemma CountSharesSelectWhere(fieldList: seq<string>, table: string, t: Tree,
                               orderBy: Option<seq<string>>, limit: Option<int>, offset: Option<int>)
    ensures BuildCount(table, t).Ok? == BuildSelect(fieldList, table, t, orderBy, limit, offset).Ok?
    ensures BuildCount(table, t).Ok? ==>
      var w := Where(t).value.0;
      var c, s := BuildCount(table, t).value, BuildSelect(fieldList, table, t, orderBy, limit, offset).value;
      && c.args == s.args
      && c.sql == "SELECT COUNT(1) FROM " + table + w
      && StartsWith(s.sql, "SELECT " + Join(fieldList, ",") + " FROM " + table + w)
  {
    if Where(t).Ok? {
      var w := Where(t).value.0;
      var head := "SELECT " + Join(fieldList, ",") + " FROM " + table + w;
      assert head[..|head|] == head;
      StartsWithExtend(head, head, OrderByClause(orderBy));
      StartsWithExtend(head + OrderByClause(orderBy), head, LimitClause(limit));
      StartsWithExtend(head + OrderByClause(orderBy) + LimitClause(limit), head, OffsetClause(offset));
    }
  }

  lemma SelectPlaceholders(fieldList: seq<string>, table: string, t: Tree,
                           orderBy: Option<seq<string>>, limit: Option<int>, offset: Option<int>)
    requires BuildSelect(fieldList, table, t, orderBy, limit, offset).Ok?
    requires NoStrayQuestionMarks(table, fieldList, t)
    requires orderBy.Some? ==> TotalOccurrences(orderBy.value, '?') == 0
    ensures var s := BuildSelect(fieldList, table, t, orderBy, limit, offset).value;
            Occurrences(s.sql, '?') == |s.args|
  {
    var head := "SELECT " + Join(fieldList, ",") + " FROM " + table;
    var w := Where(t).value.0;
    var o, l, f := OrderByClause(orderBy), LimitClause(limit), OffsetClause(offset);
    SelectHeadUnmarked(fieldList, table);
    WherePlaceholders(t);
    OrderByUnmarked(orderBy);
    OccurrencesAppend(head, w, '?');
    OccurrencesAppend(head + w, o, '?');
    OccurrencesAppend(head + w + o, l, '?');
    OccurrencesAppend(head + w + o + l, f, '?');
  }

  lemma SelectHeadUnmarked(fieldList: seq<string>, table: string)
    requires TotalOccurrences(fieldList, '?') == 0 && Occurrences(table, '?') == 0
    ensures Occurrences("SELECT " + Join(fieldList, ",") + " FROM " + table, '?') == 0
  {
    var cols := Join(fieldList, ",");
    NoOccurrence(",", '?');
    NoOccurrence("SELECT ", '?');
    NoOccurrence(" FROM ", '?');
    JoinOccurrences(fieldList, ",", '?');
    OccurrencesAppend("SELECT ", cols, '?');
    OccurrencesAppend("SELECT " + cols, " FROM ", '?');
    OccurrencesAppend("SELECT " + cols + " FROM ", table, '?');
  }

  lemma OrderByUnmarked(orderBy: Option<seq<string>>)
    requires orderBy.Some? ==> TotalOccurrences(orderBy.value, '?') == 0
    ensures Occurrences(OrderByClause(orderBy), '?') == 0
  {
    if orderBy.Some? {
      NoOccurrence(",", '?');
      JoinOccurrences(orderBy.value, ",", '?');
      NoOccurrence(" ORDER BY ", '?');
      OccurrencesAppend(" ORDER BY ", Join(orderBy.value, ","), '?');
    }
  }

  /**
   * `build_update`: one `k=?` per update field in dict order; arguments are the update
   * values followed by the WHERE arguments. Only an empty combined argument list is
   * refused, so a SET without any condition is accepted.
   */
  function BuildUpdate(table: string, updateFields: Pairs<string, Value>, t: Tree): (r: Result<Statement, Error>)
    ensures Where(t).Err? ==> r == Err(CannotUnpackNone)
    ensures r == Err(FullTableMutation) <==> |updateFields| == 0 && |t.conditions| == 0
    ensures |updateFields| > 0 && |t.conditions| == 0 ==> r.Ok?
    ensures r.Ok? ==> r.value.args == OrderedMaps.Values(updateFields) + (if |t.conditions| == 0 then [] else Leaves(t))
    ensures r.Ok? ==> StartsWith(r.value.sql, "UPDATE " + table + " SET " + Join(Suffixed(Keys(updateFields), "=?"), ","))
  {
    var head := "UPDATE " + table + " SET " + Join(Suffixed(Keys(updateFields), "=?"), ",");
    match Where(t)
    case Err(e) => Err(e)
    case Ok(w) =>
      var args := OrderedMaps.Values(updateFields) + w.1;
      if |args| == 0 then Err(FullTableMutation) else Ok(Statement(head + w.0, args))
  }

  lemma UpdatePlaceholders(table: string, updateFields: Pairs<string, Value>, t: Tree)
    requires BuildUpdate(table, updateFields, t).Ok?
    requires NoStrayQuestionMarks(table, Keys(updateFields), t)
    ensures var s := BuildUpdate(table, updateFields, t).value;
            Occurrences(s.sql, '?') == |s.args|
  {
    var ks := Keys(updateFields);
    var sets := Join(Suffixed(ks, "=?"), ",");
    var w := Where(t).value;
    UpdateLiteralsFree();
    JoinOccurrences(Suffixed(ks, "=?"), ",", '?');
    SuffixedOccurrences(ks, "=?", '?');
    WherePlaceholders(t);
    var s1 := "UPDATE " + table;
    OccurrencesAppend("UPDATE ", table, '?');
    var s2 := s1 + " SET ";
    OccurrencesAppend(s1, " SET ", '?');
    var s3 := s2 + sets;
    OccurrencesAppend(s2, sets, '?');
    OccurrencesAppend(s3, w.0, '?');
    assert BuildUpdate(table, updateFields, t).value.sql == s3 + w.0;
  }

  lemma UpdateLiteralsFree()
    ensures Occurrences("UPDATE ", '?') == 0 && Occurrences(" SET ", '?') == 0
    ensures Occurrences(",", '?') == 0 && Occurrences("=?", '?') == 1
  {
    NoOccurrence("UPDATE ", '?');
    NoOccurrence(" SET ", '?');
    NoOccurrence(",", '?');
  }

  /**
   * `build_delete`: refused whenever the tree contributes no argument, which is exactly
   * when the tree is empty.
   */
  function BuildDelete(table: string, t: Tree): (r: Result<Statement, Error>)
    ensures r == Err(FullTableMutation) <==> |t.conditions| == 0
    ensures Where(t).Err? ==> r == Err(CannotUnpackNone)
    ensures r.Ok? ==> r.value == Statement("DELETE FROM " + table + " WHERE " + Parse(t).exp, Leaves(t))
  {
    match Where(t)
    case Err(e) => Err(e)
    case Ok(w) =>
      if |w.1| == 0 then Err(FullTableMutation) else Ok(Statement("DELETE FROM " + table + w.0, w.1))
  }

  /** `getattr(data, name)` for each name in order; the first missing one raises. */
  function Attributes(data: Record, names: seq<string>): (r: Result<seq<Value>, Error>)
    ensures r.Ok? <==> forall i | 0 <= i < |names| :: names[i] in data
    ensures r.Ok? ==> |r.value| == |names| && forall i | 0 <= i < |names| :: r.value[i] == data[names[i]]
    ensures r.Err? ==> r.error.MissingAttribute? && r.error.name in names && r.error.name !in data
  {
    if |names| == 0 then Ok([])
    else if names[0] !in data then Err(MissingAttribute(names[0]))
    else match Attributes(data, names[1..])
      case Err(e) => Err(e)
      case Ok(rest) => Ok([data[names[0]]] + rest)
  }

  /** The statement text shared by `build_insert` and `build_insert_bulk`. */
  function InsertSql(table: string, names: seq<string>, dupUpdate: bool, dupIgnore: bool): string
  {
    InsertHead(dupIgnore) + table + ColumnsAndMarks(names) + UpsertTail(names, dupUpdate)
  }

  function InsertHead(dupIgnore: bool): string
  {
    "INSERT " + (if dupIgnore then "OR IGNORE" else "") + " INTO "
  }

  /** ` (a,b) VALUES (?,?)` */
  function ColumnsAndMarks(names: seq<string>): string
  {
    " (" + Join(names, ",") + ") VALUES (" + Join(Repeat("?", |names|), ",") + ")"
  }

  /** ` ON DUPLICATE KEY UPDATE a=?,b=?` under upsert, nothing otherwise. */
  function UpsertTail(names: seq<string>, dupUpdate: bool): string
  {
    if dupUpdate then " ON DUPLICATE KEY UPDATE " + Join(Suffixed(names, "=?"), ",") else ""
  }

  /** `OR IGNORE` appears, right after `INSERT`, exactly when the ignore flag is set. */
  lemma InsertIgnoreFlag(table: string, names: seq<string>, dupUpdate: bool, dupIgnore: bool)
    ensures StartsWith(InsertSql(table, names, dupUpdate, dupIgnore), "INSERT OR IGNORE") <==> dupIgnore
  {
    var s := InsertSql(table, names, dupUpdate, dupIgnore);
    var h := InsertHead(dupIgnore);
    InsertSqlStartsWithHead(table, names, dupUpdate, dupIgnore);
    if !dupIgnore {
      assert h == "INSERT  INTO ";
      assert s[7] == h[7] == ' ';
      assert "INSERT OR IGNORE"[7] == 'O';
    } else {
      assert h == "INSERT OR IGNORE INTO ";
      assert s[..16] == h[..16] == "INSERT OR IGNORE";
    }
  }

  lemma InsertSqlStartsWithHead(table: string, names: seq<string>, dupUpdate: bool, dupIgnore: bool)
    ensures StartsWith(InsertSql(table, names, dupUpdate, dupIgnore), InsertHead(dupIgnore))
  {
    var h, m := InsertHead(dupIgnore), ColumnsAndMarks(names);
    StartsWithConcat(h, table);
    StartsWithExtend(h + table, h, m);
    StartsWithExtend(h + table + m, h, UpsertTail(names, dupUpdate));
  }

  /** One `?` per column, and one more per column in the upsert tail. */
  lemma InsertSqlPlaceholders(table: string, names: seq<string>, dupUpdate: bool, dupIgnore: bool)
    requires Occurrences(table, '?') == 0 && TotalOccurrences(names, '?') == 0
    ensures Occurrences(InsertSql(table, names, dupUpdate, dupIgnore), '?') == if dupUpdate then 2 * |names| else |names|
  {
    var head := InsertHead(dupIgnore);
    var mid := ColumnsAndMarks(names);
    var tail := UpsertTail(names, dupUpdate);
    InsertHeadMarks(dupIgnore);
    ColumnsAndMarksCount(names);
    UpsertTailMarks(names, dupUpdate);
    OccurrencesAppend(head, table, '?');
    OccurrencesAppend(head + table, mid, '?');
    OccurrencesAppend(head + table + mid, tail, '?');
  }

  lemma InsertHeadMarks(dupIgnore: bool)
    ensures Occurrences(InsertHead(dupIgnore), '?') == 0
  {
    InsertWordFree(); OrIgnoreFree(); IntoFree();
    var ig := if dupIgnore then "OR IGNORE" else "";
    OccurrencesAppend("INSERT ", ig, '?');
    OccurrencesAppend("INSERT " + ig, " INTO ", '?');
  }

  lemma ColumnsAndMarksCount(names: seq<string>)
    requires TotalOccurrences(names, '?') == 0
    ensures Occurrences(ColumnsAndMarks(names), '?') == |names|
  {
    OpenParenFree(); ValuesWordFree(); CloseParenFree();
    var cols := Join(names, ",");
    var phs := Join(Repeat("?", |names|), ",");
    ColumnListFree(names);
    MarkListCount(|names|);
    OccurrencesAppend(" (", cols, '?');
    OccurrencesAppend(" (" + cols, ") VALUES (", '?');
    OccurrencesAppend(" (" + cols + ") VALUES (", phs, '?');
    OccurrencesAppend(" (" + cols + ") VALUES (" + phs, ")", '?');
  }

  lemma ColumnListFree(names: seq<string>)
    requires TotalOccurrences(names, '?') == 0
    ensures Occurrences(Join(names, ","), '?') == 0
  {
    NoOccurrence(",", '?');
    JoinOccurrences(names, ",", '?');
  }

  lemma MarkListCount(n: nat)
    ensures Occurrences(Join(Repeat("?", n), ","), '?') == n
  {
    MarkCounts();
    NoOccurrence(",", '?');
    JoinOccurrences(Repeat("?", n), ",", '?');
    RepeatOccurrences("?", n, '?');
  }

  lemma UpsertTailMarks(names: seq<string>, dupUpdate: bool)
    requires TotalOccurrences(names, '?') == 0
    ensures Occurrences(UpsertTail(names, dupUpdate), '?') == if dupUpdate then |names| else 0
  {
    if dupUpdate {
      var sets := Join(Suffixed(names, "=?"), ",");
      SetListMarks(names);
      UpsertWordFree();
      OccurrencesAppend(" ON DUPLICATE KEY UPDATE ", sets, '?');
    }
  }

  lemma SetListMarks(names: seq<string>)
    requires TotalOccurrences(names, '?') == 0
    ensures Occurrences(Join(Suffixed(names, "=?"), ","), '?') == |names|
  {
    MarkCounts();
    SuffixedOccurrences(names, "=?", '?');
    NoOccurrence(",", '?');
    JoinOccurrences(Suffixed(names, "=?"), ",", '?');
  }

  lemma InsertWordFree()
    ensures Occurrences("INSERT ", '?') == 0
  {
    NoOccurrence("INSERT ", '?');
  }

  lemma OrIgnoreFree()
    ensures Occurrences("OR IGNORE", '?') == 0
  {
    NoOccurrence("OR IGNORE", '?');
  }

  lemma IntoFree()
    ensures Occurrences(" INTO ", '?') == 0
  {
    NoOccurrence(" INTO ", '?');
  }

  lemma OpenParenFree()
    ensures Occurrences(" (", '?') == 0
  {
    NoOccurrence(" (", '?');
  }

  lemma ValuesWordFree()
    ensures Occurrences(") VALUES (", '?') == 0
  {
    NoOccurrence(") VALUES (", '?');
  }

  lemma CloseParenFree()
    ensures Occurrences(")", '?') == 0
  {
    NoOccurrence(")", '?');
  }

  lemma UpsertWordFree()
    ensures Occurrences(" ON DUPLICATE KEY UPDATE ", '?') == 0
  {
    NoOccurrence(" ON DUPLICATE KEY UPDATE ", '?');
  }

  lemma MarkCounts()
    ensures Occurrences("?", '?') == 1 && Occurrences("=?", '?') == 1
  {
    assert "=?"[1..] == "?";
    assert "?"[1..] == "";
  }

  /** The argument tuple of one record: its values, repeated twice under upsert. */
  function InsertArgs(data: Record, names: seq<string>, dupUpdate: bool): (r: Result<seq<Value>, Error>)
    ensures r.Ok? <==> Attributes(data, names).Ok?
    ensures r.Ok? ==> r.value == if dupUpdate then Attributes(data, names).value + Attributes(data, names).value
                                 else Attributes(data, names).value
  {
    match Attributes(data, names)
    case Err(e) => Err(e)
    case Ok(vs) => Ok(if dupUpdate then vs + vs else vs)
  }

  /** `build_insert` */
  function BuildInsert(table: string, names: seq<string>, data: Record,
                       dupUpdate: bool := false, dupIgnore: bool := false): (r: Result<Statement, Error>)
    ensures r.Ok? <==> forall i | 0 <= i < |names| :: names[i] in data
    ensures r.Ok? ==> r.value.sql == InsertSql(table, names, dupUpdate, dupIgnore)
    ensures r.Ok? ==> |r.value.args| == if dupUpdate then 2 * |names| else |names|
    ensures r.Ok? ==> forall i | 0 <= i < |names| :: r.value.args[i] == data[names[i]]
    ensures r.Ok? && dupUpdate ==> r.value.args[|names|..] == r.value.args[..|names|]
  {
    match InsertArgs(data, names, dupUpdate)
    case Err(e) => Err(e)
    case Ok(args) => Ok(Statement(InsertSql(table, names, dupUpdate, dupIgnore), args))
  }

  /** `build_insert_bulk`: one argument tuple per record, in input order. */
  function BuildInsertBulk(table: string, names: seq<string>, records: seq<Record>,
                           dupUpdate: bool := false, dupIgnore: bool := false): (r: Result<(string, seq<seq<Value>>), Error>)
    ensures r.Ok? <==> forall k, i | 0 <= k < |records| && 0 <= i < |names| :: names[i] in records[k]
    ensures r.Ok? ==> r.value.0 == InsertSql(table, names, dupUpdate, dupIgnore)
    ensures r.Ok? ==> |r.value.1| == |records|
    ensures r.Ok? ==> forall k | 0 <= k < |records| :: InsertArgs(records[k], names, dupUpdate) == Ok(r.value.1[k])
  {
    match BulkArgs(records, names, dupUpdate)
    case Err(e) => Err(e)
    case Ok(rows) => Ok((InsertSql(table, names, dupUpdate, dupIgnore), rows))
  }

  function BulkArgs(records: seq<Record>, names: seq<string>, dupUpdate: bool): (r: Result<seq<seq<Value>>, Error>)
    ensures r.Ok? <==> forall k, i | 0 <= k < |records| && 0 <= i < |names| :: names[i] in records[k]
    ensures r.Ok? ==> |r.value| == |records| && forall k | 0 <= k < |records| :: InsertArgs(records[k], names, dupUpdate) == Ok(r.value[k])
  {
    if |records| == 0 then Ok([])
    else match InsertArgs(records[0], names, dupUpdate)
      case Err(e) => Err(e)
      case Ok(row) =>
        match BulkArgs(records[1..], names, dupUpdate)
        case Err(e) =>
          assert forall k | 1 <= k < |records| :: records[k] == records[1..][k - 1];
          Err(e)
        case Ok(rows) => Ok([row] + rows)
  }
}
