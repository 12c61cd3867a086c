/**
 * seal/db/base_chained_query.py: the older chained SELECT builder. It works either on an
 * entity class (its columns) or, when no class is given, dynamically on the table's
 * metadata (its column names and its model fields). The where-list is the same flat,
 * seeded list as in the newer builder; there is no limit and no group-by.
 */
module LegacyChainedQueries {
  import opened Wrappers
  import opened Errors
  import opened Text
  import opened Values
  import opened Conditions
  import opened Lists
  import opened OrderedMaps
  import opened WhereLists
  import opened ChainedQueries
  import SqlBuilder

  /**
   * Where the column names come from: the table metadata (`table_info.columns` and
   * `table_info.model_fields`) when the builder is dynamic, else the entity class.
   */
  datatype ColumnSource = Dynamic(tableColumns: seq<string>, modelFields: seq<string>) | Static(modelColumns: seq<string>)

  /** An element of a list handed to `', '.join`: a string, or (by mistake) a boolean. */
  datatype Item = Text(text: string) | Flag(flag: bool)

  /** `sep.join(items)`: a non-string element raises. */
  function JoinItems(items: seq<Item>, sep: string): (r: Result<string, Error>)
    ensures r.Ok? <==> forall i | 0 <= i < |items| :: items[i].Text?
    ensures r.Err? ==> r.error == JoinOfNonString
  {
    if exists i | 0 <= i < |items| :: items[i].Flag? then Err(JoinOfNonString)
    else Ok(Join(seq(|items|, i requires 0 <= i < |items| => items[i].text), sep))
  }

  /**
   * The list built by `columns()` without a selection, as written: the conditional binds
   * looser than `in`, so every column not ignored contributes the boolean `col in columns`
   * and every ignored one the empty string.
   */
  function UnselectedItemsAsWritten(all: seq<string>, ignored: seq<string>): (r: seq<Item>)
    ensures |r| == |all|
    ensures forall i | 0 <= i < |all| :: r[i] == (if all[i] !in ignored then Flag(true) else Text(""))
  {
    seq(|all|, i requires 0 <= i < |all| => if all[i] !in ignored then Flag(all[i] in all) else Text(""))
  }

  /**
   * As written, an unselected static `columns()` raises as soon as one column is not
   * ignored, and when all are ignored it yields only separators.
   */
  lemma UnselectedColumnsRaise(all: seq<string>, ignored: seq<string>)
    ensures var r := JoinItems(UnselectedItemsAsWritten(all, ignored), ", ");
            && (r.Ok? <==> forall c | c in all :: c in ignored)
            && (r.Ok? ==> r.value == Join(Repeat("", |all|), ", "))
  {
    var items := UnselectedItemsAsWritten(all, ignored);
    if forall c | c in all :: c in ignored {
      assert seq(|items|, i requires 0 <= i < |items| => items[i].text) == Repeat("", |all|);
    } else {
      var c :| c in all && c !in ignored;
      var i :| 0 <= i < |all| && all[i] == c;
      assert items[i].Flag?;
    }
  }

  /** Two plain columns, nothing ignored: the written code raises where `id, name` was meant. */
  lemma UnselectedColumnsExample()
    ensures JoinItems(UnselectedItemsAsWritten(["id", "name"], []), ", ") == Err(JoinOfNonString)
    ensures Join(Resolve([], ["id", "name"], []), ", ") == "id, name"
  {
    assert UnselectedItemsAsWritten(["id", "name"], [])[0].Flag?;
    WithoutNothing(["id", "name"]);
    assert Join(["id", "name"], ", ") == "id" + ", " + Join(["name"], ", ");
  }

  class LegacyChainedQuery {
    const table: string
    const placeholder: string
    const source: ColumnSource
    var where: seq<Condition>
    var selected: seq<string>
    var sorts: seq<(string, string)>
    var ignored: seq<string>
    var raw: string

    /** The where-list starts with the not-deleted predicate; the raw text is empty. */
    constructor (table: string, placeholder: string, source: ColumnSource, logicDeleteCol: Option<string> := None)
      ensures this.table == table && this.placeholder == placeholder && this.source == source
      ensures where == Seed(logicDeleteCol)
      ensures selected == [] && sorts == [] && ignored == [] && raw == ""
    {
      this.table, this.placeholder, this.source := table, placeholder, source;
      where := Seed(logicDeleteCol);
      selected, sorts, ignored, raw := [], [], [], "";
    }

    /**
     * The columns a SELECT names, as intended: the metadata columns when dynamic, else the
     * selection, or all entity columns minus the ignored ones.
     */
    function SelectedColumns(): (r: seq<string>)
      reads this
      ensures source.Dynamic? ==> r == source.tableColumns
      ensures source.Static? && |selected| > 0 ==> r == selected
      ensures source.Static? && |selected| == 0 ==> forall c :: c in r <==> c in source.modelColumns && c !in ignored
    {
      match source
      case Dynamic(cols, _) => cols
      case Static(cols) => Resolve(selected, cols, ignored)
    }

    /** `columns()` as intended. */
    function ColumnsText(): (r: string)
      reads this
      ensures |SelectedColumns()| == 0 ==> r == ""
      ensures |SelectedColumns()| == 1 ==> r == SelectedColumns()[0]
      ensures |SelectedColumns()| > 0 ==> StartsWith(r, SelectedColumns()[0])
    {
      var cols := SelectedColumns();
      if |cols| > 0 then JoinStartsWithFirst(cols, ", "); Join(cols, ", ") else ""
    }

    /** `columns()` as written. */
    function ColumnsTextAsWritten(): (r: Result<string, Error>)
      reads this
      ensures source.Dynamic? || |selected| > 0 ==> r.Ok?
      ensures source.Static? && |selected| == 0 ==> (r.Ok? <==> forall c | c in source.modelColumns :: c in ignored)
    {
      match source
      case Dynamic(cols, _) => Ok(Join(cols, ", "))
      case Static(cols) =>
        if |selected| == 0 then
          UnselectedColumnsRaise(cols, ignored);
          JoinItems(UnselectedItemsAsWritten(cols, ignored), ", ")
        else Ok(Join(selected, ", "))
    }

    /** The written `columns()` and the intended one differ only without a selection. */
    lemma ColumnsAgreeWhenSelected()
      ensures source.Dynamic? || |selected| > 0 ==> ColumnsTextAsWritten() == Ok(ColumnsText())
      ensures source.Static? && |selected| == 0 ==>
        (ColumnsTextAsWritten().Ok? <==> forall c | c in source.modelColumns :: c in ignored)
    {
      if source.Static? && |selected| == 0 {
        UnselectedColumnsRaise(source.modelColumns, ignored);
      }
    }

    function Where(): string
      reads this
    {
      BuildWhere(where, placeholder)
    }

    /** `raw(sql)` */
    method Raw(sql: string) returns (self: LegacyChainedQuery)
      modifies this
      ensures raw == sql && self == this
      ensures where == old(where) && selected == old(selected) && sorts == old(sorts) && ignored == old(ignored)
    {
      raw := sql;
      self := this;
    }

    /** `select(*cols)`: replaces the selection. */
    method Select(cols: seq<string>) returns (self: LegacyChainedQuery)
      modifies this
      ensures selected == cols && self == this
      ensures where == old(where) && raw == old(raw) && sorts == old(sorts) && ignored == old(ignored)
    {
      selected := cols;
      self := this;
    }

    /** `ignore(*cols)`: replaces the ignored columns. */
    method Ignore(cols: seq<string>) returns (self: LegacyChainedQuery)
      modifies this
      ensures ignored == cols && self == this
      ensures where == old(where) && raw == old(raw) && sorts == old(sorts) && selected == old(selected)
    {
      ignored := cols;
      self := this;
    }

    /** `eq` … `like`: one triple appended to the where-list. */
    method Compare(k: Comparison, col: string, value: Value) returns (self: LegacyChainedQuery)
      modifies this
      ensures where == old(where) + [Conditions.Compare(k, col, value)] && self == this
      ensures raw == old(raw) && sorts == old(sorts) && selected == old(selected) && ignored == old(ignored)
    {
      where := where + [Conditions.Compare(k, col, value)];
      self := this;
    }

    /** `order_by(*sorts)`: replaces the sorts. */
    method OrderBy(given: seq<(string, string)>) returns (self: LegacyChainedQuery)
      modifies this
      ensures sorts == given && self == this
      ensures where == old(where) && raw == old(raw) && selected == old(selected) && ignored == old(ignored)
    {
      sorts := given;
      self := this;
    }

    /** `count_statement` */
    function CountStatement(): (s: SqlBuilder.Statement)
      reads this
      ensures s.args == BuildArgs(where)
      ensures s.sql == "SELECT count(1) FROM " + table + " " + Where()
    {
      SqlBuilder.Statement("SELECT count(1) FROM " + table + " " + Where(), BuildArgs(where))
    }

    /** `select_statement` */
    function SelectStatement(): (s: SqlBuilder.Statement)
      reads this
      ensures s.args == BuildArgs(where)
      ensures StartsWith(s.sql, "SELECT " + ColumnsText() + " FROM " + table + " " + Where())
    {
      var head := "SELECT " + ColumnsText() + " FROM " + table + " " + Where();
      StartsWithConcat(head, " " + OrderByText(sorts));
      SqlBuilder.Statement(head + (" " + OrderByText(sorts)), BuildArgs(where))
    }

    /** `page_statement`: the select followed by `limit size offset (page-1)*size`. */
    function PageStatement(page: int, pageSize: int): (s: SqlBuilder.Statement)
      reads this
      ensures s.args == BuildArgs(where)
      ensures s.sql == SelectStatement().sql + " " + PageText(page, pageSize)
    {
      SqlBuilder.Statement(SelectStatement().sql + " " + PageText(page, pageSize), BuildArgs(where))
    }

    /** `mapping_statement`: the raw text followed by the where. */
    function MappingStatement(): (s: SqlBuilder.Statement)
      reads this
      ensures s.args == BuildArgs(where)
      ensures s.sql == raw + " " + Where()
    {
      SqlBuilder.Statement(raw + " " + Where(), BuildArgs(where))
    }

    /**
     * The names `fetchall` maps a row onto: the metadata's model fields when dynamic, else
     * the selection or all entity columns (the ignored ones included).
     */
    function FetchColumns(): (r: seq<string>)
      reads this
      ensures source.Dynamic? ==> r == source.modelFields
      ensures source.Static? ==> r == (if |selected| == 0 then source.modelColumns else selected)
    {
      match source
      case Dynamic(_, fields) => fields
      case Static(cols) => if |selected| == 0 then cols else selected
    }

    /**
     * `fetchall`: one entry per row, in row order: the mapping itself when dynamic, else
     * `clz(**mapping)`; the first short row raises.
     */
    method FetchAll<B>(rows: seq<seq<Value>>, clz: Pairs<string, Value> -> B) returns (r: Result<seq<Fetched<B>>, Error>)
      ensures r.Ok? <==> forall i | 0 <= i < |rows| :: |rows[i]| >= |FetchColumns()|
      ensures r.Err? ==> r.error == RowTooShort
      ensures r.Ok? ==> |r.value| == |rows| && forall i | 0 <= i < |rows| ::
                Mapping(FetchColumns(), rows[i]).Ok? && r.value[i] == Materialise(Mapping(FetchColumns(), rows[i]).value, source.Dynamic?, clz)
    {
      var entities: seq<Fetched<B>> := [];
      var i := 0;
      while i < |rows|
        invariant 0 <= i <= |rows| && |entities| == i
        invariant forall j | 0 <= j < i ::
                    Mapping(FetchColumns(), rows[j]).Ok? && entities[j] == Materialise(Mapping(FetchColumns(), rows[j]).value, source.Dynamic?, clz)
      {
        var m := Mapping(FetchColumns(), rows[i]);
        if m.Err? {
          return Err(m.error);
        }
        entities := entities + [Materialise(m.value, source.Dynamic?, clz)];
        i := i + 1;
      }
      r := Ok(entities);
    }

    /**
     * `fetchone` as written: a static builder enumerates the string `columns()` returns,
     * so the row is mapped onto its characters.
     */
    function FetchOneAsWritten<B>(row: Option<seq<Value>>, clz: Pairs<string, Value> -> B): (r: Result<Option<Fetched<B>>, Error>)
      reads this
      ensures row.None? ==> r == Ok(None)
      ensures source.Dynamic? ==> r == FetchOne(row, clz)
    {
      if row.None? then Ok(None)
      else
        var names := match source
          case Dynamic(_, fields) => Ok(fields)
          case Static(_) => match ColumnsTextAsWritten() { case Ok(text) => Ok(Chars(text)) case Err(e) => Err(e) };
        match names
        case Err(e) => Err(e)
        case Ok(ns) =>
          match Mapping(ns, row.value)
          case Ok(m) => Ok(Some(Materialise(m, source.Dynamic?, clz)))
          case Err(e) => Err(e)
    }

    /**
     * `fetchone` as intended: no row gives None, else the row is mapped onto the model
     * fields (dynamic) or onto the columns the SELECT named, and returned as that mapping
     * when dynamic, else as `clz(**mapping)`.
     */
    function FetchOne<B>(row: Option<seq<Value>>, clz: Pairs<string, Value> -> B): (r: Result<Option<Fetched<B>>, Error>)
      reads this
      ensures row.None? ==> r == Ok(None)
      ensures row.Some? && source.Dynamic? ==> (r.Ok? <==> |row.value| >= |source.modelFields|)
      ensures row.Some? && source.Static? ==> (r.Ok? <==> |row.value| >= |SelectedColumns()|)
      ensures r.Ok? && row.Some? ==> r.value.Some? && (r.value.value.AsDict? <==> source.Dynamic?)
      ensures row.Some? && r.Ok? ==>
        var m := Mapping(if source.Dynamic? then source.modelFields else SelectedColumns(), row.value);
        m.Ok? && r.value == Some(Materialise(m.value, source.Dynamic?, clz))
          && forall c :: c in Keys(m.value) <==> (if source.Dynamic? then c in source.modelFields else c in SelectedColumns())
      ensures r.Err? ==> r.error == RowTooShort
    {
      if row.None? then Ok(None)
      else
        var names := if source.Dynamic? then source.modelFields else SelectedColumns();
        match Mapping(names, row.value)
        case Ok(m) => Ok(Some(Materialise(m, source.Dynamic?, clz)))
        case Err(e) => Err(e)
    }
  }

  /**
   * A static builder selecting the single column `id` cannot map a one-value row as
   * written (it expects one value per character of `id`), while the intended `fetchone`
   * maps it.
   */
  lemma FetchOneSplitsColumns<B>(q: LegacyChainedQuery, clz: Pairs<string, Value> -> B)
    requires q.source.Static? && q.selected == ["id"]
    ensures q.FetchOneAsWritten(Some([Int(7)]), clz) == Err(RowTooShort)
    ensures q.FetchOne(Some([Int(7)]), clz) == Ok(Some(AsObject(clz([("id", Int(7))]))))
  {
    assert q.ColumnsTextAsWritten() == Ok("id");
    assert Chars("id") == ["i", "d"];
    assert q.SelectedColumns() == ["id"];
    assert [Int(7)][..1] == [Int(7)];
    assert Zip(["id"], [Int(7)]) == [("id", Int(7))] by {
      assert ["id"][..0] == [] && [Int(7)][..0] == [];
    }
  }

  /**
   * The statements of one builder agree: count, select, page and mapping all carry the
   * where-list's values as arguments, the first being the seed's 0, and the WHERE text is
   * never empty.
   */
  lemma LegacyStatementsShareArgs(q: LegacyChainedQuery, page: int, pageSize: int, more: seq<Condition>, logicDeleteCol: Option<string>)
    requires q.where == Seed(logicDeleteCol) + more
    ensures q.CountStatement().args == q.SelectStatement().args == q.PageStatement(page, pageSize).args == q.MappingStatement().args
    ensures q.CountStatement().args[0] == Int(0) && |q.CountStatement().args| == 1 + |more|
    ensures q.Where() != ""
  {
    SeededWhere(logicDeleteCol, more, q.placeholder);
  }

  /** The select text holds the `?` of its where part and no other. */
  lemma LegacySelectMarks(cols: string, table: string, w: string, o: string)
    requires Occurrences(cols, '?') == 0 && Occurrences(table, '?') == 0 && Occurrences(o, '?') == 0
    ensures Occurrences(("SELECT " + cols + " FROM " + table + " " + w) + (" " + o), '?') == Occurrences(w, '?')
  {
    NoOccurrence(" ", '?');
    NoOccurrence("SELECT ", '?');
    NoOccurrence(" FROM ", '?');
    OccurrencesAppend5("SELECT ", cols, " FROM ", table, " ", '?');
    OccurrencesAppend("SELECT " + cols + " FROM " + table + " ", w, '?');
    OccurrencesAppend(" ", o, '?');
    OccurrencesAppend("SELECT " + cols + " FROM " + table + " " + w, " " + o, '?');
  }

  lemma LegacySelectPlaceholders(q: LegacyChainedQuery)
    requires q.placeholder == "?" && NoMarks(q.where)
    requires Occurrences(q.table, '?') == 0 && NoneHas(q.SelectedColumns(), '?') && SortsUnmarked(q.sorts)
    ensures Occurrences(q.SelectStatement().sql, '?') == |BuildArgs(q.where)|
  {
    WherePlaceholders(q.where);
    OrderByUnmarked(q.sorts);
    NoOccurrence(", ", '?');
    JoinFree(q.SelectedColumns(), ", ", '?');
    LegacySelectMarks(q.ColumnsText(), q.table, q.Where(), OrderByText(q.sorts));
  }

  lemma LegacyCountPlaceholders(q: LegacyChainedQuery)
    requires q.placeholder == "?" && NoMarks(q.where) && Occurrences(q.table, '?') == 0
    ensures Occurrences(q.CountStatement().sql, '?') == |BuildArgs(q.where)|
  {
    WherePlaceholders(q.where);
    NoOccurrence(" ", '?');
    NoOccurrence("SELECT count(1) FROM ", '?');
    OccurrencesAppend5("SELECT count(1) FROM ", q.table, " ", q.Where(), "", '?');
    assert q.CountStatement().sql == "SELECT count(1) FROM " + q.table + " " + q.Where() + "";
  }

  lemma LegacyMappingPlaceholders(q: LegacyChainedQuery)
    requires q.placeholder == "?" && NoMarks(q.where) && Occurrences(q.raw, '?') == 0
    ensures Occurrences(q.MappingStatement().sql, '?') == |BuildArgs(q.where)|
  {
    WherePlaceholders(q.where);
    NoOccurrence(" ", '?');
    OccurrencesAppend(q.raw, " ", '?');
    OccurrencesAppend(q.raw + " ", q.Where(), '?');
  }

  /**
   * With `?` as the placeholder and no `?` in the table, column, sort or raw texts, every
   * statement holds exactly one `?` per argument.
   */
  lemma LegacyStatementPlaceholders(q: LegacyChainedQuery, page: int, pageSize: int)
    requires q.placeholder == "?" && NoMarks(q.where)
    requires Occurrences(q.table, '?') == 0 && NoneHas(q.SelectedColumns(), '?') && SortsUnmarked(q.sorts)
    requires Occurrences(q.raw, '?') == 0
    ensures Occurrences(q.CountStatement().sql, '?') == |q.CountStatement().args|
    ensures Occurrences(q.SelectStatement().sql, '?') == |q.SelectStatement().args|
    ensures Occurrences(q.PageStatement(page, pageSize).sql, '?') == |q.PageStatement(page, pageSize).args|
    ensures Occurrences(q.MappingStatement().sql, '?') == |q.MappingStatement().args|
  {
    LegacyCountPlaceholders(q);
    LegacyMappingPlaceholders(q);
    LegacySelectPlaceholders(q);
    LimitUnmarked(None, page, pageSize);
    NoOccurrence(" ", '?');
    OccurrencesAppend(q.SelectStatement().sql, " ", '?');
    OccurrencesAppend(q.SelectStatement().sql + " ", PageText(page, pageSize), '?');
  }
}
