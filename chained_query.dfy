/**
 * seal/db/_base_chained_query.py: a chained SELECT builder over a flat where-list seeded
 * with the not-deleted predicate, with a column selection, sorts, a limit and a group-by,
 * and the positional mapping of fetched rows onto the selected columns, returned as dicts or
 * as instances of the model class `clz`, a function parameter.
 */
module ChainedQueries {
  import opened Wrappers
  import opened Errors
  import opened Text
  import opened Values
  import opened Conditions
  import opened OrderedMaps
  import opened Lists
  import opened WhereLists
  import SqlBuilder

  /** `f'{sort[0]} {sort[1]}'` for each sort. */
  function SortTexts(sorts: seq<(string, string)>): (r: seq<string>)
    ensures |r| == |sorts| && forall i | 0 <= i < |sorts| :: r[i] == sorts[i].0 + " " + sorts[i].1
  {
    seq(|sorts|, i requires 0 <= i < |sorts| => sorts[i].0 + " " + sorts[i].1)
  }

  /** `build_order_by`: empty without sorts, else `order by c1 o1, c2 o2`. */
  function OrderByText(sorts: seq<(string, string)>): (s: string)
    ensures s == "" <==> |sorts| == 0
    ensures |sorts| > 0 ==> StartsWith(s, "order by ")
  {
    if |sorts| == 0 then ""
    else
      var s := "order by " + Join(SortTexts(sorts), ", ");
      assert s[..9] == "order by ";
      s
  }

  /** Each character of a string as a one-character string: what iterating a `str` yields. */
  function Chars(s: string): (r: seq<string>)
    ensures |r| == |s| && forall i | 0 <= i < |s| :: r[i] == [s[i]]
  {
    seq(|s|, i requires 0 <= i < |s| => [s[i]])
  }

  /**
   * `build_group_by` as written: `group_by(col)` stores the bare string, and joining a
   * string joins its characters.
   */
  function GroupByAsWritten(stored: string): (r: string)
    ensures |stored| == 0 ==> r == ""
    ensures |stored| > 0 ==> |r| == |"group by "| + 3 * |stored| - 2
  {
    if |stored| == 0 then ""
    else
      JoinCharsLength(stored);
      "group by " + Join(Chars(stored), ", ")
  }

  /** Joining the characters puts `, ` between each two of them. */
  lemma {:induction false} JoinCharsLength(s: string)
    requires |s| > 0
    ensures |Join(Chars(s), ", ")| == 3 * |s| - 2
  {
    if |s| > 1 {
      JoinCharsLength(s[1..]);
      assert Chars(s)[1..] == Chars(s[1..]);
    }
  }

  /** A two-letter column comes out split into its letters. */
  lemma GroupBySplitsColumn()
    ensures GroupByAsWritten("id") == "group by i, d"
    ensures GroupByAsWritten("id") != GroupByText(["id"])
  {
    assert Chars("id") == ["i", "d"];
    assert Join(["i", "d"], ", ") == "i" + ", " + Join(["d"], ", ");
    assert GroupByText(["id"])[9..] == "id";
    assert GroupByAsWritten("id")[9..] == "i, d";
  }

  /** `build_group_by` as intended: the stored columns joined by `, `. */
  function GroupByText(cols: seq<string>): (s: string)
    ensures |cols| == 0 ==> s == ""
    ensures |cols| == 1 ==> s == "group by " + cols[0]
  {
    if |cols| == 0 then "" else "group by " + Join(cols, ", ")
  }

  /** The limit part of `select_statement`. */
  function LimitText(limit: Option<int>): string
  {
    match limit
    case None => ""
    case Some(n) => "limit " + IntToString(n)
  }

  /** The limit part of `page_statement`. */
  function PageText(page: int, pageSize: int): string
  {
    "limit " + IntToString(pageSize) + " offset " + IntToString((page - 1) * pageSize)
  }

  /** `f'{self._raw}'`: an unset raw statement renders as `None`. */
  function RawText(raw: Option<string>): string
  {
    raw.GetOr("None")
  }

  /** No `?` in any sort column or direction. */
  predicate SortsUnmarked(sorts: seq<(string, string)>)
  {
    forall i | 0 <= i < |sorts| :: Occurrences(sorts[i].0, '?') == 0 && Occurrences(sorts[i].1, '?') == 0
  }

  lemma OrderByUnmarked(sorts: seq<(string, string)>)
    requires SortsUnmarked(sorts)
    ensures Occurrences(OrderByText(sorts), '?') == 0
  {
    if |sorts| > 0 {
      var texts := SortTexts(sorts);
      NoOccurrence(" ", '?');
      forall i | 0 <= i < |texts|
        ensures Occurrences(texts[i], '?') == 0
      {
        OccurrencesAppend(sorts[i].0, " ", '?');
        OccurrencesAppend(sorts[i].0 + " ", sorts[i].1, '?');
      }
      NoOccurrence(", ", '?');
      JoinFree(texts, ", ", '?');
      NoOccurrence("order by ", '?');
      OccurrencesAppend("order by ", Join(texts, ", "), '?');
    }
  }

  lemma GroupByUnmarked(cols: seq<string>)
    requires NoneHas(cols, '?')
    ensures Occurrences(GroupByText(cols), '?') == 0
  {
    if |cols| > 0 {
      NoOccurrence(", ", '?');
      JoinFree(cols, ", ", '?');
      NoOccurrence("group by ", '?');
      OccurrencesAppend("group by ", Join(cols, ", "), '?');
    }
  }

  /** The limit and page parts are digits and keywords only. */
  lemma LimitUnmarked(limit: Option<int>, page: int, pageSize: int)
    ensures Occurrences(LimitText(limit), '?') == 0
    ensures Occurrences(PageText(page, pageSize), '?') == 0
  {
    NoOccurrence("limit ", '?');
    NoOccurrence(" offset ", '?');
    if limit.Some? {
      IntToStringHasNo(limit.value, '?');
      OccurrencesAppend("limit ", IntToString(limit.value), '?');
    }
    IntToStringHasNo(pageSize, '?');
    IntToStringHasNo((page - 1) * pageSize, '?');
    OccurrencesAppend("limit ", IntToString(pageSize), '?');
    OccurrencesAppend("limit " + IntToString(pageSize), " offset ", '?');
    OccurrencesAppend("limit " + IntToString(pageSize) + " offset ", IntToString((page - 1) * pageSize), '?');
  }

  /** One fetched row as a mapping: a dict row as is, a tuple row positionally onto the columns. */
  function RowMapping(columns: seq<string>, row: Row): (r: Result<Pairs<string, Value>, Error>)
    ensures row.DictRow? ==> r == Ok(row.fields)
    ensures row.TupleRow? ==> r == Mapping(columns, row.values)
  {
    match row
    case DictRow(fields) => Ok(fields)
    case TupleRow(values) => Mapping(columns, values)
  }

  class ChainedQuery {
    const table: string
    /** The model's columns: the entity's `columns()` or the named tuple's `_fields`. */
    const modelColumns: seq<string>
    const placeholder: string
    var where: seq<Condition>
    var selected: seq<string>
    var sorts: seq<(string, string)>
    var limit: Option<int>
    var groupBy: seq<string>
    var raw: Option<string>
    var ignored: seq<string>

    /** The where-list starts with the not-deleted predicate; everything else is empty. */
    constructor (table: string, modelColumns: seq<string>, placeholder: string, logicDeleteCol: Option<string> := None)
      ensures this.table == table && this.modelColumns == modelColumns && this.placeholder == placeholder
      ensures where == Seed(logicDeleteCol)
      ensures selected == [] && sorts == [] && limit.None? && groupBy == [] && raw.None? && ignored == []
    {
      this.table, this.modelColumns, this.placeholder := table, modelColumns, placeholder;
      where := Seed(logicDeleteCol);
      selected, sorts, limit, groupBy, raw, ignored := [], [], None, [], None, [];
    }

    /** `columns()`: the explicit selection, else the model columns minus the ignored ones. */
    function Columns(): (r: seq<string>)
      reads this
      ensures |selected| > 0 ==> r == selected
      ensures |selected| == 0 ==> Subsequence(r, modelColumns) && forall c :: c in r <==> c in modelColumns && c !in ignored
    {
      Resolve(selected, modelColumns, ignored)
    }

    function Where(): string
      reads this
    {
      BuildWhere(where, placeholder)
    }

    /** `raw(sql)` */
    method Raw(sql: string) returns (self: ChainedQuery)
      modifies this
      ensures self == this && raw == Some(sql)
      ensures where == old(where) && selected == old(selected) && sorts == old(sorts)
      ensures limit == old(limit) && groupBy == old(groupBy) && ignored == old(ignored)
    {
      raw := Some(sql);
      self := this;
    }

    /** `select(*cols)`: replaces the selection. */
    method Select(cols: seq<string>) returns (self: ChainedQuery)
      modifies this
      ensures self == this && selected == cols
      ensures where == old(where) && sorts == old(sorts) && limit == old(limit)
      ensures groupBy == old(groupBy) && raw == old(raw) && ignored == old(ignored)
    {
      selected := cols;
      self := this;
    }

    /** `ignore(*cols)`: replaces the ignored columns. */
    method Ignore(cols: seq<string>) returns (self: ChainedQuery)
      modifies this
      ensures self == this && ignored == cols
      ensures where == old(where) && selected == old(selected) && sorts == old(sorts)
      ensures limit == old(limit) && groupBy == old(groupBy) && raw == old(raw)
    {
      ignored := cols;
      self := this;
    }

    /** `eq` … `like`: one triple appended to the where-list. */
    method Compare(k: Comparison, col: string, value: Value) returns (self: ChainedQuery)
      modifies this
      ensures self == this && where == old(where) + [Conditions.Compare(k, col, value)]
      ensures selected == old(selected) && sorts == old(sorts) && limit == old(limit)
      ensures groupBy == old(groupBy) && raw == old(raw) && ignored == old(ignored)
    {
      where := where + [Conditions.Compare(k, col, value)];
      self := this;
    }

    /** `limit(n)` */
    method Limit(n: int) returns (self: ChainedQuery)
      modifies this
      ensures self == this && limit == Some(n)
      ensures where == old(where) && selected == old(selected) && sorts == old(sorts)
      ensures groupBy == old(groupBy) && raw == old(raw) && ignored == old(ignored)
    {
      limit := Some(n);
      self := this;
    }

    /** `sort(col, order='asc')`: replaces the sorts with the one given. */
    method Sort(col: string, order: string := "asc") returns (self: ChainedQuery)
      modifies this
      ensures self == this && sorts == [(col, order)]
      ensures where == old(where) && selected == old(selected) && limit == old(limit)
      ensures groupBy == old(groupBy) && raw == old(raw) && ignored == old(ignored)
    {
      sorts := [(col, order)];
      self := this;
    }

    /** `sorts(*sorts)`: replaces the sorts. */
    method Sorts(given: seq<(string, string)>) returns (self: ChainedQuery)
      modifies this
      ensures self == this && sorts == given
      ensures where == old(where) && selected == old(selected) && limit == old(limit)
      ensures groupBy == old(groupBy) && raw == old(raw) && ignored == old(ignored)
    {
      sorts := given;
      self := this;
    }

    /** `group_by(col)`, storing the column as a one-element list so it renders whole. */
    method GroupBy(col: string) returns (self: ChainedQuery)
      modifies this
      ensures self == this && groupBy == [col]
      ensures where == old(where) && selected == old(selected) && sorts == old(sorts)
      ensures limit == old(limit) && raw == old(raw) && ignored == old(ignored)
    {
      groupBy := [col];
      self := this;
    }

    /** The text every SELECT shares up to its limit part. */
    function SelectHead(): string
      reads this
    {
      "SELECT " + Join(Columns(), ", ") + " FROM " + table + " " + Where() + " " + GroupByText(groupBy) + " "
        + OrderByText(sorts) + " "
    }

    /** `count_statement`: no order by and no limit. */
    function CountStatement(): (s: SqlBuilder.Statement)
      reads this
      ensures s.args == BuildArgs(where)
      ensures s.sql == "SELECT count(1) FROM " + table + " " + Where() + " " + GroupByText(groupBy)
    {
      SqlBuilder.Statement("SELECT count(1) FROM " + table + " " + Where() + " " + GroupByText(groupBy), BuildArgs(where))
    }

    /** `select_statement` */
    function SelectStatement(): (s: SqlBuilder.Statement)
      reads this
      ensures s.args == BuildArgs(where)
      ensures StartsWith(s.sql, SelectHead())
    {
      StartsWithConcat(SelectHead(), LimitText(limit));
      SqlBuilder.Statement(SelectHead() + LimitText(limit), BuildArgs(where))
    }

    /** `page_statement`: the select with `limit size offset (page-1)*size` at the end. */
    function PageStatement(page: int, pageSize: int): (s: SqlBuilder.Statement)
      reads this
      ensures s.args == BuildArgs(where)
      ensures s.sql == SelectHead() + PageText(page, pageSize)
    {
      SqlBuilder.Statement(SelectHead() + PageText(page, pageSize), BuildArgs(where))
    }

    /** `mapping_statement`: the raw text followed by the where, group-by and order-by parts. */
    function MappingStatement(): (s: SqlBuilder.Statement)
      reads this
      ensures s.args == BuildArgs(where)
      ensures StartsWith(s.sql, RawText(raw) + " " + Where())
    {
      var head := RawText(raw) + " " + Where();
      StartsWithConcat(head, " " + GroupByText(groupBy) + " " + OrderByText(sorts));
      SqlBuilder.Statement(head + (" " + GroupByText(groupBy) + " " + OrderByText(sorts)), BuildArgs(where))
    }

    /**
     * `fetchone(cursor, to_dict)`: None when there is no row, else the row mapped onto the
     * columns, returned as that mapping (`to_dict`) or as `clz(**mapping)`.
     */
    method FetchOne<B>(row: Option<Row>, clz: Pairs<string, Value> -> B, toDict: bool := false) returns (r: Result<Option<Fetched<B>>, Error>)
      ensures row.None? ==> r == Ok(None)
      ensures row.Some? ==> match RowMapping(Columns(), row.value)
                           case Ok(m) => r == Ok(Some(Materialise(m, toDict, clz)))
                           case Err(e) => r == Err(e)
    {
      if row.None? {
        return Ok(None);
      }
      var m := RowMapping(Columns(), row.value);
      if m.Err? {
        return Err(m.error);
      }
      r := Ok(Some(if toDict then AsDict(m.value) else AsObject(clz(m.value))));
    }

    /**
     * `fetchall(cursor, to_dict)`: one entry per row, in row order, each the row's mapping or
     * `clz(**mapping)`; the first unmappable row raises.
     */
    method FetchAll<B>(rows: seq<Row>, clz: Pairs<string, Value> -> B, toDict: bool := false) returns (r: Result<seq<Fetched<B>>, Error>)
      ensures r.Ok? <==> forall i | 0 <= i < |rows| :: RowMapping(Columns(), rows[i]).Ok?
      ensures r.Ok? ==> |r.value| == |rows| && forall i | 0 <= i < |rows| ::
                RowMapping(Columns(), rows[i]).Ok? && r.value[i] == Materialise(RowMapping(Columns(), rows[i]).value, toDict, clz)
    {
      var entities: seq<Fetched<B>> := [];
      var i := 0;
      while i < |rows|
        invariant 0 <= i <= |rows| && |entities| == i
        invariant forall j | 0 <= j < i ::
                    RowMapping(Columns(), rows[j]).Ok? && entities[j] == Materialise(RowMapping(Columns(), rows[j]).value, toDict, clz)
      {
        var m := RowMapping(Columns(), rows[i]);
        if m.Err? {
          return Err(m.error);
        }
        entities := entities + [if toDict then AsDict(m.value) else AsObject(clz(m.value))];
        i := i + 1;
      }
      r := Ok(entities);
    }
  }

  /**
   * The statements of one builder agree: count, select, page and mapping all carry the
   * where-list's values as arguments, the first being the seed's 0, and the WHERE text is
   * never empty.
   */
  lemma StatementsShareArgs(q: ChainedQuery, page: int, pageSize: int, more: seq<Condition>, logicDeleteCol: Option<string>)
    requires q.where == Seed(logicDeleteCol) + more
    ensures q.CountStatement().args == q.SelectStatement().args == q.PageStatement(page, pageSize).args == q.MappingStatement().args
    ensures q.CountStatement().args[0] == Int(0) && |q.CountStatement().args| == 1 + |more|
    ensures q.Where() != ""
  {
    SeededWhere(logicDeleteCol, more, q.placeholder);
  }

  /** Occurrences add up over a five-part concatenation. */
  lemma OccurrencesAppend5(a: string, b: string, c: string, d: string, e: string, x: char)
    ensures Occurrences(a + b + c + d + e, x) == Occurrences(a, x) + Occurrences(b, x) + Occurrences(c, x) + Occurrences(d, x) + Occurrences(e, x)
  {
    OccurrencesAppend(a, b, x);
    OccurrencesAppend(a + b, c, x);
    OccurrencesAppend(a + b + c, d, x);
    OccurrencesAppend(a + b + c + d, e, x);
  }

  /** The select head's text holds the `?` of its where part and no other. */
  lemma SelectHeadMarks(cols: string, table: string, w: string, g: string, o: string)
    requires Occurrences(cols, '?') == 0 && Occurrences(table, '?') == 0
    requires Occurrences(g, '?') == 0 && Occurrences(o, '?') == 0
    ensures Occurrences("SELECT " + cols + " FROM " + table + " " + w + " " + g + " " + o + " ", '?') == Occurrences(w, '?')
  {
    NoOccurrence(" ", '?');
    NoOccurrence("SELECT ", '?');
    NoOccurrence(" FROM ", '?');
    var h0 := "SELECT " + cols + " FROM " + table + " ";
    OccurrencesAppend5("SELECT ", cols, " FROM ", table, " ", '?');
    OccurrencesAppend5(h0, w, " ", g, " ", '?');
    OccurrencesAppend5(h0 + w + " " + g + " ", o, " ", "", "", '?');
    assert h0 + w + " " + g + " " + o + " " == h0 + w + " " + g + " " + o + " " + "" + "";
  }

  lemma SelectHeadPlaceholders(q: ChainedQuery)
    requires q.placeholder == "?" && NoMarks(q.where)
    requires Occurrences(q.table, '?') == 0 && NoneHas(q.Columns(), '?') && NoneHas(q.groupBy, '?')
    requires SortsUnmarked(q.sorts)
    ensures Occurrences(q.SelectHead(), '?') == |BuildArgs(q.where)|
  {
    WherePlaceholders(q.where);
    GroupByUnmarked(q.groupBy);
    OrderByUnmarked(q.sorts);
    NoOccurrence(", ", '?');
    JoinFree(q.Columns(), ", ", '?');
    SelectHeadMarks(Join(q.Columns(), ", "), q.table, q.Where(), GroupByText(q.groupBy), OrderByText(q.sorts));
  }

  lemma CountPlaceholders(q: ChainedQuery)
    requires q.placeholder == "?" && NoMarks(q.where)
    requires Occurrences(q.table, '?') == 0 && NoneHas(q.groupBy, '?')
    ensures Occurrences(q.CountStatement().sql, '?') == |BuildArgs(q.where)|
  {
    var w := q.Where();
    WherePlaceholders(q.where);
    GroupByUnmarked(q.groupBy);
    NoOccurrence(" ", '?');
    NoOccurrence("SELECT count(1) FROM ", '?');
    OccurrencesAppend5("SELECT count(1) FROM ", q.table, " ", w, " ", '?');
    OccurrencesAppend("SELECT count(1) FROM " + q.table + " " + w + " ", GroupByText(q.groupBy), '?');
  }

  /** The mapping text holds the `?` of its where part and no other. */
  lemma MappingMarks(raw: string, w: string, g: string, o: string)
    requires Occurrences(raw, '?') == 0 && Occurrences(g, '?') == 0 && Occurrences(o, '?') == 0
    ensures Occurrences((raw + " " + w) + (" " + g + " " + o), '?') == Occurrences(w, '?')
  {
    NoOccurrence(" ", '?');
    OccurrencesAppend(raw, " ", '?');
    OccurrencesAppend(raw + " ", w, '?');
    OccurrencesAppend(" ", g, '?');
    OccurrencesAppend(" " + g, " ", '?');
    OccurrencesAppend(" " + g + " ", o, '?');
    OccurrencesAppend(raw + " " + w, " " + g + " " + o, '?');
  }

  lemma MappingPlaceholders(q: ChainedQuery)
    requires q.placeholder == "?" && NoMarks(q.where)
    requires NoneHas(q.groupBy, '?') && SortsUnmarked(q.sorts) && Occurrences(RawText(q.raw), '?') == 0
    ensures Occurrences(q.MappingStatement().sql, '?') == |BuildArgs(q.where)|
  {
    WherePlaceholders(q.where);
    GroupByUnmarked(q.groupBy);
    OrderByUnmarked(q.sorts);
    MappingMarks(RawText(q.raw), q.Where(), GroupByText(q.groupBy), OrderByText(q.sorts));
  }

  /**
   * With `?` as the placeholder and no `?` in the table, column, group-by, sort or raw
   * texts, every statement holds exactly one `?` per argument, so the driver binds each
   * where-list value to its own marker.
   */
  lemma StatementPlaceholders(q: ChainedQuery, page: int, pageSize: int)
    requires q.placeholder == "?" && NoMarks(q.where)
    requires Occurrences(q.table, '?') == 0 && NoneHas(q.Columns(), '?') && NoneHas(q.groupBy, '?')
    requires SortsUnmarked(q.sorts) && Occurrences(RawText(q.raw), '?') == 0
    ensures Occurrences(q.CountStatement().sql, '?') == |q.CountStatement().args|
    ensures Occurrences(q.SelectStatement().sql, '?') == |q.SelectStatement().args|
    ensures Occurrences(q.PageStatement(page, pageSize).sql, '?') == |q.PageStatement(page, pageSize).args|
    ensures Occurrences(q.MappingStatement().sql, '?') == |q.MappingStatement().args|
  {
    CountPlaceholders(q);
    MappingPlaceholders(q);
    SelectHeadPlaceholders(q);
    LimitUnmarked(q.limit, page, pageSize);
    OccurrencesAppend(q.SelectHead(), LimitText(q.limit), '?');
    OccurrencesAppend(q.SelectHead(), PageText(page, pageSize), '?');
  }
}
