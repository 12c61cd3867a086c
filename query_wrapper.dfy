/**
 * seal/db/query_wrapper.py: a table-bound wrapper that also holds the select list, the
 * ignore list, the sort order, a limit and an offset, and compiles SELECT and COUNT
 * statements from them. The executor that would run a statement is not modelled: each
 * finder returns the statement it would hand over.
 */
module QueryWrappers {
  import opened Wrappers
  import opened Errors
  import opened Values
  import opened Conditions
  import opened Lists
  import opened SqlBuilder
  import opened BaseWrappers

  /** `find_page`'s offset for a 1-based page number. */
  function PageOffset(page: int, pageSize: int): (o: int)
    ensures page == 1 ==> o == 0
    ensures page >= 1 && pageSize >= 0 ==> o >= 0
  {
    (page - 1) * pageSize
  }

  /** Consecutive pages tile the rows: each page starts where the previous one ends. */
  lemma PagesTile(page: int, pageSize: int)
    ensures PageOffset(page + 1, pageSize) == PageOffset(page, pageSize) + pageSize
    ensures page >= 1 && pageSize >= 0 ==> PageOffset(page + 1, pageSize) >= pageSize
  {
    assert page * pageSize == (page - 1) * pageSize + pageSize;
  }

  class QueryWrapper {
    const base: BaseWrapper
    /** The field names of `data_source.get_data_structure(table)`, in declaration order. */
    const resultFields: seq<string>
    var limit: Option<int>
    var offset: Option<int>
    var orderBy: Option<seq<string>>
    var fieldList: seq<string>
    var ignoreFields: seq<string>

    /** Limit, offset and sort start unset; the select and ignore lists start empty. */
    constructor (table: string, dataSource: string, resultFields: seq<string>, logicalDelete: Option<string> := None)
      ensures fresh(base) && fresh(base.tree)
      ensures base.table == table && base.dataSource == dataSource && base.logicalDelete == logicalDelete
      ensures base.tree.Value() == EmptyTree && this.resultFields == resultFields
      ensures limit.None? && offset.None? && orderBy.None? && fieldList == [] && ignoreFields == []
    {
      base := new BaseWrapper(table, dataSource, logicalDelete);
      this.resultFields := resultFields;
      limit, offset, orderBy := None, None, None;
      fieldList, ignoreFields := [], [];
    }

    /** `select(*fields)`: replaces the select list. */
    method Select(fields: seq<string>) returns (self: QueryWrapper)
      modifies this
      ensures self == this && fieldList == fields
      ensures ignoreFields == old(ignoreFields) && orderBy == old(orderBy) && limit == old(limit) && offset == old(offset)
    {
      fieldList := fields;
      self := this;
    }

    /** `ignore(*fields)`: replaces the ignore list. */
    method Ignore(fields: seq<string>) returns (self: QueryWrapper)
      modifies this
      ensures self == this && ignoreFields == fields
      ensures fieldList == old(fieldList) && orderBy == old(orderBy) && limit == old(limit) && offset == old(offset)
    {
      ignoreFields := fields;
      self := this;
    }

    /** `sort(*order_by)`: replaces the sort list. */
    method Sort(order: seq<string>) returns (self: QueryWrapper)
      modifies this
      ensures self == this && orderBy == Some(order)
      ensures fieldList == old(fieldList) && ignoreFields == old(ignoreFields) && limit == old(limit) && offset == old(offset)
    {
      orderBy := Some(order);
      self := this;
    }

    /**
     * `wrapper.limit(n)` as written: the constructor's `self.limit = None` hides the method
     * behind an instance attribute that is never callable (None, or later an int), so the
     * call always fails and changes nothing.
     */
    method Limit(n: int) returns (r: Result<QueryWrapper, Error>)
      ensures r == Err(NotCallable)
    {
      r := Err(NotCallable);
    }

    /** `wrapper.offset(n)` as written: hidden the same way as `limit`. */
    method Offset(n: int) returns (r: Result<QueryWrapper, Error>)
      ensures r == Err(NotCallable)
    {
      r := Err(NotCallable);
    }

    /** What the `limit` method evidently means to do: store the limit and return the wrapper. */
    method SetLimit(n: int) returns (self: QueryWrapper)
      modifies this
      ensures self == this && limit == Some(n)
      ensures fieldList == old(fieldList) && ignoreFields == old(ignoreFields) && orderBy == old(orderBy) && offset == old(offset)
    {
      limit := Some(n);
      self := this;
    }

    /** What the `offset` method evidently means to do. */
    method SetOffset(n: int) returns (self: QueryWrapper)
      modifies this
      ensures self == this && offset == Some(n)
      ensures fieldList == old(fieldList) && ignoreFields == old(ignoreFields) && orderBy == old(orderBy) && limit == old(limit)
    {
      offset := Some(n);
      self := this;
    }

    /** `_build_select`: resolves the select list in place, then compiles the SELECT. */
    method BuildSelectStatement() returns (r: Result<Statement, Error>)
      modifies this
      ensures fieldList == Resolve(old(fieldList), resultFields, ignoreFields)
      ensures ignoreFields == old(ignoreFields) && orderBy == old(orderBy) && limit == old(limit) && offset == old(offset)
      ensures r == BuildSelect(fieldList, base.table, base.tree.Value(), orderBy, limit, offset)
    {
      if |fieldList| == 0 {
        fieldList := Without(resultFields, ignoreFields);
        assert fieldList == Resolve(old(fieldList), resultFields, ignoreFields);
      }
      r := BuildSelect(fieldList, base.table, base.tree.Value(), orderBy, limit, offset);
    }

    /**
     * `find_one` and `find_list`: the logical-delete handler runs once, then the SELECT is
     * compiled from the tree it left behind.
     */
    method Find(option: Option<string>) returns (r: Result<Statement, Error>)
      modifies this, base.tree
      ensures base.tree.conditions == old(base.tree.conditions) + LeafEntries(LogicalDeleteConditions(base.logicalDelete, option))
      ensures base.tree.logic == old(base.tree.logic)
      ensures fieldList == Resolve(old(fieldList), resultFields, ignoreFields)
      ensures ignoreFields == old(ignoreFields) && orderBy == old(orderBy) && limit == old(limit) && offset == old(offset)
      ensures r == BuildSelect(fieldList, base.table, base.tree.Value(), orderBy, limit, offset)
    {
      base.HandleLogicalDelete(option);
      r := BuildSelectStatement();
    }

    /** `count`: the COUNT over the current tree. */
    method Count() returns (r: Result<Statement, Error>)
      ensures r == BuildCount(base.table, base.tree.Value())
    {
      r := BuildCount(base.table, base.tree.Value());
    }

    /**
     * `find_page`: limit and offset are overwritten from the page before the SELECT is
     * compiled; the total is a COUNT over the same tree.
     */
    method FindPage(page: int, pageSize: int, option: Option<string>) returns (r: Result<(Statement, Statement), Error>)
      modifies this, base.tree
      ensures base.tree.conditions == old(base.tree.conditions) + LeafEntries(LogicalDeleteConditions(base.logicalDelete, option))
      ensures base.tree.logic == old(base.tree.logic)
      ensures limit == Some(pageSize) && offset == Some(PageOffset(page, pageSize))
      ensures fieldList == Resolve(old(fieldList), resultFields, ignoreFields)
      ensures ignoreFields == old(ignoreFields) && orderBy == old(orderBy)
      ensures var select := BuildSelect(fieldList, base.table, base.tree.Value(), orderBy, limit, offset);
              && (select.Err? ==> r == Err(select.error))
              && (select.Ok? ==> r == Ok((select.value, BuildCount(base.table, base.tree.Value()).value)))
    {
      base.HandleLogicalDelete(option);
      limit := Some(pageSize);
      offset := Some((page - 1) * pageSize);
      var select := BuildSelectStatement();
      if select.Err? {
        return Err(select.error);
      }
      var count := Count();
      r := Ok((select.value, count.value));
    }
  }

  /**
   * A page's COUNT carries the same WHERE arguments as its SELECT, and each page starts
   * where the previous one ended.
   */
  lemma PageAndCountAgree(fieldList: seq<string>, table: string, t: Tree, orderBy: Option<seq<string>>, page: int, pageSize: int)
    requires BuildSelect(fieldList, table, t, orderBy, Some(pageSize), Some(PageOffset(page, pageSize))).Ok?
    ensures BuildCount(table, t).Ok?
    ensures BuildCount(table, t).value.args == BuildSelect(fieldList, table, t, orderBy, Some(pageSize), Some(PageOffset(page, pageSize))).value.args
    ensures PageOffset(page + 1, pageSize) == PageOffset(page, pageSize) + pageSize
  {
    CountSharesSelectWhere(fieldList, table, t, orderBy, Some(pageSize), Some(PageOffset(page, pageSize)));
    assert page * pageSize == (page - 1) * pageSize + pageSize;
  }
}
