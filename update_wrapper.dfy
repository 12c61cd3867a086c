/**
 * seal/db/update_wrapper.py: a table-bound wrapper with an insertion-ordered map of
 * columns to set, compiling UPDATE and DELETE statements.
 */
module UpdateWrappers {
  import opened Wrappers
  import opened Errors
  import opened Values
  import opened Conditions
  import opened OrderedMaps
  import opened SqlBuilder
  import opened BaseWrappers

  /** `options.get('logical_delete', False)` is truthy: present and not the empty string. */
  predicate Truthy(option: Option<string>)
  {
    option.Some? && option.value != ""
  }

  class UpdateWrapper {
    const base: BaseWrapper
    var updateFields: Pairs<string, Value>

    /** Starts with nothing to set and an empty `and` tree. */
    constructor (table: string, dataSource: string, logicalDelete: Option<string> := None)
      ensures fresh(base) && fresh(base.tree)
      ensures base.table == table && base.dataSource == dataSource && base.logicalDelete == logicalDelete
      ensures base.tree.Value() == EmptyTree && updateFields == []
    {
      base := new BaseWrapper(table, dataSource, logicalDelete);
      updateFields := [];
    }

    /** `set(field, value)`: inserts or overwrites, keeping first-insertion key order. */
    method Set(field: string, value: Value) returns (self: UpdateWrapper)
      modifies this
      ensures self == this && updateFields == Put(old(updateFields), field, value)
    {
      updateFields := Put(updateFields, field, value);
      self := this;
    }

    /** `update(**options)`: the logical-delete handler runs, then `build_update`. */
    method Update(option: Option<string>) returns (r: Result<Statement, Error>)
      modifies base.tree
      ensures base.tree.conditions == old(base.tree.conditions) + LeafEntries(LogicalDeleteConditions(base.logicalDelete, option))
      ensures base.tree.logic == old(base.tree.logic)
      ensures r == BuildUpdate(base.table, updateFields, base.tree.Value())
    {
      base.HandleLogicalDelete(option);
      r := BuildUpdate(base.table, updateFields, base.tree.Value());
    }

    /**
     * `delete(**options)`. With a truthy option the field is set to 1 and `update` runs,
     * which calls the handler a second time, so the option's not-deleted condition is
     * appended twice. Otherwise the statement is a DELETE, refused when the tree is empty.
     */
    method Delete(option: Option<string>) returns (r: Result<Statement, Error>)
      modifies this, base.tree
      ensures base.tree.logic == old(base.tree.logic)
      ensures Truthy(option) ==>
        && updateFields == Put(old(updateFields), option.value, Int(1))
        && base.tree.conditions == old(base.tree.conditions) + [Leaf(Compare(Eq, option.value, Int(0)))]
                                                             + [Leaf(Compare(Eq, option.value, Int(0)))]
        && r == BuildUpdate(base.table, updateFields, base.tree.Value())
      ensures !Truthy(option) ==>
        && updateFields == old(updateFields)
        && base.tree.conditions == old(base.tree.conditions) + LeafEntries(LogicalDeleteConditions(base.logicalDelete, option))
        && r == BuildDelete(base.table, base.tree.Value())
    {
      base.HandleLogicalDelete(option);
      if Truthy(option) {
        var _ := Set(option.value, Int(1));
        r := Update(option);
      } else {
        r := BuildDelete(base.table, base.tree.Value());
      }
    }
  }

  /**
   * A logical delete through `delete` always compiles: the tree holds at least the two
   * not-deleted conditions, and the arguments end with them, after the `1` that was set.
   */
  lemma LogicalDeleteArgs(table: string, fields: Pairs<string, Value>, before: seq<Entry>, logic: string, column: string)
    requires column != "" && NoEmptySubtree(Tree(before, logic))
    ensures var c := Compare(Eq, column, Int(0));
            var t := Tree(before + [Leaf(c)] + [Leaf(c)], logic);
            var r := BuildUpdate(table, Put(fields, column, Int(1)), t);
            && r.Ok?
            && r.value.args == OrderedMaps.Values(Put(fields, column, Int(1))) + Leaves(t)
            && r.value.args[|r.value.args| - 2..] == [Int(0), Int(0)]
  {
    var c := Compare(Eq, column, Int(0));
    var t := Tree(before + [Leaf(c)] + [Leaf(c)], logic);
    assert NoEmptySubtree(t);
    LeavesSnoc(Tree(before, logic), c);
    LeavesSnoc(Tree(before + [Leaf(c)], logic), c);
  }
}
