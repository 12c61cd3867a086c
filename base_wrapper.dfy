/**
 * seal/db/base_wrapper.py: the table-bound wrapper that the query and update wrappers extend.
 * Comparison methods and the logical-delete handler append to its condition tree in place.
 */
module BaseWrappers {
  import opened Wrappers
  import opened Values
  import opened Conditions

  /**
   * The conditions `_handle_logical_delete` appends: the option's field wins and stops there;
   * otherwise the configured field, if any.
   */
  function LogicalDeleteConditions(configured: Option<string>, option: Option<string>): (r: seq<Condition>)
    ensures option.Some? ==> r == [Compare(Eq, option.value, Int(0))]
    ensures option.None? ==> (|r| > 0 <==> configured.Some?)
    ensures option.None? && configured.Some? ==> r == [Compare(Eq, configured.value, Int(0))]
    ensures |r| <= 1
  {
    if option.Some? then [Compare(Eq, option.value, Int(0))]
    else if configured.Some? then [Compare(Eq, configured.value, Int(0))]
    else []
  }

  class BaseWrapper {
    const table: string
    const dataSource: string
    const logicalDelete: Option<string>
    const tree: ConditionTree

    /** Stores table, data source and logical-delete field; the tree starts empty with `and`. */
    constructor (table: string, dataSource: string, logicalDelete: Option<string> := None)
      ensures this.table == table && this.dataSource == dataSource && this.logicalDelete == logicalDelete
      ensures fresh(tree) && tree.Value() == EmptyTree
    {
      this.table, this.dataSource, this.logicalDelete := table, dataSource, logicalDelete;
      tree := new ConditionTree();
    }

    /** `eq` … `like`: exactly one condition with the matching operator is appended. */
    method Compare(k: Comparison, field: string, value: Value) returns (self: BaseWrapper)
      modifies tree
      ensures self == this
      ensures tree.conditions == old(tree.conditions) + [Leaf(Conditions.Compare(k, field, value))]
      ensures tree.logic == old(tree.logic)
    {
      var _ := tree.AddCondition(Conditions.Compare(k, field, value));
      self := this;
    }

    /** `or_`: the other wrapper's tree is appended as one nested tree; its connective is left alone. */
    method Or(other: BaseWrapper) returns (self: BaseWrapper)
      modifies tree
      ensures self == this
      ensures tree.conditions == old(tree.conditions) + [Subtree(old(other.tree.Value()))]
      ensures tree.logic == old(tree.logic)
    {
      var _ := tree.AddTree(other.tree.Value());
      self := this;
    }

    /** `_handle_logical_delete(**options)` */
    method HandleLogicalDelete(option: Option<string>)
      modifies tree
      ensures tree.conditions == old(tree.conditions) + LeafEntries(LogicalDeleteConditions(logicalDelete, option))
      ensures tree.logic == old(tree.logic)
    {
      if option.Some? {
        var _ := Compare(Eq, option.value, Int(0));
        return;
      }
      if logicalDelete.Some? {
        var _ := Compare(Eq, logicalDelete.value, Int(0));
      }
    }
  }
}
