/**
 * seal/db/wrapper.py: the condition wrapper with tenant and soft-delete injection.
 * Every method appends to the wrapper's condition tree in place.
 */
module ConditionWrapper {
  import opened Wrappers
  import opened Errors
  import opened Values
  import opened Conditions

  /** What `handle_public_fields` appends, and the error it raises afterwards, if any. */
  datatype Injection = Injection(appended: seq<Condition>, error: Option<Error>)

  /**
   * The conditions `handle_public_fields` appends for a given configuration and
   * `logical_deleted` option. A tenant condition is appended before the soft-delete
   * sentinels are checked, so it survives a MissingLogicalDeleteConfig error.
   */
  function PublicFieldConditions(
    tenantField: Option<string>, tenantValue: Value,
    deletedField: Option<string>, deletedTrue: Value, deletedFalse: Value,
    logicalDeleted: Option<string>): (r: Injection)
    // the per-call option wins and skips the configuration
    ensures logicalDeleted.Some? ==> r == Injection([Compare(Eq, logicalDeleted.value, Int(0))], None)
    // a configured tenant field with a None value fails before anything is appended
    ensures logicalDeleted.None? && tenantField.Some? && tenantValue == Null ==>
      r == Injection([], Some(MissingTenantValue))
    // the tenant equality comes first whenever it is appended
    ensures logicalDeleted.None? && tenantField.Some? && tenantValue != Null ==>
      |r.appended| >= 1 && r.appended[0] == Compare(Eq, tenantField.value, tenantValue)
    // a soft-delete field with a missing sentinel fails after the tenant condition
    ensures logicalDeleted.None? && !(tenantField.Some? && tenantValue == Null) && deletedField.Some?
            && (deletedTrue == Null || deletedFalse == Null) ==>
      r.error == Some(MissingLogicalDeleteConfig) && |r.appended| == (if tenantField.Some? then 1 else 0)
    // with both configured and valid: tenant equality, then "not deleted"
    ensures logicalDeleted.None? && tenantField.Some? && tenantValue != Null && deletedField.Some?
            && deletedTrue != Null && deletedFalse != Null ==>
      r == Injection([Compare(Eq, tenantField.value, tenantValue), Compare(Eq, deletedField.value, deletedFalse)], None)
    // a tenant alone: only its equality
    ensures logicalDeleted.None? && tenantField.Some? && tenantValue != Null && deletedField.None? ==>
      r == Injection([Compare(Eq, tenantField.value, tenantValue)], None)
    // soft delete alone, both sentinels set: only "not deleted"
    ensures logicalDeleted.None? && tenantField.None? && deletedField.Some? && deletedTrue != Null && deletedFalse != Null ==>
      r == Injection([Compare(Eq, deletedField.value, deletedFalse)], None)
    // with nothing configured, nothing is appended
    ensures logicalDeleted.None? && tenantField.None? && deletedField.None? ==> r == Injection([], None)
    // an error is only ever one of the two configuration errors
    ensures r.error.Some? ==> r.error.value in {MissingTenantValue, MissingLogicalDeleteConfig}
    ensures |r.appended| <= 2
  {
    if logicalDeleted.Some? then Injection([Compare(Eq, logicalDeleted.value, Int(0))], None)
    else if tenantField.Some? && tenantValue == Null then Injection([], Some(MissingTenantValue))
    else
      var tenant := if tenantField.Some? then [Compare(Eq, tenantField.value, tenantValue)] else [];
      if deletedField.None? then Injection(tenant, None)
      else if deletedTrue == Null || deletedFalse == Null then Injection(tenant, Some(MissingLogicalDeleteConfig))
      else Injection(tenant + [Compare(Eq, deletedField.value, deletedFalse)], None)
  }

  class Wrapper {
    const tree: ConditionTree
    const tenantField: Option<string>
    const tenantValue: Value
    const deletedField: Option<string>
    const deletedTrue: Value
    const deletedFalse: Value

    function Injected(logicalDeleted: Option<string>): Injection
    {
      PublicFieldConditions(tenantField, tenantValue, deletedField, deletedTrue, deletedFalse, logicalDeleted)
    }

    /** Starts with an empty `and` tree; every setting defaults to None. */
    constructor (tenantField: Option<string> := None, tenantValue: Value := Null,
                 deletedField: Option<string> := None, deletedTrue: Value := Null, deletedFalse: Value := Null)
      ensures fresh(tree) && tree.Value() == EmptyTree
      ensures this.tenantField == tenantField && this.tenantValue == tenantValue
      ensures this.deletedField == deletedField && this.deletedTrue == deletedTrue && this.deletedFalse == deletedFalse
    {
      tree := new ConditionTree();
      this.tenantField, this.tenantValue := tenantField, tenantValue;
      this.deletedField, this.deletedTrue, this.deletedFalse := deletedField, deletedTrue, deletedFalse;
    }

    /** `eq`, `ne`, `gt`, `ge`, `lt`, `le`, `in_`, `l_like`, `r_like`, `like`: one condition appended. */
    method Compare(k: Comparison, field: string, value: Value) returns (self: Wrapper)
      modifies tree
      ensures self == this
      ensures tree.conditions == old(tree.conditions) + [Leaf(Conditions.Compare(k, field, value))]
      ensures tree.logic == old(tree.logic)
    {
      var _ := tree.AddCondition(Conditions.Compare(k, field, value));
      self := this;
    }

    /**
     * `or_`: the other wrapper's tree gets the `or` connective (the argument is changed)
     * and is appended as one nested tree.
     */
    method Or(other: Wrapper) returns (self: Wrapper)
      modifies tree, other.tree
      ensures self == this
      ensures other.tree.logic == "or"
      ensures tree.conditions == old(tree.conditions) + [Subtree(Tree(old(other.tree.conditions), "or"))]
      ensures other.tree != tree ==> tree.logic == old(tree.logic) && other.tree.conditions == old(other.tree.conditions)
    {
      var _ := other.tree.Or();
      var _ := tree.AddTree(other.tree.Value());
      self := this;
    }

    /**
     * `handle_public_fields(**options)`: the conditions are appended to whatever the tree
     * already holds, so a second call appends them a second time.
     */
    method HandlePublicFields(logicalDeleted: Option<string>) returns (error: Option<Error>)
      modifies tree
      ensures tree.conditions == old(tree.conditions) + LeafEntries(Injected(logicalDeleted).appended)
      ensures tree.logic == old(tree.logic)
      ensures error == Injected(logicalDeleted).error
    {
      if logicalDeleted.Some? {
        var _ := Compare(Eq, logicalDeleted.value, Int(0));
        return None;
      }
      if tenantField.Some? {
        if tenantValue == Null {
          return Some(MissingTenantValue);
        }
        var _ := Compare(Eq, tenantField.value, tenantValue);
      }
      if deletedField.Some? {
        if deletedTrue == Null || deletedFalse == Null {
          return Some(MissingLogicalDeleteConfig);
        }
        var _ := Compare(Eq, deletedField.value, deletedFalse);
      }
      error := None;
    }
  }
}
