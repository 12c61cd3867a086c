/**
 * seal/db/condition.py: a single comparison and the AND/OR condition tree that renders
 * to a `?`-placeholder expression plus a positional argument list.
 */
module Conditions {
  import opened Wrappers
  import opened Text
  import opened Values

  /** `Condition(field, value, operator='=')` */
  datatype Condition = Condition(field: string, value: Value, operator: string)

  const DefaultOperator := "="

  /** The constructor with its default operator. */
  function NewCondition(field: string, value: Value, operator: string := DefaultOperator): (c: Condition)
    ensures c.field == field && c.value == value && c.operator == operator
  {
    Condition(field, value, operator)
  }

  /** `Condition.parse`: the text `"{field} {operator} ?"` and the value unchanged. */
  function ParseCondition(c: Condition): (r: (string, Value))
    ensures r.1 == c.value
    ensures r.0 == c.field + " " + c.operator + " ?"
    ensures Occurrences(r.0, '?') == Occurrences(c.field, '?') + Occurrences(c.operator, '?') + 1
  {
    var text := c.field + " " + c.operator + " ?";
    OccurrencesAppend(c.field, " ", '?');
    OccurrencesAppend(c.field + " ", c.operator, '?');
    OccurrencesAppend(c.field + " " + c.operator, " ?", '?');
    (text, c.value)
  }

  /** The comparison methods shared by every builder (eq, ne, gt, ge, lt, le, in_, l_like, r_like, like). */
  datatype Comparison = Eq | Ne | Gt | Ge | Lt | Le | In | LLike | RLike | Like

  function Operator(k: Comparison): string
  {
    match k
    case Eq => "="
    case Ne => "!="
    case Gt => ">"
    case Ge => ">="
    case Lt => "<"
    case Le => "<="
    case In => "in"
    case LLike => "like"
    case RLike => "like"
    case Like => "like"
  }

  /** The condition one comparison method appends: like-variants wrap `str(value)` with `%`. */
  function Compare(k: Comparison, field: string, value: Value): (c: Condition)
    ensures c.field == field && c.operator == Operator(k)
    ensures k !in {LLike, RLike, Like} ==> c.value == value
    ensures k == LLike ==> c.value == Str("%" + Show(value))
    ensures k == RLike ==> c.value == Str(Show(value) + "%")
    ensures k == Like ==> c.value == Str("%" + Show(value) + "%")
  {
    match k
    case LLike => Condition(field, Str("%" + Show(value)), "like")
    case RLike => Condition(field, Str(Show(value) + "%"), "like")
    case Like => Condition(field, Str("%" + Show(value) + "%"), "like")
    case _ => Condition(field, value, Operator(k))
  }

  /** A child of a tree: a condition or a nested tree. */
  datatype Entry = Leaf(condition: Condition) | Subtree(tree: Tree)

  /** `ConditionTree`: its children in insertion order and its own connective. */
  datatype Tree = Tree(conditions: seq<Entry>, logic: string)

  const EmptyTree := Tree([], "and")

  /** What `ConditionTree.parse` gives: None, an (expression, args) pair, or the TypeError of unpacking None. */
  datatype Parsed = NoConditions | Clause(exp: string, args: seq<Value>) | UnpackError

  /** `ConditionTree.parse` */
  function Parse(t: Tree): Parsed
    decreases t, 1
  {
    if |t.conditions| == 0 then NoConditions
    else
      match ParsePieces(t, 0)
      case None => UnpackError
      case Some(pieces) => Clause(Join(pieces.0, " " + t.logic + " "), pieces.1)
  }

  /** The expressions and arguments of children `i..`; None when a nested tree parses to None. */
  function ParsePieces(t: Tree, i: nat): Option<(seq<string>, seq<Value>)>
    requires i <= |t.conditions|
    decreases t, 0, |t.conditions| - i
  {
    if i == |t.conditions| then Some(([], []))
    else
      var head: Option<(string, seq<Value>)> :=
        match t.conditions[i]
        case Leaf(c) => Some((ParseCondition(c).0, [ParseCondition(c).1]))
        case Subtree(s) =>
          (match Parse(s)
           case Clause(e, a) => Some(("(" + e + ")", a))
           case _ => None);
      match head
      case None => None
      case Some(h) =>
        match ParsePieces(t, i + 1)
        case None => None
        case Some(rest) => Some(([h.0] + rest.0, h.1 + rest.1))
  }

  /** Reference order of the arguments: leaf values, left to right, depth first. */
  function Leaves(t: Tree): seq<Value>
    decreases t, 1
  {
    LeavesFrom(t, 0)
  }

  function LeavesFrom(t: Tree, i: nat): seq<Value>
    requires i <= |t.conditions|
    decreases t, 0, |t.conditions| - i
  {
    if i == |t.conditions| then []
    else
      (match t.conditions[i]
       case Leaf(c) => [c.value]
       case Subtree(s) => Leaves(s))
      + LeavesFrom(t, i + 1)
  }

  /** Appending a condition to a tree appends its value to the tree's arguments. */
  lemma LeavesSnoc(t: Tree, c: Condition)
    ensures Leaves(Tree(t.conditions + [Leaf(c)], t.logic)) == Leaves(t) + [c.value]
  {
    LeavesFromSnoc(t, c, 0);
  }

  lemma {:induction false} LeavesFromSnoc(t: Tree, c: Condition, i: nat)
    requires i <= |t.conditions|
    ensures LeavesFrom(Tree(t.conditions + [Leaf(c)], t.logic), i) == LeavesFrom(t, i) + [c.value]
    decreases |t.conditions| - i
  {
    var u := Tree(t.conditions + [Leaf(c)], t.logic);
    if i == |t.conditions| {
      assert u.conditions[i] == Leaf(c);
      assert LeavesFrom(u, i + 1) == [];
    } else {
      assert u.conditions[i] == t.conditions[i];
      LeavesFromSnoc(t, c, i + 1);
    }
  }

  /** No nested tree, at any depth, is empty. */
  predicate NoEmptySubtree(t: Tree)
    decreases t
  {
    forall i | 0 <= i < |t.conditions| ::
      t.conditions[i].Subtree? ==>
        |t.conditions[i].tree.conditions| > 0 && NoEmptySubtree(t.conditions[i].tree)
  }

  /** No field, operator or connective text anywhere in the tree holds a `?`. */
  predicate NoQuestionMarks(t: Tree)
    decreases t
  {
    && Occurrences(t.logic, '?') == 0
    && forall i | 0 <= i < |t.conditions| ::
         match t.conditions[i]
         case Leaf(c) => Occurrences(c.field, '?') == 0 && Occurrences(c.operator, '?') == 0
         case Subtree(s) => NoQuestionMarks(s)
  }

  /** A non-empty tree parses exactly when none of its nested trees is empty. */
  lemma {:induction false} ParseSucceedsIff(t: Tree)
    requires |t.conditions| > 0
    ensures Parse(t).Clause? <==> NoEmptySubtree(t)
    ensures !Parse(t).NoConditions?
    decreases t, 1
  {
    PiecesSucceedIff(t, 0);
  }

  lemma {:induction false} PiecesSucceedIff(t: Tree, i: nat)
    requires i <= |t.conditions|
    ensures ParsePieces(t, i).Some? <==>
      forall j | i <= j < |t.conditions| ::
        t.conditions[j].Subtree? ==>
          |t.conditions[j].tree.conditions| > 0 && NoEmptySubtree(t.conditions[j].tree)
    decreases t, 0, |t.conditions| - i
  {
    if i < |t.conditions| {
      PiecesSucceedIff(t, i + 1);
      match t.conditions[i]
      case Leaf(c) =>
      case Subtree(s) =>
        if |s.conditions| > 0 {
          ParseSucceedsIff(s);
        }
    }
  }

  /** The arguments of a parsed tree are its leaf values in depth-first order. */
  lemma {:induction false} ParseArgsAreLeaves(t: Tree)
    requires Parse(t).Clause?
    ensures Parse(t).args == Leaves(t)
    decreases t, 1
  {
    PiecesArgsAreLeaves(t, 0);
  }

  lemma {:induction false} PiecesArgsAreLeaves(t: Tree, i: nat)
    requires i <= |t.conditions|
    requires ParsePieces(t, i).Some?
    ensures ParsePieces(t, i).value.1 == LeavesFrom(t, i)
    decreases t, 0, |t.conditions| - i
  {
    if i < |t.conditions| {
      PiecesArgsAreLeaves(t, i + 1);
      match t.conditions[i]
      case Leaf(c) =>
      case Subtree(s) =>
        ParseArgsAreLeaves(s);
    }
  }

  /** A tree that parses always yields at least one argument (every leaf contributes one). */
  lemma {:induction false} ClauseHasArgs(t: Tree)
    requires Parse(t).Clause?
    ensures |Parse(t).args| > 0
    decreases t, 1
  {
    PiecesHaveArgs(t, 0);
  }

  lemma {:induction false} PiecesHaveArgs(t: Tree, i: nat)
    requires i < |t.conditions|
    requires ParsePieces(t, i).Some?
    ensures |ParsePieces(t, i).value.1| > 0
    decreases t, 0, |t.conditions| - i
  {
    match t.conditions[i]
    case Leaf(c) =>
    case Subtree(s) =>
      ClauseHasArgs(s);
  }

  /** The number of `?` in the expression equals the number of arguments. */
  lemma {:induction false} PlaceholdersMatchArgs(t: Tree)
    requires Parse(t).Clause?
    requires NoQuestionMarks(t)
    ensures Occurrences(Parse(t).exp, '?') == |Parse(t).args|
    decreases t, 1
  {
    var pieces := ParsePieces(t, 0).value;
    var sep := " " + t.logic + " ";
    OccurrencesAppend(" ", t.logic, '?');
    OccurrencesAppend(" " + t.logic, " ", '?');
    JoinOccurrences(pieces.0, sep, '?');
    PiecesPlaceholders(t, 0);
  }

  lemma {:induction false} PiecesPlaceholders(t: Tree, i: nat)
    requires i <= |t.conditions|
    requires ParsePieces(t, i).Some?
    requires NoQuestionMarks(t)
    ensures TotalOccurrences(ParsePieces(t, i).value.0, '?') == |ParsePieces(t, i).value.1|
    decreases t, 0, |t.conditions| - i
  {
    if i < |t.conditions| {
      PiecesPlaceholders(t, i + 1);
      var rest := ParsePieces(t, i + 1).value;
      match t.conditions[i]
      case Leaf(c) =>
        var h := ParseCondition(c).0;
        assert ([h] + rest.0)[1..] == rest.0;
      case Subtree(s) =>
        var e := Parse(s).exp;
        PlaceholdersMatchArgs(s);
        OccurrencesAppend("(", e, '?');
        OccurrencesAppend("(" + e, ")", '?');
        assert (["(" + e + ")"] + rest.0)[1..] == rest.0;
    }
  }

  /** A nested tree renders in parentheses, and one child renders as itself. */
  lemma NestedIsParenthesised(s: Tree, logic: string)
    requires Parse(s).Clause?
    ensures Parse(Tree([Subtree(s)], logic)) == Clause("(" + Parse(s).exp + ")", Parse(s).args)
  {
    var t := Tree([Subtree(s)], logic);
    assert t.conditions[0] == Subtree(s);
    assert ParsePieces(t, 1) == Some(([], []));
    var e := "(" + Parse(s).exp + ")";
    assert [e] + [] == [e] && Parse(s).args + [] == Parse(s).args;
    assert ParsePieces(t, 0) == Some(([e], Parse(s).args));
  }

  /** One piece per child from `i` on. */
  lemma {:induction false} PiecesLength(t: Tree, i: nat)
    requires i <= |t.conditions| && ParsePieces(t, i).Some?
    ensures |ParsePieces(t, i).value.0| == |t.conditions| - i
    decreases |t.conditions| - i
  {
    if i < |t.conditions| {
      PiecesLength(t, i + 1);
    }
  }

  lemma {:induction false} NestedPieceFrom(t: Tree, j: nat, i: nat, s: Tree)
    requires j <= i < |t.conditions| && t.conditions[i] == Subtree(s) && ParsePieces(t, j).Some?
    ensures Parse(s).Clause? && |ParsePieces(t, j).value.0| == |t.conditions| - j
    ensures ParsePieces(t, j).value.0[i - j] == "(" + Parse(s).exp + ")"
    decreases i - j
  {
    PiecesLength(t, j);
    if j < i {
      NestedPieceFrom(t, j + 1, i, s);
      var rest := ParsePieces(t, j + 1).value.0;
      var h := ParsePieces(t, j).value.0[0];
      assert ParsePieces(t, j).value.0 == [h] + rest;
      assert ([h] + rest)[i - j] == rest[i - (j + 1)];
    }
  }

  /**
   * Wherever a nested tree sits among the children, its piece among those the connective
   * joins is its own expression in parentheses.
   */
  lemma NestedIsParenthesisedAt(t: Tree, i: nat, s: Tree)
    requires i < |t.conditions| && t.conditions[i] == Subtree(s) && Parse(t).Clause?
    ensures Parse(s).Clause? && ParsePieces(t, 0).Some?
    ensures |ParsePieces(t, 0).value.0| == |t.conditions|
    ensures ParsePieces(t, 0).value.0[i] == "(" + Parse(s).exp + ")"
    ensures Parse(t).exp == Join(ParsePieces(t, 0).value.0, " " + t.logic + " ")
  {
    NestedPieceFrom(t, 0, i, s);
  }

  /** Two leaves are joined with the tree's own connective. */
  lemma TwoLeavesJoinedByLogic(a: Condition, b: Condition, logic: string)
    ensures Parse(Tree([Leaf(a), Leaf(b)], logic))
         == Clause(ParseCondition(a).0 + " " + logic + " " + ParseCondition(b).0, [a.value, b.value])
  {
    var t := Tree([Leaf(a), Leaf(b)], logic);
    var ea, eb := ParseCondition(a).0, ParseCondition(b).0;
    assert t.conditions[0] == Leaf(a) && t.conditions[1] == Leaf(b);
    assert ParsePieces(t, 2) == Some(([], []));
    assert [eb] + [] == [eb] && [b.value] + [] == [b.value];
    assert ParsePieces(t, 1) == Some(([eb], [b.value]));
    assert [ea] + [eb] == [ea, eb] && [a.value] + [b.value] == [a.value, b.value];
    assert ParsePieces(t, 0) == Some(([ea, eb], [a.value, b.value]));
    assert [ea, eb][1..] == [eb];
    assert Join([ea, eb], " " + logic + " ") == ea + (" " + logic + " ") + eb;
    assert ea + (" " + logic + " ") + eb == ea + " " + logic + " " + eb;
  }

  /** A nested empty tree makes the whole parse fail. */
  lemma NestedEmptyFails(logic: string, inner: string)
    ensures Parse(Tree([Subtree(Tree([], inner))], logic)) == UnpackError
  {
    var t := Tree([Subtree(Tree([], inner))], logic);
    assert ParsePieces(t, 0) == None;
  }

  /** The entries that appending each condition in turn adds to a tree. */
  function LeafEntries(cs: seq<Condition>): (es: seq<Entry>)
    ensures |es| == |cs|
    ensures forall i | 0 <= i < |cs| :: es[i] == Leaf(cs[i])
  {
    seq(|cs|, i requires 0 <= i < |cs| => Leaf(cs[i]))
  }

  /** `ConditionTree`: the conditions list and the logic field are updated in place. */
  class ConditionTree {
    var conditions: seq<Entry>
    var logic: string

    function Value(): Tree
      reads this
    {
      Tree(conditions, logic)
    }

    constructor (logic: string := "and")
      ensures conditions == [] && this.logic == logic
    {
      conditions := [];
      this.logic := logic;
    }

    /** `or_`: the connective becomes `or`; returns the same tree. */
    method Or() returns (self: ConditionTree)
      modifies this
      ensures self == this
      ensures logic == "or" && conditions == old(conditions)
    {
      logic := "or";
      self := this;
    }

    /** `add_condition`: appends at the end. */
    method AddCondition(c: Condition) returns (self: ConditionTree)
      modifies this
      ensures self == this
      ensures conditions == old(conditions) + [Leaf(c)] && logic == old(logic)
    {
      conditions := conditions + [Leaf(c)];
      self := this;
    }

    /** `add_tree`: appends a nested tree at the end. */
    method AddTree(t: Tree) returns (self: ConditionTree)
      modifies this
      ensures self == this
      ensures conditions == old(conditions) + [Subtree(t)] && logic == old(logic)
    {
      conditions := conditions + [Subtree(t)];
      self := this;
    }
  }
}
