/** The Choice state (src/states/Choice.ts): a list of operations, each with its own transition. */
module ChoiceStates {
  import opened Wrappers
  import opened Failures
  import opened NextFields
  import opened ChoiceRules
  import opened StateValues

  /** The rule node a new operation stands for: no operands yet, and a fresh transition of its own. */
  function FreshOperation(op: Operator, owner: string): (e: ChoiceExpr)
    ensures e.rule == op.rule && e.next == Some(FreshNext(owner, false, false))
    ensures e.Logic? <==> op.LogicOperator?
    ensures e.Logic? ==> e.children == []
    ensures e.Comparator? ==> e.variable.None? && e.value.None?
  {
    match op
    case LogicOperator(rule) => Logic(rule, [], Some(FreshNext(owner, false, false)))
    case ComparatorOperator(rule) => Comparator(rule, None, None, Some(FreshNext(owner, false, false)))
  }

  /** One operation of a Choice state: its operator, operands and next field. */
  class ChoiceOperation {
    const operator: Operator
    const next: NextField
    var value: Option<Operand>
    var variable: Option<string>

    /** The operation as a node of a choice rule; a logic operation never holds operands. */
    function Expr(): (e: ChoiceExpr)
      reads this, next
      ensures e.Comparator? <==> operator.ComparatorOperator?
    {
      match operator
      case LogicOperator(rule) => Logic(rule, [], Some(next.Value()))
      case ComparatorOperator(rule) => Comparator(rule, variable, value, Some(next.Value()))
    }

    /** `new ChoiceOperation(state, operator)`: a fresh next field owned by the state. */
    constructor(owner: string, operator: Operator)
      ensures this.operator == operator && fresh(next)
      ensures Expr() == FreshOperation(operator, owner)
    {
      this.operator := operator;
      next := new NextField(owner, false, false);
      value := None;
      variable := None;
    }

    /** `setValueOperand(v)`: refused on a logic operator; no check of `v` against the rule. */
    method SetValueOperand(v: Operand) returns (r: Option<Failure>)
      modifies this
      ensures operator.LogicOperator? ==> r == Some(OperandNotAllowed) && value == old(value)
      ensures operator.ComparatorOperator? ==> r.None? && value == Some(v)
      ensures variable == old(variable)
      ensures operator.ComparatorOperator? ==> Expr() == Comparator(operator.rule, variable, Some(v), Some(next.Value()))
      ensures operator.LogicOperator? ==> Expr() == old(Expr())
    {
      if operator.LogicOperator? {
        return Some(OperandNotAllowed);
      }
      value := Some(v);
      return None;
    }

    /** `setVariableOperand(path)`: refused on a logic operator. */
    method SetVariableOperand(path: string) returns (r: Option<Failure>)
      modifies this
      ensures operator.LogicOperator? ==> r == Some(OperandNotAllowed) && variable == old(variable)
      ensures operator.ComparatorOperator? ==> r.None? && variable == Some(path)
      ensures value == old(value)
      ensures operator.ComparatorOperator? ==> Expr() == Comparator(operator.rule, Some(path), value, Some(next.Value()))
      ensures operator.LogicOperator? ==> Expr() == old(Expr())
    {
      if operator.LogicOperator? {
        return Some(OperandNotAllowed);
      }
      variable := Some(path);
      return None;
    }
  }

  function OperationObjects(ops: seq<ChoiceOperation>): set<object>
  {
    (set o | o in ops :: o as object) + (set o | o in ops :: o.next as object)
  }

  /** The operations as rule nodes, in order. */
  function OperationExprs(ops: seq<ChoiceOperation>): (es: seq<ChoiceExpr>)
    reads OperationObjects(ops)
    ensures |es| == |ops|
    ensures forall i :: 0 <= i < |ops| ==> es[i] == ops[i].Expr()
  {
    if ops == [] then []
    else
      var last := ops[|ops| - 1];
      assert last in ops;
      OperationExprs(ops[..|ops| - 1]) + [last.Expr()]
  }

  lemma OperationExprsAppend(ops: seq<ChoiceOperation>, op: ChoiceOperation)
    ensures OperationExprs(ops + [op]) == OperationExprs(ops) + [op.Expr()]
  {
    assert (ops + [op])[..|ops|] == ops;
  }

  /** No operation, and no operation's next field, appears twice. */
  ghost predicate Unshared(ops: seq<ChoiceOperation>)
  {
    forall i, j :: 0 <= i < j < |ops| ==> ops[i] != ops[j] && ops[i].next != ops[j].next
  }

  lemma UnsharedAppend(ops: seq<ChoiceOperation>, op: ChoiceOperation)
    requires Unshared(ops)
    requires forall i :: 0 <= i < |ops| ==> ops[i] != op && ops[i].next != op.next
    ensures Unshared(ops + [op])
  {
  }

  /** A Choice state is never one of its own operations or their next fields. */
  lemma NotAnOperationObject(ops: seq<ChoiceOperation>, c: Choice)
    ensures c !in OperationObjects(ops)
  {
  }

  class Choice {
    const name: string
    var comment: Option<string>
    var operations: seq<ChoiceOperation>

    ghost function Repr(): set<object>
      reads this
    {
      {this} + OperationObjects(operations)
    }

    ghost predicate Valid()
      reads this
    {
      Unshared(operations)
    }

    /** The source has no way to set a default, so the snapshot never holds one. */
    function Value(): StateValue
      reads this, OperationObjects(operations)
    {
      StateValue(name, comment, ChoiceBody(OperationExprs(operations), None))
    }

    constructor(name: string)
      ensures Valid() && operations == []
      ensures Value() == FreshState(ChoiceKind, name)
    {
      this.name := name;
      comment := None;
      operations := [];
      new;
      assert OperationExprs(operations) == [];
    }

    method SetComment(c: string)
      modifies this
      ensures Value() == old(Value()).(comment := Some(c))
    {
      NotAnOperationObject(operations, this);
      comment := Some(c);
    }

    /**
     * `addOperation(rule)`: appends a new operation for the rule, classified by
     * `CreateOperator`, and returns it.
     */
    method AddOperation(rule: ChoiceRule) returns (op: ChoiceOperation)
      requires Valid()
      modifies this
      ensures Valid() && fresh(op) && fresh(op.next)
      ensures operations == old(operations) + [op] && op.operator == CreateOperator(rule)
      ensures Value() == old(Value()).(body := ChoiceBody(old(Value()).body.choices
                                                          + [FreshOperation(CreateOperator(rule), name)], None))
    {
      ghost var before := OperationExprs(operations);
      op := new ChoiceOperation(name, CreateOperator(rule));
      assert OperationExprs(operations) == before;
      UnsharedAppend(operations, op);
      OperationExprsAppend(operations, op);
      NotAnOperationObject(operations + [op], this);
      operations := operations + [op];
    }

    function Validate(): seq<Failure>
      reads this, OperationObjects(operations)
    {
      ValidateState(Value())
    }
  }
}
