/**
 * Choice rules and choice expressions (src/states/Choice.ts and the keyword
 * tables of src/generators/StepFunctionsGenerator.ts).
 */
module ChoiceRules {
  import opened Wrappers
  import opened NextFields

  /** `CHOICE_RULE`, in declaration order: three logic rules, then sixteen comparators. */
  datatype ChoiceRule =
    | And | Or | Not
    | StringEquals | StringLessThan | StringGreaterThan | StringLessThanEquals | StringGreaterThanEquals
    | NumericEquals | NumericLessThan | NumericGreaterThan | NumericLessThanEquals | NumericGreaterThanEquals
    | BooleanEquals
    | TimestampEquals | TimestampLessThan | TimestampGreaterThan | TimestampLessThanEquals
    | TimestampGreaterThanEquals

  predicate IsLogicRule(r: ChoiceRule)
  {
    r == And || r == Or || r == Not
  }

  /** The operator object a rule is wrapped in. */
  datatype Operator = LogicOperator(rule: ChoiceRule) | ComparatorOperator(rule: ChoiceRule)

  /**
   * `createOperatorInstance` as written: the case label `AND, NOT, OR` is a
   * comma expression whose value is `OR`, so only `OR` is matched.
   */
  function CreateOperatorAsWritten(r: ChoiceRule): (op: Operator)
    ensures op.rule == r
    ensures op.LogicOperator? <==> r == Or
  {
    if r == Or then LogicOperator(r) else ComparatorOperator(r)
  }

  /** The evident intent: the three logic rules make logic operators, every other rule a comparator. */
  function CreateOperator(r: ChoiceRule): (op: Operator)
    ensures op.rule == r
    ensures op.LogicOperator? <==> IsLogicRule(r)
  {
    if IsLogicRule(r) then LogicOperator(r) else ComparatorOperator(r)
  }

  /** `AND` and `NOT` come out as comparators as written, which then accept operands. */
  lemma AndNotMisclassified()
    ensures CreateOperatorAsWritten(And) == ComparatorOperator(And) != CreateOperator(And)
    ensures CreateOperatorAsWritten(Not) == ComparatorOperator(Not) != CreateOperator(Not)
    ensures forall r :: r != And && r != Not ==> CreateOperatorAsWritten(r) == CreateOperator(r)
  {
  }

  /** A comparison operand: `string | number | boolean`. */
  datatype Operand = OStr(s: string) | ONum(n: int) | OBool(b: bool)

  /**
   * A node of a choice rule as the generator walks it: a logic node with its
   * child nodes, or a comparator with its variable and value (either may be
   * unset); each node may carry a next field.
   */
  datatype ChoiceExpr =
    | Logic(rule: ChoiceRule, children: seq<ChoiceExpr>, next: Option<NextValue>)
    | Comparator(rule: ChoiceRule, variable: Option<string>, value: Option<Operand>, next: Option<NextValue>)

  /** `LogicRuleMap` and `ComparatorRuleMap`: the Amazon States Language keyword of each rule. */
  function Keyword(r: ChoiceRule): string
  {
    match r
    case And => "And"
    case Or => "Or"
    case Not => "Not"
    case StringEquals => "StringEquals"
    case StringLessThan => "StringLessThan"
    case StringGreaterThan => "StringGreaterThan"
    case StringLessThanEquals => "StringLessThanEquals"
    case StringGreaterThanEquals => "StringGreaterThanEquals"
    case NumericEquals => "NumericEquals"
    case NumericLessThan => "NumericLessThan"
    case NumericGreaterThan => "NumericGreaterThan"
    case NumericLessThanEquals => "NumericLessThanEquals"
    case NumericGreaterThanEquals => "NumericGreaterThanEquals"
    case BooleanEquals => "BooleanEquals"
    case TimestampEquals => "TimestampEquals"
    case TimestampLessThan => "TimestampLessThan"
    case TimestampGreaterThan => "TimestampGreaterThan"
    case TimestampLessThanEquals => "TimestampLessThanEquals"
    case TimestampGreaterThanEquals => "TimestampGreaterThanEquals"
  }

  /** No two rules share a keyword, and no comparator keyword is `Variable`, `Next` or `End`. */
  lemma KeywordsDistinct(a: ChoiceRule, b: ChoiceRule)
    ensures Keyword(a) == Keyword(b) ==> a == b
    ensures Keyword(a) != "Variable" && Keyword(a) != "Next" && Keyword(a) != "End"
  {
  }
}
