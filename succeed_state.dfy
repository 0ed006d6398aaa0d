/** The Succeed state: a terminal state with no fields. */
module SucceedStates {
  import opened Wrappers
  import opened Failures
  import opened StateValues

  class Succeed {
    const name: string
    var comment: Option<string>

    ghost function Repr(): set<object>
    {
      {this}
    }

    function Value(): StateValue
      reads this
    {
      StateValue(name, comment, SucceedBody)
    }

    constructor(name: string)
      ensures fresh(Repr())
      ensures Value() == FreshState(SucceedKind, name)
    {
      this.name := name;
      comment := None;
    }

    method SetComment(c: string)
      modifies this
      ensures Value() == old(Value()).(comment := Some(c))
    {
      comment := Some(c);
    }

    function Validate(): seq<Failure>
      reads this
    {
      ValidateState(Value())
    }
  }
}
