/** The Fail state (src/states/Fail.ts): a terminal state carrying an error name and cause. */
module FailStates {
  import opened Wrappers
  import opened Failures
  import opened StateValues

  class Fail {
    const name: string
    var comment: Option<string>
    var error: Option<ErrorInfo>

    ghost function Repr(): set<object>
    {
      {this}
    }

    function Value(): StateValue
      reads this
    {
      StateValue(name, comment, FailBody(error))
    }

    /** `new Fail(name)`: no fields, no error yet. */
    constructor(name: string)
      ensures fresh(Repr())
      ensures Value() == FreshState(FailKind, name)
    {
      this.name := name;
      comment := None;
      error := None;
    }

    method SetComment(c: string)
      modifies this
      ensures Value() == old(Value()).(comment := Some(c))
    {
      comment := Some(c);
    }

    /** `with(error)`: stores the error; afterwards the state validates clean. */
    method With(e: ErrorInfo)
      modifies this
      ensures Value() == old(Value()).(body := FailBody(Some(e)))
      ensures Validate() == []
    {
      error := Some(e);
    }

    function GetErrorType(): Result<string>
      reads this
    {
      FailErrorType(error)
    }

    function GetErrorMessage(): Result<string>
      reads this
    {
      FailErrorMessage(error)
    }

    function Validate(): seq<Failure>
      reads this
    {
      ValidateState(Value())
    }
  }
}
