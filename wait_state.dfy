/** The Wait state (src/states/Wait.ts): a delay of a number of seconds, then a transition. */
module WaitStates {
  import opened Wrappers
  import opened Failures
  import opened NextFields
  import opened StateValues

  class Wait {
    const name: string
    var comment: Option<string>
    const next: NextField
    var seconds: Option<int>

    ghost function Repr(): set<object>
    {
      {this, next}
    }

    ghost predicate Valid()
    {
      next.owner == name && !next.locked && !next.endForbidden
    }

    function Value(): StateValue
      reads Repr()
    {
      StateValue(name, comment, WaitBody(next.Value(), seconds))
    }

    /** `new Wait(name)`: a fresh next field and `seconds` null. */
    constructor(name: string)
      ensures Valid() && fresh(Repr())
      ensures Value() == FreshState(WaitKind, name)
    {
      this.name := name;
      comment := None;
      next := new NextField(name, false, false);
      seconds := None;
    }

    method SetComment(c: string)
      modifies this
      ensures Value() == old(Value()).(comment := Some(c))
    {
      comment := Some(c);
    }

    function GetSeconds(): Option<int>
      reads this
    {
      seconds
    }

    /** `setSeconds(s)`: throws for `s < 1` and leaves the state as it was. */
    method SetSeconds(s: int) returns (r: Option<Failure>)
      modifies this
      ensures match StoreSeconds(old(Value()), s)
              case Ok(v) => r.None? && Value() == v
              case Err(e) => r == Some(e) && Value() == old(Value())
    {
      if s < 1 {
        return Some(SecondsNotPositive);
      }
      seconds := Some(s);
      return None;
    }

    /** `setSeconds(NaN)`: NaN is not below 1, so it is stored; it reads back as no number. */
    method SetSecondsNotANumber()
      modifies this
      ensures Value() == old(Value()).(body := old(Value()).body.(seconds := None))
    {
      seconds := None;
    }

    /** `for(s)` is another name for `setSeconds(s)`. */
    method For(s: int) returns (r: Option<Failure>)
      modifies this
      ensures match StoreSeconds(old(Value()), s)
              case Ok(v) => r.None? && Value() == v
              case Err(e) => r == Some(e) && Value() == old(Value())
    {
      r := SetSeconds(s);
    }

    function Validate(): seq<Failure>
      reads Repr()
    {
      ValidateState(Value())
    }
  }
}
