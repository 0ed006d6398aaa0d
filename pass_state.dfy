/** The Pass state (src/states/Pass.ts): a state with a path, result path, literal result and transition. */
module PassStates {
  import opened Wrappers
  import opened Failures
  import opened NextFields
  import opened PathFields
  import opened ResultPathFields
  import opened ResultFields
  import opened StateValues

  class Pass {
    const name: string
    var comment: Option<string>
    const path: PathField
    const resultPath: ResultPathField
    const result: ResultField
    const next: NextField

    ghost function Repr(): set<object>
    {
      {this, path, resultPath, result, next}
    }

    /** The next field belongs to this state and accepts both `set` and `end`. */
    ghost predicate Valid()
    {
      next.owner == name && !next.locked && !next.endForbidden
    }

    function Value(): StateValue
      reads Repr()
    {
      StateValue(name, comment, PassBody(path.Value(), resultPath.Value(), result.Value(), next.Value()))
    }

    /** `new Pass(name)`: four fresh fields owned by the state, no comment. */
    constructor(name: string)
      ensures Valid() && fresh(Repr())
      ensures Value() == FreshState(PassKind, name)
    {
      this.name := name;
      comment := None;
      path := new PathField();
      resultPath := new ResultPathField();
      result := new ResultField();
      next := new NextField(name, false, false);
    }

    /** `setComment`: replaces the comment; the name and the fields are untouched. */
    method SetComment(c: string)
      modifies this
      ensures Value() == old(Value()).(comment := Some(c))
    {
      comment := Some(c);
    }

    function Validate(): seq<Failure>
      reads Repr()
    {
      ValidateState(Value())
    }
  }
}
