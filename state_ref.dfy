/** A reference to a state object of any kind, as the machine and the hydrators hold them. */
module StateRefs {
  import opened Wrappers
  import opened NextFields
  import opened StateValues
  import opened PassStates
  import opened TaskStates
  import opened WaitStates
  import opened SucceedStates
  import opened FailStates
  import opened ParallelStates
  import opened ChoiceStates

  datatype StateRef =
    | PassRef(pass: Pass)
    | TaskRef(task: Task)
    | WaitRef(wait: Wait)
    | SucceedRef(succeed: Succeed)
    | FailRef(fail: Fail)
    | ParallelRef(parallel: Parallel)
    | ChoiceRef(choice: Choice)
  {
    /** `getName()`. */
    function Name(): string
    {
      match this
      case PassRef(s) => s.name
      case TaskRef(s) => s.name
      case WaitRef(s) => s.name
      case SucceedRef(s) => s.name
      case FailRef(s) => s.name
      case ParallelRef(s) => s.name
      case ChoiceRef(s) => s.name
    }

    /** The objects whose fields decide which objects make up the state. */
    function Anchors(): set<object>
    {
      match this
      case TaskRef(s) => {s, s.retry, s.catch}
      case ParallelRef(s) => {s}
      case ChoiceRef(s) => {s}
      case _ => {}
    }

    /** Every object the state's snapshot depends on. */
    ghost function Repr(): set<object>
      reads Anchors()
    {
      match this
      case PassRef(s) => s.Repr()
      case TaskRef(s) => s.Repr()
      case WaitRef(s) => s.Repr()
      case SucceedRef(s) => s.Repr()
      case FailRef(s) => s.Repr()
      case ParallelRef(s) => s.Repr()
      case ChoiceRef(s) => s.Repr()
    }

    ghost predicate Valid()
      reads Anchors()
    {
      match this
      case PassRef(s) => s.Valid()
      case TaskRef(s) => s.Valid()
      case WaitRef(s) => s.Valid()
      case ParallelRef(s) => s.Valid()
      case ChoiceRef(s) => s.Valid()
      case _ => true
    }

    function Value(): (v: StateValue)
      reads Repr()
      ensures v.name == Name()
    {
      match this
      case PassRef(s) => s.Value()
      case TaskRef(s) => s.Value()
      case WaitRef(s) => s.Value()
      case SucceedRef(s) => s.Value()
      case FailRef(s) => s.Value()
      case ParallelRef(s) => s.Value()
      case ChoiceRef(s) => s.Value()
    }

    /** The state's `next` field, for the kinds that have one. */
    function Next(): Option<NextField>
    {
      match this
      case PassRef(s) => Some(s.next)
      case TaskRef(s) => Some(s.next)
      case WaitRef(s) => Some(s.next)
      case ParallelRef(s) => Some(s.next)
      case _ => None
    }
  }
}
