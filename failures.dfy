/**
 * The errors the library raises, one constructor per `throw new Error(...)` or
 * per validation message, plus the JavaScript `TypeError`s the code runs into
 * when it reads a member of `null` or `undefined`.
 */
module Failures {
  import opened Wrappers
  import opened Json

  /** The field classes; a missing-configuration error names the class. */
  datatype FieldKind =
    | NextFieldKind
    | PathFieldKind
    | ResultPathFieldKind
    | ResultFieldKind
    | RetryFieldKind
    | CatchFieldKind

  datatype Failure =
    | ConfigurationMissing(field: FieldKind)
    | InvalidJsonPath(path: string)
    | NextFieldLocked
    | EndForbidden(owner: string)
    | OperandNotAllowed
    | SecondsNotPositive
    | SecondsMissing
    | ResourceMissing
    | FailErrorMissing
    | BranchWithoutStart
    | ParallelWithoutBranch
    | MachineWithoutStates
    | StateAlreadyIndexed(name: string)
    | UnknownStateType(typeName: Option<Json>)
    | FieldHydratorMissing(field: FieldKind)
    | UnsupportedErrorCode(code: Option<Json>)
    | UndefinedAccess(what: string)
    | IllTyped(key: string)

  /** The outcome of a call that either returns a value or throws. */
  datatype Result<T> = Ok(value: T) | Err(error: Failure)
  {
    predicate IsFailure() { Err? }

    function PropagateFailure<U>(): Result<U>
      requires Err?
    {
      Err(error)
    }

    function Extract(): T
      requires Ok?
    {
      value
    }
  }

  /** The state an object is left in by a call, and what the call threw, if anything. */
  datatype Effect<T> = Effect(state: T, thrown: Option<Failure>)
}
