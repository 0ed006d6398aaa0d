/**
 * The wire names of the retry error codes: the `ErrorCodes` table of
 * src/hydrators/aws/RetryFieldHydrator.ts and its reverse lookup
 * `findErrorCode`. The names are the `States.*` error names of Amazon States
 * Language.
 */
module ErrorNames {
  import opened Wrappers
  import opened Json
  import opened Failures
  import opened RetryFields

  /** The `States.*` name each code is written as. */
  function WireName(c: ErrorCode): string
  {
    match c
    case Timeout => "States.Timeout"
    case All => "States.ALL"
    case TaskFailed => "States.TaskFailed"
    case Permissions => "States.Permissions"
    case ResultPathMatchFailure => "States.ResultPathMatchFailure"
    case BranchFailed => "States.BranchFailed"
    case NoChoiceMatched => "States.NoChoiceMatched"
  }

  /** The table's keys in the order `Object.keys` lists them: integer keys ascend. */
  const Table: seq<ErrorCode> := [Timeout, All, TaskFailed, Permissions, ResultPathMatchFailure, BranchFailed, NoChoiceMatched]

  /** Each code sits in the table at its own ordinal, so the table lists every code exactly once. */
  lemma TableAtOrdinal(c: ErrorCode)
    ensures |Table| == 7 && Table[Ordinal(c)] == c
  {
  }

  /** The code whose wire name is `name`, if there is one. */
  function CodeNamed(name: string): (r: Option<ErrorCode>)
    ensures r.Some? ==> WireName(r.value) == name
    ensures r.None? ==> forall c :: WireName(c) != name
  {
    if name == "States.Timeout" then Some(Timeout)
    else if name == "States.ALL" then Some(All)
    else if name == "States.TaskFailed" then Some(TaskFailed)
    else if name == "States.Permissions" then Some(Permissions)
    else if name == "States.ResultPathMatchFailure" then Some(ResultPathMatchFailure)
    else if name == "States.BranchFailed" then Some(BranchFailed)
    else if name == "States.NoChoiceMatched" then Some(NoChoiceMatched)
    else None
  }

  /** The table is a bijection: distinct codes have distinct names, and every name reads back as its code. */
  lemma WireNameBijective(a: ErrorCode, b: ErrorCode)
    ensures WireName(a) == WireName(b) <==> a == b
    ensures CodeNamed(WireName(a)) == Some(a)
  {
  }

  /**
   * What `findErrorCode` gives for a wire value (`undefined` is `None`):
   * the code with that name, or the unsupported-code error for anything else,
   * a value that is not a string included.
   */
  function CodeOf(value: Option<Json>): (r: Result<ErrorCode>)
    ensures r.Ok? <==> value.Some? && value.value.JStr? && CodeNamed(value.value.s).Some?
    ensures r.Ok? ==> value == Some(JStr(WireName(r.value)))
    ensures r.Err? ==> r.error == UnsupportedErrorCode(value)
  {
    if value.Some? && value.value.JStr? && CodeNamed(value.value.s).Some?
    then Ok(CodeNamed(value.value.s).value)
    else Err(UnsupportedErrorCode(value))
  }

  /** `findErrorCode`: walks the table in key order and stops at the first entry whose name is the value. */
  method FindErrorCode(value: Option<Json>) returns (r: Result<ErrorCode>)
    ensures r == CodeOf(value)
  {
    var found: Option<ErrorCode> := None;
    var i := 0;
    while i < |Table| && found.None?
      invariant 0 <= i <= |Table|
      invariant found.None? ==> forall k :: 0 <= k < i ==> value != Some(JStr(WireName(Table[k])))
      invariant found.Some? ==> value == Some(JStr(WireName(found.value)))
    {
      if value == Some(JStr(WireName(Table[i]))) {
        found := Some(Table[i]);
      }
      i := i + 1;
    }
    if found.None? {
      forall c: ErrorCode ensures value != Some(JStr(WireName(c))) {
        TableAtOrdinal(c);
      }
      return Err(UnsupportedErrorCode(value));
    }
    WireNameBijective(found.value, CodeNamed(WireName(found.value)).value);
    return Ok(found.value);
  }
}
