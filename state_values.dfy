/**
 * Snapshots of the seven state kinds, their field lists, and validation
 * (src/states/State.ts and the `validate` of each state class).
 */
module StateValues {
  import opened Wrappers
  import opened Failures
  import opened NextFields
  import opened PathFields
  import opened ResultPathFields
  import opened ResultFields
  import opened RetryFields
  import opened CatchFields
  import opened ChoiceRules

  /** A JavaScript `Error` as a Fail state holds it: its `name`, `message` and class name. */
  datatype ErrorInfo = ErrorInfo(name: string, message: string, className: string)

  /** `getErrorType()`: the error's name, or its class name when the name is empty. */
  function ErrorType(e: ErrorInfo): (t: string)
    ensures e.name != "" ==> t == e.name
    ensures e.name == "" ==> t == e.className
  {
    if e.name != "" then e.name else e.className
  }

  /** The state classes; a state's `Type` on the wire is its class name. */
  datatype Kind = PassKind | TaskKind | WaitKind | SucceedKind | FailKind | ParallelKind | ChoiceKind

  function TypeName(k: Kind): string
  {
    match k
    case PassKind => "Pass"
    case TaskKind => "Task"
    case WaitKind => "Wait"
    case SucceedKind => "Succeed"
    case FailKind => "Fail"
    case ParallelKind => "Parallel"
    case ChoiceKind => "Choice"
  }

  /** What each kind holds besides its name and comment; fields appear in constructor order. */
  datatype Body =
    | PassBody(path: PathValue, resultPath: ResultPathValue, result: ResultValue, next: NextValue)
    | TaskBody(path: PathValue, resultPath: ResultPathValue, result: ResultValue, next: NextValue,
               retry: RetryValue, catch: CatchValue,
               resource: Option<string>, heartbeat: Option<int>, timeout: Option<int>)
    | WaitBody(next: NextValue, seconds: Option<int>)
    | SucceedBody
    | FailBody(error: Option<ErrorInfo>)
    | ParallelBody(next: NextValue, path: PathValue, resultPath: ResultPathValue, branches: seq<BranchValue>)
    | ChoiceBody(choices: seq<ChoiceExpr>, default: Option<string>)

  /** A branch of a Parallel state: the states added to it and the name of the first one. */
  datatype BranchValue = BranchValue(states: seq<StateValue>, start: Option<string>)

  datatype StateValue = StateValue(name: string, comment: Option<string>, body: Body)

  function KindOf(b: Body): Kind
  {
    match b
    case PassBody(_, _, _, _) => PassKind
    case TaskBody(_, _, _, _, _, _, _, _, _) => TaskKind
    case WaitBody(_, _) => WaitKind
    case SucceedBody => SucceedKind
    case FailBody(_) => FailKind
    case ParallelBody(_, _, _, _) => ParallelKind
    case ChoiceBody(_, _) => ChoiceKind
  }

  /** What a state's constructor builds: every field fresh, its next field unlocked and owned by the state. */
  function FreshBody(k: Kind, name: string): (b: Body)
    ensures KindOf(b) == k
  {
    match k
    case PassKind => PassBody(FreshPath, FreshResultPath, FreshResult, FreshNext(name, false, false))
    case TaskKind => TaskBody(FreshPath, FreshResultPath, FreshResult, FreshNext(name, false, false),
                              FreshRetry, FreshCatch, None, None, None)
    case WaitKind => WaitBody(FreshNext(name, false, false), None)
    case SucceedKind => SucceedBody
    case FailKind => FailBody(None)
    case ParallelKind => ParallelBody(FreshNext(name, false, false), FreshPath, FreshResultPath, [])
    case ChoiceKind => ChoiceBody([], None)
  }

  /** `new X(name)`: the comment is `null` unless one is given. */
  function FreshState(k: Kind, name: string): StateValue
  {
    StateValue(name, None, FreshBody(k, name))
  }

  /** One field of a state, whatever its class. */
  datatype FieldValue =
    | NextF(next: NextValue)
    | PathF(path: PathValue)
    | ResultPathF(resultPath: ResultPathValue)
    | ResultF(result: ResultValue)
    | RetryF(retry: RetryValue)
    | CatchF(catch: CatchValue)

  /** `getFields()`: the field-valued properties in the order the constructor assigns them. */
  function FieldsOf(b: Body): seq<FieldValue>
  {
    match b
    case PassBody(path, resultPath, result, next) =>
      [PathF(path), ResultPathF(resultPath), ResultF(result), NextF(next)]
    case TaskBody(path, resultPath, result, next, retry, catch, _, _, _) =>
      [PathF(path), ResultPathF(resultPath), ResultF(result), NextF(next), RetryF(retry), CatchF(catch)]
    case WaitBody(next, _) => [NextF(next)]
    case SucceedBody => []
    case FailBody(_) => []
    case ParallelBody(next, path, resultPath, _) => [NextF(next), PathF(path), ResultPathF(resultPath)]
    case ChoiceBody(_, _) => []
  }

  /** Each field class's own `validate`. Result and retry fields are optional and never fail. */
  function ValidateField(f: FieldValue): Option<Failure>
  {
    match f
    case NextF(n) => ValidateNext(n)
    case PathF(p) => ValidatePath(p)
    case ResultPathF(rp) => ValidateResultPath(rp)
    case ResultF(_) => None
    case RetryF(_) => None
    case CatchF(c) => ValidateCatch(c)
  }

  function IsConfigured(f: FieldValue): bool
  {
    match f
    case NextF(n) => n.configured
    case PathF(p) => p.configured
    case ResultPathF(rp) => rp.configured
    case ResultF(r) => r.configured
    case RetryF(r) => r.configured
    case CatchF(c) => c.configured
  }

  /** `State.validate`: every field's error, in field order, with the `null`s dropped. */
  function FieldErrors(fs: seq<FieldValue>): (errs: seq<Failure>)
    ensures |errs| <= |fs|
  {
    if fs == [] then []
    else
      var rest := FieldErrors(fs[1..]);
      match ValidateField(fs[0])
      case Some(e) => [e] + rest
      case None => rest
  }

  /** A state's fields report nothing exactly when each field validates on its own. */
  lemma {:induction false} FieldErrorsEmpty(fs: seq<FieldValue>)
    ensures FieldErrors(fs) == [] <==> forall i :: 0 <= i < |fs| ==> ValidateField(fs[i]).None?
  {
    if fs != [] {
      FieldErrorsEmpty(fs[1..]);
      assert forall i :: 1 <= i < |fs| ==> fs[i] == fs[1..][i - 1];
    }
  }

  /** `ParallelBranch.validate`: a branch without a start state is an error. */
  function ValidateBranch(b: BranchValue): Option<Failure>
  {
    if b.start.None? then Some(BranchWithoutStart) else None
  }

  function BranchErrors(bs: seq<BranchValue>): (errs: seq<Failure>)
    ensures |errs| <= |bs|
    ensures errs == [] <==> forall i :: 0 <= i < |bs| ==> bs[i].start.Some?
  {
    if bs == [] then []
    else
      var rest := BranchErrors(bs[1..]);
      assert forall i :: 1 <= i < |bs| ==> bs[i] == bs[1..][i - 1];
      if bs[0].start.None? then [BranchWithoutStart] + rest else rest
  }

  /** A string or number slot read with JavaScript truthiness. */
  predicate PresentText(s: Option<string>) { s.Some? && s.value != "" }
  predicate PresentNumber(n: Option<int>) { n.Some? && n.value != 0 }

  /**
   * The `validate` of each state class: the field errors first, then the
   * class's own checks; a Parallel state lists its branch errors before
   * everything else.
   */
  function ValidateState(v: StateValue): seq<Failure>
  {
    var fieldErrors := FieldErrors(FieldsOf(v.body));
    match v.body
    case TaskBody(_, _, _, _, _, _, resource, _, _) =>
      fieldErrors + (if PresentText(resource) then [] else [ResourceMissing])
    case WaitBody(_, seconds) =>
      fieldErrors + (if PresentNumber(seconds) then [] else [SecondsMissing])
    case FailBody(error) =>
      fieldErrors + (if error.Some? then [] else [FailErrorMissing])
    case ParallelBody(_, _, _, branches) =>
      BranchErrors(branches) + fieldErrors + (if branches == [] then [ParallelWithoutBranch] else [])
    case _ => fieldErrors
  }

  /** One step of `FieldErrors`: the first field's error, if any, comes first. */
  lemma FieldErrorsCons(f: FieldValue, fs: seq<FieldValue>)
    ensures FieldErrors([f] + fs)
            == (if ValidateField(f).Some? then [ValidateField(f).value] else []) + FieldErrors(fs)
  {
    assert ([f] + fs)[1..] == fs;
  }

  /** A fresh Pass state lacks only its transition. */
  lemma FreshPassErrors(name: string)
    ensures ValidateState(FreshState(PassKind, name)) == [ConfigurationMissing(NextFieldKind)]
  {
    var next := NextF(FreshNext(name, false, false));
    FieldErrorsCons(next, []);
    FieldErrorsCons(ResultF(FreshResult), [next]);
    FieldErrorsCons(ResultPathF(FreshResultPath), [ResultF(FreshResult), next]);
    FieldErrorsCons(PathF(FreshPath), [ResultPathF(FreshResultPath), ResultF(FreshResult), next]);
    assert FieldsOf(FreshBody(PassKind, name))
           == [PathF(FreshPath)] + [ResultPathF(FreshResultPath), ResultF(FreshResult), next];
  }

  /** Every fresh field but the transition validates on its own. */
  lemma FreshFieldsValid(name: string)
    ensures ValidateField(PathF(FreshPath)) == None && ValidateField(ResultPathF(FreshResultPath)) == None
    ensures ValidateField(ResultF(FreshResult)) == None && ValidateField(RetryF(FreshRetry)) == None
    ensures ValidateField(CatchF(FreshCatch)) == None
    ensures ValidateField(NextF(FreshNext(name, false, false))) == Some(ConfigurationMissing(NextFieldKind))
  {
  }

  /** The fields of a fresh Task state: only the transition is missing. */
  lemma FreshTaskFieldErrors(name: string)
    ensures FieldErrors(FieldsOf(FreshBody(TaskKind, name))) == [ConfigurationMissing(NextFieldKind)]
  {
    var next := NextF(FreshNext(name, false, false));
    var s4 := [RetryF(FreshRetry), CatchF(FreshCatch)];
    var s3 := [next] + s4;
    var s2 := [ResultF(FreshResult)] + s3;
    var s1 := [ResultPathF(FreshResultPath)] + s2;
    FreshFieldsValid(name);
    FieldErrorsCons(CatchF(FreshCatch), []);
    FieldErrorsCons(RetryF(FreshRetry), [CatchF(FreshCatch)]);
    assert FieldErrors(s4) == [];
    FieldErrorsCons(next, s4);
    FieldErrorsCons(ResultF(FreshResult), s3);
    FieldErrorsCons(ResultPathF(FreshResultPath), s2);
    FieldErrorsCons(PathF(FreshPath), s1);
    assert FieldsOf(FreshBody(TaskKind, name)) == [PathF(FreshPath)] + s1;
  }

  /** A fresh Task state lacks its transition and then its resource. */
  lemma FreshTaskErrors(name: string)
    ensures ValidateState(FreshState(TaskKind, name)) == [ConfigurationMissing(NextFieldKind), ResourceMissing]
  {
    FreshTaskFieldErrors(name);
  }

  /** A fresh Wait state lacks its transition and then its seconds; a fresh Parallel state its transition and a branch. */
  lemma FreshWaitParallelErrors(name: string)
    ensures ValidateState(FreshState(WaitKind, name)) == [ConfigurationMissing(NextFieldKind), SecondsMissing]
    ensures ValidateState(FreshState(ParallelKind, name))
            == [ConfigurationMissing(NextFieldKind), ParallelWithoutBranch]
  {
    var next := NextF(FreshNext(name, false, false));
    FieldErrorsCons(next, []);
    FieldErrorsCons(ResultPathF(FreshResultPath), []);
    FieldErrorsCons(PathF(FreshPath), [ResultPathF(FreshResultPath)]);
    FieldErrorsCons(next, [PathF(FreshPath), ResultPathF(FreshResultPath)]);
    assert FieldsOf(FreshBody(ParallelKind, name)) == [next] + [PathF(FreshPath), ResultPathF(FreshResultPath)];
  }

  /** The next field of the kinds that have one (Fail, Succeed and Choice have none). */
  predicate HasNext(b: Body)
  {
    b.PassBody? || b.TaskBody? || b.WaitBody? || b.ParallelBody?
  }

  /** Replaces the next field of a state that has one, leaving the rest of the state as it was. */
  function WithNext(v: StateValue, n: NextValue): (r: StateValue)
    requires HasNext(v.body)
    ensures r.name == v.name && r.comment == v.comment && HasNext(r.body) && r.body.next == n
    ensures KindOf(r.body) == KindOf(v.body)
  {
    match v.body
    case PassBody(path, resultPath, result, _) => v.(body := PassBody(path, resultPath, result, n))
    case TaskBody(path, resultPath, result, _, retry, catch, resource, heartbeat, timeout) =>
      v.(body := TaskBody(path, resultPath, result, n, retry, catch, resource, heartbeat, timeout))
    case WaitBody(_, seconds) => v.(body := WaitBody(n, seconds))
    case ParallelBody(_, path, resultPath, branches) => v.(body := ParallelBody(n, path, resultPath, branches))
  }

  /** `setSeconds(s)` on a Wait state: a value below 1 is refused and nothing changes. */
  function StoreSeconds(v: StateValue, s: int): (r: Result<StateValue>)
    requires v.body.WaitBody?
    ensures r.Err? <==> s < 1
    ensures r.Err? ==> r.error == SecondsNotPositive
    ensures r.Ok? ==> r.value == v.(body := v.body.(seconds := Some(s)))
  {
    if s < 1 then Err(SecondsNotPositive) else Ok(v.(body := v.body.(seconds := Some(s))))
  }

  /** `getErrorType()` of a Fail state: reading it before `with` dereferences `undefined`. */
  function FailErrorType(error: Option<ErrorInfo>): (r: Result<string>)
    ensures r.Err? <==> error.None?
    ensures r.Ok? ==> r.value == ErrorType(error.value)
  {
    match error
    case None => Err(UndefinedAccess("error"))
    case Some(e) => Ok(ErrorType(e))
  }

  /** `getErrorMessage()` of a Fail state. */
  function FailErrorMessage(error: Option<ErrorInfo>): (r: Result<string>)
    ensures r.Err? <==> error.None?
    ensures r.Ok? ==> r.value == error.value.message
  {
    match error
    case None => Err(UndefinedAccess("error"))
    case Some(e) => Ok(e.message)
  }

  /** A branch's start is its first state, and only an empty branch has none. */
  predicate BranchWellFormed(b: BranchValue)
  {
    (b.states == [] <==> b.start.None?) && (b.states != [] ==> b.start == Some(b.states[0].name))
  }

  const EmptyBranch := BranchValue([], None)

  /** `ParallelBranch.addState`: appends the state; the first one added becomes the start. */
  function AddToBranch(b: BranchValue, s: StateValue): (r: BranchValue)
    ensures r.states == b.states + [s]
    ensures BranchWellFormed(b) ==> BranchWellFormed(r)
    ensures b.states != [] ==> r.start == b.start
  {
    BranchValue(b.states + [s], if b.states == [] then Some(s.name) else b.start)
  }

  /** Adds the states one after another, as the Parallel hydrator does for a branch. */
  function AddAllToBranch(b: BranchValue, ss: seq<StateValue>): BranchValue
    decreases |ss|
  {
    if ss == [] then b else AddAllToBranch(AddToBranch(b, ss[0]), ss[1..])
  }

  /** Adding states to a branch keeps them in order, and the first state ever added stays the start. */
  lemma {:induction false} AddAllKeepsStart(b: BranchValue, ss: seq<StateValue>)
    requires BranchWellFormed(b)
    ensures AddAllToBranch(b, ss).states == b.states + ss
    ensures BranchWellFormed(AddAllToBranch(b, ss))
    ensures b.states != [] ==> AddAllToBranch(b, ss).start == b.start
    ensures b.states == [] && ss != [] ==> AddAllToBranch(b, ss).start == Some(ss[0].name)
    decreases |ss|
  {
    if ss != [] {
      var b' := AddToBranch(b, ss[0]);
      AddAllKeepsStart(b', ss[1..]);
      assert b.states + [ss[0]] + ss[1..] == b.states + ss;
    }
  }
}
