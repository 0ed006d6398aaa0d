/**
 * The `hydrate` half of the state hydrators and the manager's
 * `hydrateState` (the state hydrators under src/hydrators/aws and
 * src/hydrators/AWSStepFunctionsHydratorManager.ts), on snapshots. The
 * manager finds the class registered under `data.Type`, builds a fresh
 * state of it and hands it to that class's hydrator; when the hydrator
 * throws, the half-built state is dropped, so `hydrateState` either returns
 * a state or throws. Nested states of a Parallel branch are built by the
 * same function.
 */
module StateHydrators {
  import opened Wrappers
  import opened Json
  import opened Failures
  import opened NextFields
  import opened PathFields
  import opened ResultPathFields
  import opened ResultFields
  import opened StateValues
  import opened Generator
  import opened FieldHydrators
  import opened StateExtractors
  import opened ParseInts
  import opened PropertyOrder

  // ----- the state registry -----

  /** `stateHydratorRegistery`: the seven state classes in the order they are registered. */
  const Registry: seq<Kind> := [ChoiceKind, FailKind, ParallelKind, SucceedKind, TaskKind, WaitKind, PassKind]

  /** The registry lists every class, under seven distinct type names. */
  lemma RegistryComplete(k: Kind)
    ensures |Registry| == 7 && k in Registry
    ensures forall i, j :: 0 <= i < j < |Registry| ==> TypeName(Registry[i]) != TypeName(Registry[j])
  {
  }

  /**
   * `getStateRegistryByTypeName(data.Type)`: the class registered under the
   * value, which must be the very string; anything else throws.
   */
  function KindNamed(t: Option<Json>): (r: Result<Kind>)
    ensures r.Ok? ==> t == Some(JStr(TypeName(r.value)))
    ensures r.Err? ==> r.error == UnknownStateType(t) && forall k :: t != Some(JStr(TypeName(k)))
  {
    if t == Some(JStr("Choice")) then Ok(ChoiceKind)
    else if t == Some(JStr("Fail")) then Ok(FailKind)
    else if t == Some(JStr("Parallel")) then Ok(ParallelKind)
    else if t == Some(JStr("Succeed")) then Ok(SucceedKind)
    else if t == Some(JStr("Task")) then Ok(TaskKind)
    else if t == Some(JStr("Wait")) then Ok(WaitKind)
    else if t == Some(JStr("Pass")) then Ok(PassKind)
    else Err(UnknownStateType(t))
  }

  /** Type names and classes are in one-to-one correspondence, and each name finds its class. */
  lemma TypeNamesBijective(a: Kind, b: Kind)
    ensures TypeName(a) == TypeName(b) <==> a == b
    ensures KindNamed(Some(JStr(TypeName(a)))) == Ok(a)
  {
  }

  /** `data['Type']`: `null` has no members to read; any other non-object has no `Type`. */
  function TypeOf(data: Json): Result<Option<Json>>
  {
    match data
    case JObj(ms) => Ok(Lookup(ms, "Type"))
    case JNull => Err(UndefinedAccess("Type"))
    case _ => Ok(None)
  }

  /** What the manager keeps of a hydrator's work: the state, or what it threw. */
  function Settled(e: Effect<StateValue>): (r: Result<StateValue>)
    ensures r.Ok? <==> e.thrown.None?
    ensures r.Ok? ==> r.value == e.state
    ensures r.Err? ==> r.error == e.thrown.value
  {
    if e.thrown.Some? then Err(e.thrown.value) else Ok(e.state)
  }

  // ----- the field registry -----

  /** `fieldHydratorRegistry`: the six field classes in the order they are registered. */
  const FieldRegistry: seq<FieldKind> :=
    [CatchFieldKind, NextFieldKind, PathFieldKind, ResultFieldKind, ResultPathFieldKind, RetryFieldKind]

  /** The class a field is an instance of. */
  function ClassOf(f: FieldValue): FieldKind
  {
    match f
    case NextF(_) => NextFieldKind
    case PathF(_) => PathFieldKind
    case ResultPathF(_) => ResultPathFieldKind
    case ResultF(_) => ResultFieldKind
    case RetryF(_) => RetryFieldKind
    case CatchF(_) => CatchFieldKind
  }

  /**
   * The `every` walk of `getFieldHydrator` from entry `i` on: the first entry
   * whose class the field is an instance of; running off the end throws.
   */
  function FieldEntryFrom(registry: seq<FieldKind>, k: FieldKind, i: nat): (r: Result<nat>)
    requires i <= |registry|
    ensures r.Ok? ==> i <= r.value < |registry| && registry[r.value] == k
                      && forall j :: i <= j < r.value ==> registry[j] != k
    ensures r.Err? ==> r.error == FieldHydratorMissing(k) && forall j :: i <= j < |registry| ==> registry[j] != k
    decreases |registry| - i
  {
    if i == |registry| then Err(FieldHydratorMissing(k))
    else if registry[i] == k then Ok(i)
    else FieldEntryFrom(registry, k, i + 1)
  }

  /** `getFieldHydrator(field)`: the registry entry whose hydrator handles the field. */
  function FieldEntry(f: FieldValue): Result<nat>
  {
    FieldEntryFrom(FieldRegistry, ClassOf(f), 0)
  }

  /**
   * Every field class is registered exactly once, so the lookup never throws
   * and finds the entry of the field's own class and no other.
   */
  lemma FieldEntryFindsOwn(f: FieldValue)
    ensures FieldEntry(f).Ok? && FieldRegistry[FieldEntry(f).value] == ClassOf(f)
    ensures forall j :: 0 <= j < |FieldRegistry| && FieldRegistry[j] == ClassOf(f) ==> j == FieldEntry(f).value
  {
  }

  // ----- Task -----

  /** `if (data[key]) setX(data[key])` for a number slot of a Task; a truthy non-number is outside the model. */
  function NumberAt(data: seq<Member>, key: string, current: Option<int>): (r: Result<Option<int>>)
    ensures TruthyAt(data, key).None? ==> r == Ok(current)
    ensures TruthyAt(data, key).Some? ==> (r.Ok? <==> TruthyAt(data, key).value.JNum?)
    ensures TruthyAt(data, key).Some? && r.Ok? ==> r.value == Some(TruthyAt(data, key).value.n)
    ensures r.Err? ==> r.error == IllTyped(key)
  {
    match TruthyAt(data, key)
    case None => Ok(current)
    case Some(JNum(n)) => Ok(Some(n))
    case Some(_) => Err(IllTyped(key))
  }

  /** `data.Resource` as `setResource` receives it: `undefined` clears the resource. */
  function ResourceAt(data: seq<Member>): (r: Result<Option<string>>)
    ensures Lookup(data, "Resource").None? ==> r == Ok(None)
    ensures r.Ok? && r.value.Some? ==> Lookup(data, "Resource") == Some(JStr(r.value.value))
  {
    match Lookup(data, "Resource")
    case None => Ok(None)
    case Some(JStr(s)) => Ok(Some(s))
    case Some(_) => Err(IllTyped("Resource"))
  }

  /**
   * `TaskStateHydrator.hydrate`: heartbeat and timeout when truthy, then the
   * resource, whatever it is. Nothing else of the state is touched: the
   * Task's fields are not hydrated.
   */
  function HydrateTaskValue(v: StateValue, data: seq<Member>): (r: Effect<StateValue>)
    requires v.body.TaskBody?
    ensures r.state.body.TaskBody?
    ensures r.state == v.(body := v.body.(resource := r.state.body.resource, heartbeat := r.state.body.heartbeat,
                                            timeout := r.state.body.timeout))
    ensures r.thrown.None? <==> (NumberAt(data, "HeartbeatSeconds", v.body.heartbeat).Ok?
                                 && NumberAt(data, "TimeoutSeconds", v.body.timeout).Ok? && ResourceAt(data).Ok?)
    ensures r.thrown.None? ==> r.state.body.heartbeat == NumberAt(data, "HeartbeatSeconds", v.body.heartbeat).value
                               && r.state.body.timeout == NumberAt(data, "TimeoutSeconds", v.body.timeout).value
                               && r.state.body.resource == ResourceAt(data).value
  {
    match NumberAt(data, "HeartbeatSeconds", v.body.heartbeat)
    case Err(e) => Effect(v, Some(e))
    case Ok(heartbeat) =>
      var v1 := v.(body := v.body.(heartbeat := heartbeat));
      match NumberAt(data, "TimeoutSeconds", v.body.timeout)
      case Err(e) => Effect(v1, Some(e))
      case Ok(timeout) =>
        var v2 := v1.(body := v1.body.(timeout := timeout));
        match ResourceAt(data)
        case Err(e) => Effect(v2, Some(e))
        case Ok(resource) => Effect(v2.(body := v2.body.(resource := resource)), None)
  }

  /**
   * Round trip: hydrating any Task with the extract of a Task reproduces its
   * resource, heartbeat and timeout. A heartbeat or timeout of 0 is excluded:
   * it is written, but skipped as falsy when read back.
   */
  lemma TaskRoundTrip(t: StateValue, v: StateValue)
    requires t.body.TaskBody? && v.body.TaskBody?
    requires t.body.heartbeat.None? && t.body.timeout.None?
    requires v.body.heartbeat != Some(0) && v.body.timeout != Some(0)
    ensures var r := HydrateTaskValue(t, ExtractTask(v.body.resource, v.body.heartbeat, v.body.timeout));
            r.thrown.None? && r.state.body.resource == v.body.resource
            && r.state.body.heartbeat == v.body.heartbeat && r.state.body.timeout == v.body.timeout
  {
    var data := ExtractTask(v.body.resource, v.body.heartbeat, v.body.timeout);
    assert TruthyAt(data, "HeartbeatSeconds").Some? <==> v.body.heartbeat.Some?;
    assert TruthyAt(data, "TimeoutSeconds").Some? <==> v.body.timeout.Some?;
  }

  // ----- Wait -----

  /** `parseInt(data.Seconds)`: a missing key is `parseInt(undefined)`, which is NaN, written `None`. */
  function ParsedSeconds(data: seq<Member>): (r: Option<int>)
    ensures Lookup(data, "Seconds").None? ==> r.None?
    ensures Lookup(data, "Seconds").Some? ==> r == ParseInt(Lookup(data, "Seconds").value)
  {
    match Lookup(data, "Seconds")
    case None => None
    case Some(v) => ParseInt(v)
  }

  /**
   * `WaitStateHydrator.hydrate`: `setSeconds(parseInt(data.Seconds))`. A
   * number below 1 throws and leaves the state as it was; NaN is not below 1
   * and is stored.
   */
  function HydrateWaitValue(v: StateValue, data: seq<Member>): (r: Result<StateValue>)
    requires v.body.WaitBody?
    ensures r.Err? <==> ParsedSeconds(data).Some? && ParsedSeconds(data).value < 1
    ensures r.Err? ==> r.error == SecondsNotPositive
    ensures r.Ok? ==> r.value == v.(body := v.body.(seconds := ParsedSeconds(data)))
  {
    match ParsedSeconds(data)
    case Some(n) => StoreSeconds(v, n)
    case None => Ok(v.(body := v.body.(seconds := None)))
  }

  /** Round trip: any Wait whose seconds are unset or at least 1 hydrates back to the same seconds. */
  lemma WaitRoundTrip(w: StateValue, v: StateValue)
    requires w.body.WaitBody? && v.body.WaitBody?
    requires v.body.seconds.None? || v.body.seconds.value >= 1
    ensures HydrateWaitValue(w, ExtractWait(v.body.seconds)) == Ok(w.(body := w.body.(seconds := v.body.seconds)))
  {
  }

  /**
   * `Seconds` given as decimal text, as in `"Seconds": "10"`, is read as its
   * number: refused below 1, stored otherwise.
   */
  lemma WaitReadsDecimalText(w: StateValue, n: int)
    requires w.body.WaitBody?
    ensures var r := HydrateWaitValue(w, [("Seconds", JStr(DecimalText(n)))]);
            (n < 1 ==> r == Err(SecondsNotPositive))
            && (n >= 1 ==> r == Ok(w.(body := w.body.(seconds := Some(n)))))
  {
    var text := DecimalText(n);
    DecimalRoundTrip(n, []);
    assert text + [] == text;
    SecondsParsed([("Seconds", JStr(text))], text, n);
  }

  lemma SecondsParsed(data: seq<Member>, text: string, n: int)
    requires data == [("Seconds", JStr(text))] && ParseText(text) == Some(n)
    ensures ParsedSeconds(data) == Some(n)
  {
    assert Lookup(data, "Seconds") == Some(JStr(text));
  }

  // ----- Fail -----

  /** `err.name = data.Error`: `undefined` and `null` are falsy, as the empty name is. */
  function ErrorNameAt(data: seq<Member>): Result<string>
  {
    match Lookup(data, "Error")
    case None => Ok("")
    case Some(JNull) => Ok("")
    case Some(JStr(s)) => Ok(s)
    case Some(_) => Err(IllTyped("Error"))
  }

  /** `new Error(data.Cause).message`: `undefined` gives the empty message, `null` the text "null". */
  function ErrorMessageAt(data: seq<Member>): Result<string>
  {
    match Lookup(data, "Cause")
    case None => Ok("")
    case Some(JNull) => Ok("null")
    case Some(JStr(s)) => Ok(s)
    case Some(_) => Err(IllTyped("Cause"))
  }

  /** `FailStateHydrator.hydrate`: an `Error` built from Cause and named after Error is stored with `with`. */
  function HydrateFailValue(v: StateValue, data: seq<Member>): (r: Result<StateValue>)
    requires v.body.FailBody?
    ensures r.Ok? <==> ErrorNameAt(data).Ok? && ErrorMessageAt(data).Ok?
    ensures r.Ok? ==> r.value.name == v.name && r.value.comment == v.comment && r.value.body.FailBody?
    ensures r.Ok? ==> ValidateState(r.value) == []
    ensures r.Ok? ==> r.value.body.error == Some(ErrorInfo(ErrorNameAt(data).value, ErrorMessageAt(data).value, "Error"))
  {
    var message :- ErrorMessageAt(data);
    var name :- ErrorNameAt(data);
    Ok(v.(body := FailBody(Some(ErrorInfo(name, message, "Error")))))
  }

  /** Round trip from the wire: `{Error: e, Cause: c}` with a non-empty `e` extracts back unchanged. */
  lemma FailWireRoundTrip(v: StateValue, e: string, c: string)
    requires v.body.FailBody? && e != ""
    ensures var data := [("Error", JStr(e)), ("Cause", JStr(c))];
            var r := HydrateFailValue(v, data);
            r.Ok? && ExtractFail(r.value.body.error) == Ok(data)
  {
    var data := [("Error", JStr(e)), ("Cause", JStr(c))];
    assert Lookup(data, "Error") == Some(JStr(e));
    assert Lookup(data, "Cause") == Lookup(data[1..], "Cause") == Some(JStr(c));
  }

  /** An empty Error name is not kept: the stored error falls back to its class name, `Error`. */
  lemma FailEmptyNameBecomesClass(v: StateValue, c: string)
    requires v.body.FailBody?
    ensures var r := HydrateFailValue(v, [("Error", JStr("")), ("Cause", JStr(c))]);
            r.Ok? && ExtractFail(r.value.body.error) == Ok([("Error", JStr("Error")), ("Cause", JStr(c))])
  {
    var data := [("Error", JStr("")), ("Cause", JStr(c))];
    assert Lookup(data, "Error") == Some(JStr(""));
    assert Lookup(data, "Cause") == Lookup(data[1..], "Cause") == Some(JStr(c));
  }

  /** Round trip from the model: a Fail whose error has a type extracts the same after hydrating its extract. */
  lemma FailRoundTrip(f: StateValue, e: ErrorInfo)
    requires f.body.FailBody? && ErrorType(e) != ""
    ensures var r := HydrateFailValue(f, ExtractFail(Some(e)).value);
            r.Ok? && ExtractFail(r.value.body.error) == ExtractFail(Some(e))
  {
    FailWireRoundTrip(f, ErrorType(e), e.message);
  }

  // ----- Pass -----

  /**
   * `PassStateHydrator.hydrate`: `hydrateRelatedFields` hands the data to
   * every field in field order (path, result path, result, next), each
   * through its own hydrator; the first field that throws stops the walk.
   */
  function HydratePassValue(v: StateValue, data: seq<Member>): (r: Effect<StateValue>)
    requires v.body.PassBody?
    ensures r.state.name == v.name && r.state.comment == v.comment && r.state.body.PassBody?
    ensures r.state.body.path == HydratePathValue(v.body.path, data).state
    ensures r.thrown.None? ==>
              HydratePathValue(v.body.path, data).thrown.None?
              && HydrateResultPathValue(v.body.resultPath, data) == Ok(r.state.body.resultPath)
              && r.state.body.result == HydrateResultValue(v.body.result, data)
              && HydrateNextValue(v.body.next, data) == Ok(r.state.body.next)
  {
    var b := v.body;
    var path := HydratePathValue(b.path, data);
    if path.thrown.Some? then Effect(v.(body := PassBody(path.state, b.resultPath, b.result, b.next)), path.thrown)
    else
      match HydrateResultPathValue(b.resultPath, data)
      case Err(e) => Effect(v.(body := PassBody(path.state, b.resultPath, b.result, b.next)), Some(e))
      case Ok(resultPath) =>
        var result := HydrateResultValue(b.result, data);
        match HydrateNextValue(b.next, data)
        case Err(e) => Effect(v.(body := PassBody(path.state, resultPath, result, b.next)), Some(e))
        case Ok(next) => Effect(v.(body := PassBody(path.state, resultPath, result, next)), None)
  }

  // ----- the manager, and Parallel -----

  /**
   * `hydrateState(name, data)`: the class registered under `data.Type` (an
   * unknown type throws before any state is built), a fresh state of it
   * named `name`, and that class's hydrator. The comment is never read, and
   * only the Pass hydrator touches the fields.
   */
  function HydrateStateValue(name: string, data: Json): (r: Result<StateValue>)
    ensures TypeOf(data).Err? ==> r == Err(TypeOf(data).error)
    ensures TypeOf(data).Ok? && KindNamed(TypeOf(data).value).Err? ==> r == Err(UnknownStateType(TypeOf(data).value))
    ensures r.Ok? ==> r.value.name == name && r.value.comment.None?
                      && TypeOf(data) == Ok(Some(JStr(TypeName(KindOf(r.value.body)))))
    ensures r.Ok? && !r.value.body.PassBody? ==> FieldsOf(r.value.body) == FieldsOf(FreshBody(KindOf(r.value.body), name))
    decreases data, 3, 0
  {
    var t :- TypeOf(data);
    var kind :- KindNamed(t);
    var initial := FreshState(kind, name);
    match kind
    case PassKind => Settled(HydratePassValue(initial, data.members))
    case TaskKind => Settled(HydrateTaskValue(initial, data.members))
    case WaitKind => HydrateWaitValue(initial, data.members)
    case FailKind => HydrateFailValue(initial, data.members)
    case ParallelKind => HydrateParallelValue(initial, data)
    case SucceedKind => Ok(initial)
    case ChoiceKind => Ok(initial)
  }

  /**
   * `ParallelStateHydrator.hydrate`: one new branch per entry of
   * `data.Branches`, in order; a missing list throws.
   */
  function HydrateParallelValue(v: StateValue, data: Json): (r: Result<StateValue>)
    requires v.body.ParallelBody? && data.JObj?
    ensures r.Ok? ==> Lookup(data.members, "Branches").Some? && Lookup(data.members, "Branches").value.JArr?
    ensures r.Ok? ==> var added := Lookup(data.members, "Branches").value.items;
                      r.value.body.ParallelBody?
                      && r.value == v.(body := v.body.(branches := r.value.body.branches))
                      && |r.value.body.branches| == |v.body.branches| + |added|
                      && r.value.body.branches[..|v.body.branches|] == v.body.branches
    ensures Lookup(data.members, "Branches").None? || Lookup(data.members, "Branches") == Some(JNull) ==>
              r == Err(UndefinedAccess("Branches"))
    decreases data, 2, 0
  {
    match Lookup(data.members, "Branches")
    case None => Err(UndefinedAccess("Branches"))
    case Some(JNull) => Err(UndefinedAccess("Branches"))
    case Some(JArr(items)) =>
      LookupIn(data.members, "Branches");
      var added :- HydrateBranches(JArr(items), 0);
      Ok(v.(body := v.body.(branches := v.body.branches + added)))
    case Some(_) => Err(IllTyped("Branches"))
  }

  /** The `map` over the Branches entries from entry `i` on. */
  function HydrateBranches(list: Json, i: nat): (r: Result<seq<BranchValue>>)
    requires list.JArr? && i <= |list.items|
    ensures r.Ok? ==> |r.value| == |list.items| - i
    ensures r.Ok? ==> forall k :: 0 <= k < |r.value| ==> BranchWellFormed(r.value[k])
    decreases list, 0, |list.items| - i
  {
    if i == |list.items| then Ok([])
    else
      var branch :- HydrateBranch(list.items[i]);
      var rest :- HydrateBranches(list, i + 1);
      Ok([branch] + rest)
  }

  /** A branch fresh from `addBranch()` after `addState` of each state in turn. */
  function NewBranch(ss: seq<StateValue>): (b: BranchValue)
    ensures BranchWellFormed(b) && b.states == ss
  {
    AddAllKeepsStart(EmptyBranch, ss);
    AddAllToBranch(EmptyBranch, ss)
  }

  /**
   * One entry: `addBranch()`, then each key of its `States` decoded through
   * `hydrateState` and added with `addState`, in the order `Object.keys`
   * lists them (array-index names first); the first state added becomes the
   * start. StartAt is not read; reading the keys of a missing `States` throws.
   */
  function HydrateBranch(item: Json): (r: Result<BranchValue>)
    ensures r.Ok? ==> BranchWellFormed(r.value)
    ensures r.Ok? ==> item.JObj? && Lookup(item.members, "States").Some? && Lookup(item.members, "States").value.JObj?
    ensures r.Ok? ==> var states := Enumerated(Lookup(item.members, "States").value.members);
                      |r.value.states| == |states|
                      && (forall k :: 0 <= k < |states| ==> r.value.states[k].name == states[k].0)
                      && (states != [] ==> r.value.start == Some(states[0].0))
    decreases item, 2, 0
  {
    if !item.JObj? then Err(UndefinedAccess("States"))
    else
      match Lookup(item.members, "States")
      case None => Err(UndefinedAccess("States"))
      case Some(JNull) => Err(UndefinedAccess("States"))
      case Some(JObj(states)) =>
        LookupIn(item.members, "States");
        var added :- HydrateStatesFrom(JObj(states), 0);
        Ok(NewBranch(added))
      case Some(_) => Err(IllTyped("States"))
  }

  /**
   * The `forEach` over `Object.keys` of `States` from the `i`-th key listed
   * on: each state is decoded under its key; the first failure throws.
   */
  function HydrateStatesFrom(obj: Json, i: nat): (r: Result<seq<StateValue>>)
    requires obj.JObj? && i <= |obj.members|
    ensures r.Ok? ==> |r.value| == |obj.members| - i
    ensures r.Ok? ==> forall k :: 0 <= k < |r.value| ==> r.value[k].name == obj.members[KeyOrder(Keys(obj.members))[i + k]].0
    decreases obj, 1, |obj.members| - i
  {
    if i == |obj.members| then Ok([])
    else
      var m := obj.members[KeyOrder(Keys(obj.members))[i]];
      assert m in obj.members;
      var later := HydrateStatesFrom(obj, i + 1);
      var s :- HydrateStateValue(m.0, m.1);
      var rest :- later;
      NamesAfter(s, rest, obj.members, KeyOrder(Keys(obj.members)), i);
      Ok([s] + rest)
  }

  /** The names of one more state in front of the walk's rest still follow the key order. */
  lemma NamesAfter(s: StateValue, rest: seq<StateValue>, ms: seq<Member>, order: seq<nat>, i: nat)
    requires i < |order| && |rest| == |order| - i - 1 && forall k :: 0 <= k < |order| ==> order[k] < |ms|
    requires s.name == ms[order[i]].0
    requires forall k :: 0 <= k < |rest| ==> rest[k].name == ms[order[i + 1 + k]].0
    ensures forall k :: 0 <= k < |rest| + 1 ==> ([s] + rest)[k].name == ms[order[i + k]].0
  {
    forall k | 0 < k < |rest| + 1 ensures ([s] + rest)[k].name == ms[order[i + k]].0 {
      assert ([s] + rest)[k] == rest[k - 1];
      assert i + 1 + (k - 1) == i + k;
    }
  }

  // ----- properties of the manager -----

  /** `hydrateState` reads a state's `Type` back to the class the state was extracted from. */
  lemma ManagerFindsClass(v: StateValue)
    requires ExtractState(v).Ok?
    ensures TypeOf(JObj(ExtractState(v).value)) == Ok(Some(JStr(TypeName(KindOf(v.body)))))
    ensures KindNamed(TypeOf(JObj(ExtractState(v).value)).value) == Ok(KindOf(v.body))
  {
    TypeNamesBijective(KindOf(v.body), KindOf(v.body));
  }

  /** Round trip through the manager: a Wait whose seconds are unset or at least 1 comes back with them. */
  lemma WaitStateRoundTrip(v: StateValue)
    requires v.body.WaitBody? && (v.body.seconds.None? || v.body.seconds.value >= 1)
    ensures ExtractState(v).Ok?
    ensures var r := HydrateStateValue(v.name, JObj(ExtractState(v).value));
            r.Ok? && r.value == FreshState(WaitKind, v.name).(body := WaitBody(FreshNext(v.name, false, false), v.body.seconds))
  {
    ExtractKeeps(v, "Seconds");
    ManagerFindsClass(v);
    var data := ExtractState(v).value;
    assert ParsedSeconds(data) == ParsedSeconds(ExtractWait(v.body.seconds));
    WaitRoundTrip(FreshState(WaitKind, v.name), v);
  }

  /**
   * Round trip through the manager: a Task's resource, heartbeat and timeout
   * come back, except a heartbeat or timeout of 0.
   */
  lemma TaskStateRoundTrip(v: StateValue)
    requires v.body.TaskBody? && v.body.heartbeat != Some(0) && v.body.timeout != Some(0)
    ensures ExtractState(v).Ok?
    ensures var r := HydrateStateValue(v.name, JObj(ExtractState(v).value));
            r.Ok? && r.value.body.TaskBody? && r.value.body.resource == v.body.resource
            && r.value.body.heartbeat == v.body.heartbeat && r.value.body.timeout == v.body.timeout
  {
    TaskExtractReads(v);
    ManagerFindsClass(v);
    var data := ExtractState(v).value;
    var t := FreshState(TaskKind, v.name);
    TaskRoundTrip(t, v);
    assert HydrateStateValue(v.name, JObj(data)) == Settled(HydrateTaskValue(t, data));
  }

  /** What `TaskStateHydrator.hydrate` reads from a Task state's extract is what `ExtractTask` wrote. */
  lemma TaskExtractReads(v: StateValue)
    requires v.body.TaskBody?
    ensures ExtractState(v).Ok?
    ensures var data := ExtractState(v).value;
            var task := ExtractTask(v.body.resource, v.body.heartbeat, v.body.timeout);
            NumberAt(data, "HeartbeatSeconds", None) == NumberAt(task, "HeartbeatSeconds", None)
            && NumberAt(data, "TimeoutSeconds", None) == NumberAt(task, "TimeoutSeconds", None)
            && ResourceAt(data) == ResourceAt(task)
  {
    var data := ExtractState(v).value;
    var task := ExtractTask(v.body.resource, v.body.heartbeat, v.body.timeout);
    ExtractKeeps(v, "Resource");
    ExtractKeeps(v, "HeartbeatSeconds");
    ExtractKeeps(v, "TimeoutSeconds");
    NumberReadsLookup(data, task, "HeartbeatSeconds", None);
    NumberReadsLookup(data, task, "TimeoutSeconds", None);
  }

  /** `NumberAt` reads nothing but the one key. */
  lemma NumberReadsLookup(a: seq<Member>, b: seq<Member>, key: string, current: Option<int>)
    requires Lookup(a, key) == Lookup(b, key)
    ensures NumberAt(a, key, current) == NumberAt(b, key, current)
  {
  }

  /** Round trip through the manager: a Fail whose error has a type extracts the same after hydrating. */
  lemma FailStateRoundTrip(v: StateValue)
    requires v.body.FailBody? && v.body.error.Some? && ErrorType(v.body.error.value) != ""
    ensures ExtractState(v).Ok?
    ensures var r := HydrateStateValue(v.name, JObj(ExtractState(v).value));
            r.Ok? && r.value.body.FailBody? && ExtractFail(r.value.body.error) == ExtractFail(v.body.error)
  {
    FailExtractReads(v);
    ManagerFindsClass(v);
    var f := FreshState(FailKind, v.name);
    FailRoundTrip(f, v.body.error.value);
    var data := ExtractState(v).value;
    assert HydrateStateValue(v.name, JObj(data)) == HydrateFailValue(f, data);
  }

  /** What the Fail hydrator reads from a Fail state's extract is what `ExtractFail` wrote. */
  lemma FailExtractReads(v: StateValue)
    requires v.body.FailBody? && v.body.error.Some? && ErrorType(v.body.error.value) != ""
    ensures ExtractState(v).Ok? && ExtractFail(v.body.error).Ok?
    ensures var data := ExtractState(v).value;
            var fail := ExtractFail(v.body.error).value;
            ErrorNameAt(data) == ErrorNameAt(fail) && ErrorMessageAt(data) == ErrorMessageAt(fail)
  {
    ExtractKeeps(v, "Error");
    ExtractKeeps(v, "Cause");
  }

  /** A branch's `StartAt` is never read: whatever it says, the first key of `States` is the start. */
  lemma StartAtNeverRead(ms: seq<Member>, start: Json)
    ensures HydrateBranch(JObj(Put(ms, "StartAt", start))) == HydrateBranch(JObj(ms))
  {
    LookupPutOther(ms, "StartAt", start, "States");
  }

  /** A branch with states `b` and then `1` is walked from `1`, which becomes its start. */
  lemma IndexNamedStateFirst(x: Json, y: Json)
    ensures var r := HydrateBranch(JObj([("States", JObj([("b", x), ("1", y)]))]));
            r.Ok? ==> r.value.start == Some("1") && |r.value.states| == 2
                      && r.value.states[0].name == "1" && r.value.states[1].name == "b"
  {
    IndexKeyListedFirst(x, y);
  }

  /** One state of a branch that cannot be hydrated makes the whole branch throw. */
  lemma {:induction false} BranchStateFails(obj: Json, i: nat, j: nat)
    requires obj.JObj? && i <= j < |obj.members|
    requires HydrateStateValue(Enumerated(obj.members)[j].0, Enumerated(obj.members)[j].1).Err?
    ensures HydrateStatesFrom(obj, i).Err?
    decreases j - i
  {
    var s := HydrateStateValue(Enumerated(obj.members)[i].0, Enumerated(obj.members)[i].1);
    if i < j && s.Ok? {
      BranchStateFails(obj, i + 1, j);
      var rest := HydrateStatesFrom(obj, i + 1);
      assert HydrateStatesFrom(obj, i) == Err(rest.error);
    }
  }

  /** A nested state of unknown type inside a Parallel's branch makes the Parallel throw. */
  lemma NestedUnknownTypeFails(v: StateValue, name: string, t: string)
    requires v.body.ParallelBody? && forall k :: t != TypeName(k)
    ensures var state := JObj([("Type", JStr(t))]);
            var branch := JObj([("States", JObj([(name, state)]))]);
            HydrateParallelValue(v, JObj([("Branches", JArr([branch]))])).Err?
  {
    var state := JObj([("Type", JStr(t))]);
    assert HydrateStateValue(name, state) == Err(UnknownStateType(Some(JStr(t))));
    LoneStateFails(name, state);
    LoneBranchFails(v, JObj([("States", JObj([(name, state)]))]));
  }

  /** A branch whose only state cannot be hydrated throws. */
  lemma LoneStateFails(name: string, state: Json)
    requires HydrateStateValue(name, state).Err?
    ensures HydrateBranch(JObj([("States", JObj([(name, state)]))])).Err?
  {
    var states := JObj([(name, state)]);
    SingleMemberEnumerated(name, state);
    BranchStateFails(states, 0, 0);
    StatesFailBranch(states);
  }

  /** A branch whose walk over `States` throws throws. */
  lemma StatesFailBranch(states: Json)
    requires states.JObj? && HydrateStatesFrom(states, 0).Err?
    ensures HydrateBranch(JObj([("States", states)])).Err?
  {
  }

  /** A Parallel whose only branch throws throws. */
  lemma LoneBranchFails(v: StateValue, branch: Json)
    requires v.body.ParallelBody? && HydrateBranch(branch).Err?
    ensures HydrateParallelValue(v, JObj([("Branches", JArr([branch]))])).Err?
  {
    assert HydrateBranches(JArr([branch]), 0).Err?;
  }
}
