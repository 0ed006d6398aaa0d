/**
 * The `extract` half of the state hydrators and of the hydrator manager
 * (the state hydrators under src/hydrators/aws, src/hydrators/aws/StateMachineHydrator.ts
 * and src/hydrators/AWSStepFunctionsHydratorManager.ts). Unlike the generator,
 * `extractState` does not validate: it writes the variant's own keys, merges
 * the configured fields, sets `Type`, and adds the comment when there is one.
 * The field extracts are the generator's field encoders (see FieldHydrators).
 */
module StateExtractors {
  import opened Wrappers
  import opened Json
  import opened Failures
  import opened NextFields
  import opened StateValues
  import opened StateMachines
  import opened Generator

  /** `TaskStateHydrator.extract`: Resource (left out when undefined), then HeartbeatSeconds and TimeoutSeconds when not null. */
  function ExtractTask(resource: Option<string>, heartbeat: Option<int>, timeout: Option<int>): (ms: seq<Member>)
    ensures Lookup(ms, "Resource") == TextOf(resource)
    ensures Lookup(ms, "HeartbeatSeconds") == NumberOf(heartbeat)
    ensures Lookup(ms, "TimeoutSeconds") == NumberOf(timeout)
    ensures TaskBase(resource, heartbeat, timeout) == [("Type", JStr("Task"))] + ms
  {
    var ms := Optional("Resource", TextOf(resource)) + Optional("HeartbeatSeconds", NumberOf(heartbeat))
              + Optional("TimeoutSeconds", NumberOf(timeout));
    TaskBaseKeys(resource, heartbeat, timeout);
    assert TaskBase(resource, heartbeat, timeout) == [("Type", JStr("Task"))] + ms;
    LookupConcat([("Type", JStr("Task"))], ms, "Resource");
    LookupConcat([("Type", JStr("Task"))], ms, "HeartbeatSeconds");
    LookupConcat([("Type", JStr("Task"))], ms, "TimeoutSeconds");
    ms
  }

  /** `WaitStateHydrator.extract`: exactly the seconds, `null` when unset. */
  function ExtractWait(seconds: Option<int>): seq<Member>
  {
    [("Seconds", NumberOf(seconds).GetOr(JNull))]
  }

  /** `FailStateHydrator.extract`: the error's type and message; reading them without an error throws. */
  function ExtractFail(error: Option<ErrorInfo>): (r: Result<seq<Member>>)
    ensures r.Err? <==> error.None?
    ensures r.Ok? ==> Lookup(r.value, "Error") == Some(JStr(ErrorType(error.value)))
                      && Lookup(r.value, "Cause") == Some(JStr(error.value.message))
  {
    var errorType :- FailErrorType(error);
    Ok([("Error", JStr(errorType)), ("Cause", JStr(FailErrorMessage(error).value))])
  }

  /** `extractRelatedFields`: the extract of every configured field, merged onto `{}` in field order. */
  function RelatedFields(b: Body): seq<Member>
  {
    AssignFields([], FieldsOf(b))
  }

  /**
   * The variant's own `extract`. Pass copies its related fields onto `{}`;
   * Succeed and Choice write nothing.
   */
  function ExtractBase(v: StateValue): (r: Result<seq<Member>>)
    decreases v, 0
  {
    match v.body
    case PassBody(_, _, _, _) => Ok(RelatedFields(v.body))
    case TaskBody(_, _, _, _, _, _, resource, heartbeat, timeout) => Ok(ExtractTask(resource, heartbeat, timeout))
    case WaitBody(_, seconds) => Ok(ExtractWait(seconds))
    case SucceedBody => Ok([])
    case FailBody(error) => ExtractFail(error)
    case ParallelBody(_, _, _, branches) =>
      var items :- ExtractBranches(branches);
      Ok([("Branches", JArr(items))])
    case ChoiceBody(_, _) => Ok([])
  }

  /** The object `extractState` returns once the variant's extract is known. */
  function StateObject(v: StateValue, base: seq<Member>): seq<Member>
  {
    var typed := Assign(Assign(base, RelatedFields(v.body)), [("Type", JStr(TypeName(KindOf(v.body))))]);
    if PresentText(v.comment) then Put(typed, "Comment", JStr(v.comment.value)) else typed
  }

  /**
   * `extractState`: the variant's extract (which may throw), the configured
   * fields assigned over it, then `Type`, which wins over any key of that
   * name, then `Comment` when the comment is truthy.
   */
  function ExtractState(v: StateValue): (r: Result<seq<Member>>)
    ensures r.Err? <==> ExtractBase(v).Err?
    ensures r.Err? ==> r.error == ExtractBase(v).error
    ensures r.Ok? ==> Lookup(r.value, "Type") == Some(JStr(TypeName(KindOf(v.body))))
    ensures r.Ok? && PresentText(v.comment) ==> Lookup(r.value, "Comment") == Some(JStr(v.comment.value))
    decreases v, 1
  {
    var base :- ExtractBase(v);
    var typed := Assign(Assign(base, RelatedFields(v.body)), [("Type", JStr(TypeName(KindOf(v.body))))]);
    LookupAssign(Assign(base, RelatedFields(v.body)), [("Type", JStr(TypeName(KindOf(v.body))))], "Type");
    if PresentText(v.comment) then
      LookupPutOther(typed, "Comment", JStr(v.comment.value), "Type");
      Ok(StateObject(v, base))
    else Ok(StateObject(v, base))
  }

  /**
   * What the variant's extract writes under a key that no field writes, and
   * that is neither `Type` nor `Comment`, survives into the state's extract.
   */
  lemma ExtractKeeps(v: StateValue, key: string)
    requires ExtractBase(v).Ok? && key !in FieldKeys && key != "Type" && key != "Comment"
    ensures ExtractState(v).Ok? && Lookup(ExtractState(v).value, key) == Lookup(ExtractBase(v).value, key)
  {
    var base := ExtractBase(v).value;
    var typeMember := [("Type", JStr(TypeName(KindOf(v.body))))];
    AssignFieldsKeeps([], FieldsOf(v.body), key);
    LookupAssignAbsent(base, RelatedFields(v.body), key);
    var merged := Assign(base, RelatedFields(v.body));
    assert Lookup(typeMember, key) == None by { assert Lookup(typeMember, key) == Lookup(typeMember[1..], key); }
    LookupAssignAbsent(merged, typeMember, key);
    if PresentText(v.comment) {
      LookupPutOther(Assign(merged, typeMember), "Comment", JStr(v.comment.value), key);
    }
    assert ExtractState(v) == Ok(StateObject(v, base));
  }

  /** A branch of `ParallelStateHydrator.extract`: the start's name, then each state's extract under its name. */
  function ExtractBranch(b: BranchValue): (r: Result<Json>)
    ensures b.start.None? ==> r == Err(UndefinedAccess("startAt"))
    decreases b, 1
  {
    if b.start.None? then Err(UndefinedAccess("startAt"))
    else
      var states :- ExtractStates([], b.states);
      Ok(JObj([("StartAt", JStr(b.start.value)), ("States", JObj(states))]))
  }

  function ExtractBranches(bs: seq<BranchValue>): (r: Result<seq<Json>>)
    ensures r.Ok? ==> |r.value| == |bs|
    decreases bs, 0
  {
    if bs == [] then Ok([])
    else
      var head :- ExtractBranch(bs[0]);
      var tail :- ExtractBranches(bs[1..]);
      Ok([head] + tail)
  }

  /** The `reduce` writing each state's extract under its name; a repeated name is overwritten in place. */
  function ExtractStates(acc: seq<Member>, vs: seq<StateValue>): (r: Result<seq<Member>>)
    decreases vs, 0
  {
    if vs == [] then Ok(acc)
    else
      var s :- ExtractState(vs[0]);
      ExtractStates(Put(acc, vs[0].name, JObj(s)), vs[1..])
  }

  // ----- the machine -----

  /**
   * `StateMachineHydrator.extract`: StartAt (null without a start), States
   * (a placeholder, so it stays the second key), Comment, TimeoutSeconds and
   * Version when truthy, then the states' extracts written into States.
   */
  function ExtractMachine(m: MachineValue): (r: Result<seq<Member>>)
  {
    var states :- ExtractStates([], m.states);
    Ok([("StartAt", if m.start.Some? then JStr(m.start.value) else JNull), ("States", JObj(states))]
       + (if PresentText(m.comment) then [("Comment", JStr(m.comment.value))] else [])
       + (if PresentNumber(m.timeout) then [("TimeoutSeconds", JNum(m.timeout.value))] else [])
       + (if PresentText(m.version) then [("Version", JStr(m.version.value))] else []))
  }

  // ----- properties -----

  /**
   * `extractState` does not validate: a fresh Task, which the generator
   * refuses for its missing transition, extracts to `{Type: "Task"}`.
   */
  lemma ExtractDoesNotValidate(name: string)
    ensures GenerateState(FreshState(TaskKind, name)) == Err(ConfigurationMissing(NextFieldKind))
    ensures ExtractState(FreshState(TaskKind, name)) == Ok([("Type", JStr("Task"))])
  {
    FreshTaskErrors(name);
    var fs := FieldsOf(FreshBody(TaskKind, name));
    assert forall i :: 0 <= i < |fs| ==> !IsConfigured(fs[i]);
    NothingConfigured([], fs);
  }

  /** Fields none of which is configured merge nothing. */
  lemma {:induction false} NothingConfigured(base: seq<Member>, fs: seq<FieldValue>)
    requires forall i :: 0 <= i < |fs| ==> !IsConfigured(fs[i])
    ensures AssignFields(base, fs) == base
    decreases |fs|
  {
    if fs != [] {
      assert forall i :: 0 <= i < |fs[1..]| ==> fs[1..][i] == fs[i + 1];
      NothingConfigured(base, fs[1..]);
    }
  }

  /** Assigning one new key appends it. */
  lemma AssignNewKey(base: seq<Member>, key: string, v: Json)
    requires Lookup(base, key) == None
    ensures Assign(base, [(key, v)]) == base + [(key, v)]
  {
    assert [(key, v)][1..] == [];
  }

  /** `new Wait(name).setSeconds(s)` extracts through the manager to `{Seconds: s, Type: "Wait"}`. */
  lemma WaitExtractShape(name: string, s: int)
    requires s >= 1
    ensures var w := FreshState(WaitKind, name);
            ExtractState(w.(body := w.body.(seconds := Some(s))))
            == Ok([("Seconds", JNum(s)), ("Type", JStr("Wait"))])
  {
    var w := FreshState(WaitKind, name);
    var v := w.(body := w.body.(seconds := Some(s)));
    NothingConfigured([], FieldsOf(v.body));
    var base := [("Seconds", JNum(s))];
    assert ExtractBase(v) == Ok(base);
    assert Assign(base, []) == base;
    AssignNewKey(base, "Type", JStr("Wait"));
    assert StateObject(v, base) == Assign(Assign(base, []), [("Type", JStr("Wait"))]);
    assert ExtractState(v) == Ok(StateObject(v, base));
    assert base + [("Type", JStr("Wait"))] == [("Seconds", JNum(s)), ("Type", JStr("Wait"))];
  }

  /** Of a Task with an ended transition and nothing else configured, only `End` is extracted as a field. */
  lemma EndedTaskFields(v: StateValue)
    requires v.body.TaskBody? && v.body.next.configured && v.body.next.isEnd && !v.body.next.locked
    requires !v.body.path.configured && !v.body.resultPath.configured && !v.body.result.configured
    requires !v.body.retry.configured && !v.body.catch.configured
    ensures RelatedFields(v.body) == [("End", JBool(true))]
  {
    var fs := FieldsOf(v.body);
    var ended := [("End", JBool(true))];
    assert GenerateField(fs[3]) == ended;
    assert fs[1..][1..] == fs[2..] && fs[2..][1..] == fs[3..] && fs[3..][1..] == fs[4..];
    assert Assign([], ended) == ended;
    NothingConfigured(ended, fs[4..]);
    calc {
      RelatedFields(v.body);
      AssignFields([], fs[1..]);
      AssignFields([], fs[2..]);
      AssignFields([], fs[3..]);
      AssignFields(ended, fs[4..]);
    }
  }

  /** A Task with resource `xy` and an ended transition extracts to `{Resource: "xy", End: true, Type: "Task"}`. */
  lemma TaskExtractShape(name: string)
    ensures var t := FreshState(TaskKind, name);
            var n := MarkEnd(t.body.next).value;
            ExtractState(WithNext(t, n).(body := WithNext(t, n).body.(resource := Some("xy"))))
            == Ok([("Resource", JStr("xy")), ("End", JBool(true)), ("Type", JStr("Task"))])
  {
    var t := FreshState(TaskKind, name);
    var n := MarkEnd(t.body.next).value;
    var v := WithNext(t, n).(body := WithNext(t, n).body.(resource := Some("xy")));
    EndedTaskFields(v);
    var base := [("Resource", JStr("xy"))];
    assert ExtractTask(Some("xy"), None, None) == base;
    AssignNewKey(base, "End", JBool(true));
    var ended := base + [("End", JBool(true))];
    assert Lookup(ended, "Type") == Lookup(ended[1..], "Type") == None;
    AssignNewKey(ended, "Type", JStr("Task"));
    assert StateObject(v, base) == Assign(Assign(base, [("End", JBool(true))]), [("Type", JStr("Task"))]);
    assert ExtractState(v) == Ok(StateObject(v, base));
    assert ended + [("Type", JStr("Task"))] == [("Resource", JStr("xy")), ("End", JBool(true)), ("Type", JStr("Task"))];
  }

  /**
   * With a start, the machine's extract has the generator's layout around
   * the extracted States object: StartAt, States, then the truthy options.
   */
  lemma MachineExtractLayout(m: MachineValue)
    requires m.start.Some? && ExtractStates([], m.states).Ok?
    ensures ExtractMachine(m) == Ok(MachineObject(m, ExtractStates([], m.states).value))
  {
  }
}
