/**
 * The state hydrators and the manager's `hydrateState` as they run: each
 * one updates a state object in place through the object's own setters and
 * the field hydrators, and is proved to leave the object exactly as the
 * value-level hydrator of module StateHydrators describes.
 */
module StateHydratorMethods {
  import opened Wrappers
  import opened Json
  import opened Failures
  import opened StateValues
  import opened FieldHydrators
  import opened StateHydrators
  import opened TaskStates
  import opened WaitStates
  import opened FailStates
  import opened PassStates
  import opened SucceedStates
  import opened ParallelStates
  import opened ChoiceStates
  import opened StateRefs
  import opened PropertyOrder

  /**
   * `getStateRegistryByTypeName`: the `every` over the registry stops at the
   * first class whose type name is the value; none found throws.
   */
  method FindRegistry(t: Option<Json>) returns (r: Result<Kind>)
    ensures r == KindNamed(t)
  {
    var i := 0;
    while i < |Registry|
      invariant 0 <= i <= |Registry|
      invariant forall j :: 0 <= j < i ==> t != Some(JStr(TypeName(Registry[j])))
    {
      if t == Some(JStr(TypeName(Registry[i]))) {
        TypeNamesBijective(Registry[i], Registry[i]);
        return Ok(Registry[i]);
      }
      i := i + 1;
    }
    forall k | true
      ensures t != Some(JStr(TypeName(k)))
    {
      RegistryComplete(k);
    }
    return Err(UnknownStateType(t));
  }

  /** `TaskStateHydrator.hydrate` on a Task object; a throw leaves the setters already made. */
  method HydrateTask(task: Task, data: seq<Member>) returns (thrown: Option<Failure>)
    requires task.Valid()
    modifies task
    ensures task.Valid()
    ensures Effect(task.Value(), thrown) == HydrateTaskValue(old(task.Value()), data)
  {
    var heartbeat := TruthyAt(data, "HeartbeatSeconds");
    if heartbeat.Some? {
      if !heartbeat.value.JNum? {
        return Some(IllTyped("HeartbeatSeconds"));
      }
      task.SetHeartbeat(heartbeat.value.n);
    }
    var timeout := TruthyAt(data, "TimeoutSeconds");
    if timeout.Some? {
      if !timeout.value.JNum? {
        return Some(IllTyped("TimeoutSeconds"));
      }
      task.SetTimeout(timeout.value.n);
    }
    var resource := ResourceAt(data);
    if resource.Err? {
      return Some(resource.error);
    }
    task.SetResource(resource.value);
    return None;
  }

  /** `WaitStateHydrator.hydrate` on a Wait object. */
  method HydrateWait(wait: Wait, data: seq<Member>) returns (thrown: Option<Failure>)
    modifies wait
    ensures match HydrateWaitValue(old(wait.Value()), data)
            case Ok(v) => thrown.None? && wait.Value() == v
            case Err(e) => thrown == Some(e) && wait.Value() == old(wait.Value())
  {
    var seconds := ParsedSeconds(data);
    if seconds.Some? {
      thrown := wait.SetSeconds(seconds.value);
    } else {
      wait.SetSecondsNotANumber();
      thrown := None;
    }
  }

  /** `FailStateHydrator.hydrate` on a Fail object: an error is built from the data and stored. */
  method HydrateFail(fail: Fail, data: seq<Member>) returns (thrown: Option<Failure>)
    modifies fail
    ensures match HydrateFailValue(old(fail.Value()), data)
            case Ok(v) => thrown.None? && fail.Value() == v
            case Err(e) => thrown == Some(e) && fail.Value() == old(fail.Value())
  {
    var message := ErrorMessageAt(data);
    if message.Err? {
      return Some(message.error);
    }
    var name := ErrorNameAt(data);
    if name.Err? {
      return Some(name.error);
    }
    fail.With(ErrorInfo(name.value, message.value, "Error"));
    return None;
  }

  /**
   * `PassStateHydrator.hydrate` on a Pass object: each field through its own
   * hydrator, in field order; a throw leaves the fields already hydrated.
   */
  method HydratePass(pass: Pass, data: seq<Member>) returns (thrown: Option<Failure>)
    modifies pass.path, pass.resultPath, pass.result, pass.next
    ensures Effect(pass.Value(), thrown) == HydratePassValue(old(pass.Value()), data)
  {
    thrown := HydratePath(pass.path, data);
    if thrown.Some? {
      return;
    }
    thrown := HydrateResultPath(pass.resultPath, data);
    if thrown.Some? {
      return;
    }
    HydrateResult(pass.result, data);
    thrown := HydrateNext(pass.next, data);
  }

  /** The outcome of the rest of a walk, with the items already produced put in front. */
  function Prefixed<T>(done: seq<T>, rest: Result<seq<T>>): Result<seq<T>>
  {
    if rest.Ok? then Ok(done + rest.value) else rest
  }

  lemma PrefixedNothing<T>(r: Result<seq<T>>)
    ensures Prefixed([], r) == r
  {
    if r.Ok? {
      assert [] + r.value == r.value;
    }
  }

  /** A well-formed branch is determined by its states. */
  lemma BranchDetermined(a: BranchValue, b: BranchValue)
    requires BranchWellFormed(a) && BranchWellFormed(b) && a.states == b.states
    ensures a == b
  {
    if a.states != [] {
      assert a.start == Some(a.states[0].name) == b.start;
    }
  }

  /**
   * `hydrateState(name, data)`: a new object of the class registered under
   * `data.Type`, hydrated by that class's hydrator; what it throws is
   * passed on and the object is dropped.
   */
  method HydrateState(name: string, data: Json) returns (r: Result<StateRef>)
    ensures var v := HydrateStateValue(name, data);
            (r.Ok? <==> v.Ok?) && (r.Ok? ==> r.value.Valid() && r.value.Value() == v.value)
            && (r.Err? ==> r.error == v.error)
    decreases data, 3
  {
    var t := TypeOf(data);
    if t.Err? {
      return Err(t.error);
    }
    var kind := FindRegistry(t.value);
    if kind.Err? {
      return Err(kind.error);
    }
    match kind.value
    case PassKind => r := BuildPass(name, data.members);
    case TaskKind => r := BuildTask(name, data.members);
    case WaitKind => r := BuildWait(name, data.members);
    case FailKind => r := BuildFail(name, data.members);
    case ParallelKind => r := BuildParallel(name, data);
    case SucceedKind =>
      var s := new Succeed(name);
      r := Ok(SucceedRef(s));
    case ChoiceKind =>
      var s := new Choice(name);
      r := Ok(ChoiceRef(s));
  }

  /** A new Pass state named `name`, hydrated from `data`. */
  method BuildPass(name: string, data: seq<Member>) returns (r: Result<StateRef>)
    ensures var v := Settled(HydratePassValue(FreshState(PassKind, name), data));
            (r.Ok? <==> v.Ok?) && (r.Ok? ==> r.value.Valid() && r.value.Value() == v.value)
            && (r.Err? ==> r.error == v.error)
  {
    var s := new Pass(name);
    var thrown := HydratePass(s, data);
    r := if thrown.Some? then Err(thrown.value) else Ok(PassRef(s));
  }

  /** A new Task state named `name`, hydrated from `data`. */
  method BuildTask(name: string, data: seq<Member>) returns (r: Result<StateRef>)
    ensures var v := Settled(HydrateTaskValue(FreshState(TaskKind, name), data));
            (r.Ok? <==> v.Ok?) && (r.Ok? ==> r.value.Valid() && r.value.Value() == v.value)
            && (r.Err? ==> r.error == v.error)
  {
    var s := new Task(name);
    var thrown := HydrateTask(s, data);
    r := if thrown.Some? then Err(thrown.value) else Ok(TaskRef(s));
  }

  /** A new Wait state named `name`, hydrated from `data`. */
  method BuildWait(name: string, data: seq<Member>) returns (r: Result<StateRef>)
    ensures var v := HydrateWaitValue(FreshState(WaitKind, name), data);
            (r.Ok? <==> v.Ok?) && (r.Ok? ==> r.value.Valid() && r.value.Value() == v.value)
            && (r.Err? ==> r.error == v.error)
  {
    var s := new Wait(name);
    var thrown := HydrateWait(s, data);
    r := if thrown.Some? then Err(thrown.value) else Ok(WaitRef(s));
  }

  /** A new Fail state named `name`, hydrated from `data`. */
  method BuildFail(name: string, data: seq<Member>) returns (r: Result<StateRef>)
    ensures var v := HydrateFailValue(FreshState(FailKind, name), data);
            (r.Ok? <==> v.Ok?) && (r.Ok? ==> r.value.Valid() && r.value.Value() == v.value)
            && (r.Err? ==> r.error == v.error)
  {
    var s := new Fail(name);
    var thrown := HydrateFail(s, data);
    r := if thrown.Some? then Err(thrown.value) else Ok(FailRef(s));
  }

  /** A new Parallel state named `name`, hydrated from `data`. */
  method BuildParallel(name: string, data: Json) returns (r: Result<StateRef>)
    requires data.JObj?
    ensures var v := HydrateParallelValue(FreshState(ParallelKind, name), data);
            (r.Ok? <==> v.Ok?) && (r.Ok? ==> r.value.Valid() && r.value.Value() == v.value)
            && (r.Err? ==> r.error == v.error)
    decreases data, 2
  {
    var s := new Parallel(name);
    var thrown := HydrateParallel(s, data);
    r := if thrown.Some? then Err(thrown.value) else Ok(ParallelRef(s));
  }

  /**
   * `ParallelStateHydrator.hydrate` on a Parallel object: `addBranch()` for
   * each entry of `data.Branches`, filled with the entry's states. When it
   * throws, the branches already added stay; the manager drops the object.
   */
  method HydrateParallel(p: Parallel, data: Json) returns (thrown: Option<Failure>)
    requires data.JObj?
    modifies p
    ensures var r := HydrateParallelValue(old(p.Value()), data);
            (thrown.None? <==> r.Ok?) && (r.Ok? ==> p.Value() == r.value) && (r.Err? ==> thrown == Some(r.error))
    decreases data, 1
  {
    var list := Lookup(data.members, "Branches");
    if list.None? || list == Some(JNull) {
      return Some(UndefinedAccess("Branches"));
    }
    if !list.value.JArr? {
      return Some(IllTyped("Branches"));
    }
    LookupIn(data.members, "Branches");
    thrown := AddBranches(p, list.value);
  }

  /** The `map` over `data.Branches`: `addBranch()` for each entry, filled with its states. */
  method AddBranches(p: Parallel, list: Json) returns (thrown: Option<Failure>)
    requires list.JArr?
    modifies p
    ensures p.comment == old(p.comment)
    ensures var r := HydrateBranches(list, 0);
            (thrown.None? <==> r.Ok?) && (r.Ok? ==> BranchValues(p.branches) == old(BranchValues(p.branches)) + r.value)
            && (r.Err? ==> thrown == Some(r.error))
    decreases list, 1
  {
    ghost var start := BranchValues(p.branches);
    ghost var added: seq<BranchValue> := [];
    assert start + added == start;
    PrefixedNothing(HydrateBranches(list, 0));
    var i := 0;
    while i < |list.items|
      invariant 0 <= i <= |list.items|
      invariant p.comment == old(p.comment)
      invariant BranchValues(p.branches) == start + added
      invariant HydrateBranches(list, 0) == Prefixed(added, HydrateBranches(list, i))
    {
      thrown, added := AddBranchAt(p, list, i, start, added);
      if thrown.Some? {
        return;
      }
      i := i + 1;
    }
    assert Prefixed(added, HydrateBranches(list, i)) == Ok(added + []);
    assert added + [] == added;
    return None;
  }

  /** Entry `i` of `data.Branches`, as one step of `HydrateBranches`. */
  method AddBranchAt(p: Parallel, list: Json, i: nat, ghost start: seq<BranchValue>, ghost added: seq<BranchValue>)
      returns (thrown: Option<Failure>, ghost added': seq<BranchValue>)
    requires list.JArr? && i < |list.items|
    requires BranchValues(p.branches) == start + added
    requires HydrateBranches(list, 0) == Prefixed(added, HydrateBranches(list, i))
    modifies p
    ensures p.comment == old(p.comment)
    ensures thrown.Some? ==> HydrateBranches(list, 0) == Err(thrown.value)
    ensures thrown.None? ==> BranchValues(p.branches) == start + added'
                             && HydrateBranches(list, 0) == Prefixed(added', HydrateBranches(list, i + 1))
    decreases list, 0
  {
    assert list.items[i] in list.items;
    thrown := AddHydratedBranch(p, list.items[i]);
    BranchesStep(list, i);
    added' := added;
    if thrown.None? {
      ghost var branch := HydrateBranch(list.items[i]).value;
      PrefixedSnoc(added, branch, HydrateBranches(list, i + 1));
      ConcatAssoc(start, added, [branch]);
      added' := added + [branch];
    }
  }

  /** One step of the `map`: `addBranch()`, then the entry's states into the new branch. */
  method AddHydratedBranch(p: Parallel, item: Json) returns (thrown: Option<Failure>)
    modifies p
    ensures p.comment == old(p.comment)
    ensures match HydrateBranch(item)
            case Ok(v) => thrown.None? && BranchValues(p.branches) == old(BranchValues(p.branches)) + [v]
            case Err(e) => thrown == Some(e)
    decreases item, 3
  {
    ghost var before := p.branches;
    ghost var kept := BranchValues(before);
    var b := p.AddBranch(None);
    assert b !in before;
    thrown := HydrateBranchInto(b, item);
    if thrown.None? {
      assert BranchValues(before) == kept;
      BranchValuesSnoc(before, b);
    }
  }

  /**
   * One entry of `Branches` into a new branch: each key of its `States`
   * through `hydrateState`, the state added with `addState`.
   */
  method HydrateBranchInto(b: ParallelBranch, item: Json) returns (thrown: Option<Failure>)
    requires b.Value() == EmptyBranch
    modifies b
    ensures match HydrateBranch(item)
            case Ok(v) => thrown.None? && b.Value() == v
            case Err(e) => thrown == Some(e)
    decreases item, 2
  {
    if !item.JObj? {
      return Some(UndefinedAccess("States"));
    }
    var states := Lookup(item.members, "States");
    if states.None? || states == Some(JNull) {
      return Some(UndefinedAccess("States"));
    }
    if !states.value.JObj? {
      return Some(IllTyped("States"));
    }
    LookupIn(item.members, "States");
    thrown := HydrateStatesInto(b, states.value);
    if thrown.None? {
      BranchDetermined(b.Value(), NewBranch(HydrateStatesFrom(states.value, 0).value));
    }
  }

  /** The `forEach` over `Object.keys` of a branch's `States`, adding each hydrated state to the branch. */
  method HydrateStatesInto(b: ParallelBranch, obj: Json) returns (thrown: Option<Failure>)
    requires obj.JObj? && b.Value() == EmptyBranch
    modifies b
    ensures var r := HydrateStatesFrom(obj, 0);
            (thrown.None? <==> r.Ok?) && (r.Ok? ==> b.Valid() && b.Value().states == r.value)
            && (r.Err? ==> thrown == Some(r.error))
    decreases obj, 1
  {
    ghost var done: seq<StateValue> := [];
    PrefixedNothing(HydrateStatesFrom(obj, 0));
    var listed := Enumerated(obj.members);
    var j := 0;
    while j < |listed|
      invariant 0 <= j <= |listed|
      invariant b.Valid() && b.Value().states == done
      invariant HydrateStatesFrom(obj, 0) == Prefixed(done, HydrateStatesFrom(obj, j))
    {
      assert listed[j] in obj.members;
      var state := HydrateState(listed[j].0, listed[j].1);
      StatesFromStep(obj, j);
      if state.Err? {
        return Some(state.error);
      }
      ghost var s := state.value.Value();
      b.AddState(state.value.Value());
      PrefixedSnoc(done, s, HydrateStatesFrom(obj, j + 1));
      done := done + [s];
      j := j + 1;
    }
    assert Prefixed(done, HydrateStatesFrom(obj, j)) == Ok(done + []);
    assert done + [] == done;
    return None;
  }

  /** One key of the walk over `States`: the state under it, then the rest. */
  lemma StatesFromStep(obj: Json, j: nat)
    requires obj.JObj? && j < |obj.members|
    ensures var m := Enumerated(obj.members)[j];
            var s := HydrateStateValue(m.0, m.1);
            HydrateStatesFrom(obj, j) == if s.Err? then Err(s.error) else Prefixed([s.value], HydrateStatesFrom(obj, j + 1))
  {
  }

  /** One entry of the walk over `Branches`: the branch from it, then the rest. */
  lemma BranchesStep(list: Json, i: nat)
    requires list.JArr? && i < |list.items|
    ensures var b := HydrateBranch(list.items[i]);
            HydrateBranches(list, i) == if b.Err? then Err(b.error) else Prefixed([b.value], HydrateBranches(list, i + 1))
  {
  }

  lemma BranchValuesSnoc(bs: seq<ParallelBranch>, b: ParallelBranch)
    ensures BranchValues(bs + [b]) == BranchValues(bs) + [b.Value()]
  {
    assert (bs + [b])[..|bs|] == bs;
  }

  lemma PrefixedSnoc<T>(done: seq<T>, x: T, rest: Result<seq<T>>)
    ensures Prefixed(done, Prefixed([x], rest)) == Prefixed(done + [x], rest)
  {
    if rest.Ok? {
      assert done + ([x] + rest.value) == done + [x] + rest.value;
    }
  }
}
