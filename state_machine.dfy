/** The state machine: its options, its states in insertion order and the index of their names (src/StateMachine.ts). */
module StateMachines {
  import opened Wrappers
  import opened Failures
  import opened StateValues
  import opened StateRefs

  /** The constructor's `options`; a key left out is `None`. */
  datatype MachineOptions = MachineOptions(comment: Option<string>, timeout: Option<int>, version: Option<string>)

  /** `x || null` on a string or number option. */
  function TextOrNull(s: Option<string>): (r: Option<string>)
    ensures r.Some? <==> PresentText(s)
    ensures r.Some? ==> r == s
  {
    if PresentText(s) then s else None
  }

  function NumberOrNull(n: Option<int>): (r: Option<int>)
    ensures r.Some? <==> PresentNumber(n)
    ensures r.Some? ==> r == n
  {
    if PresentNumber(n) then n else None
  }

  /** A snapshot of a machine: its options, the name of its start state and its states in order. */
  datatype MachineValue = MachineValue(
    comment: Option<string>,
    timeout: Option<int>,
    version: Option<string>,
    start: Option<string>,
    states: seq<StateValue>)

  /** The names of some states, in order. */
  function Names(rs: seq<StateRef>): (ns: seq<string>)
    ensures |ns| == |rs|
    ensures forall i :: 0 <= i < |rs| ==> ns[i] == rs[i].Name()
  {
    seq(|rs|, i requires 0 <= i < |rs| => rs[i].Name())
  }

  lemma NamesSnoc(rs: seq<StateRef>, r: StateRef)
    ensures Names(rs + [r]) == Names(rs) + [r.Name()]
  {
    assert (rs + [r])[..|rs|] == rs;
  }

  /** The objects that decide which objects a list of states is made of. */
  function StatesAnchors(rs: seq<StateRef>): set<object>
  {
    set r, o | r in rs && o in r.Anchors() :: o
  }

  /** Every object the snapshots of a list of states depend on. */
  ghost function StatesRepr(rs: seq<StateRef>): set<object>
    reads StatesAnchors(rs)
  {
    set r, o | r in rs && o in r.Repr() :: o
  }

  /** The snapshots of a list of states, in order. */
  function StatesValues(rs: seq<StateRef>): (vs: seq<StateValue>)
    reads StatesAnchors(rs), StatesRepr(rs)
    ensures |vs| == |rs|
    ensures forall i :: 0 <= i < |rs| ==> vs[i] == rs[i].Value()
  {
    if rs == [] then []
    else
      var last := rs[|rs| - 1];
      assert last in rs;
      StatesValues(rs[..|rs| - 1]) + [last.Value()]
  }

  /**
   * The `_state_index` object kept as a map: every indexed name is the name of
   * the state at its one-based position and of no state before it, and every
   * state's name is indexed (a refused duplicate stays in the list).
   */
  ghost predicate IndexOf(names: seq<string>, index: map<string, nat>)
  {
    (forall k {:trigger index[k]} :: k in index ==> 1 <= index[k] <= |names| && names[index[k] - 1] == k)
    && (forall k, j {:trigger index[k], names[j]} :: k in index && 0 <= j < index[k] - 1 ==> names[j] != k)
    && (forall i :: 0 <= i < |names| ==> names[i] in index)
  }

  /** Appending a name keeps the index exact whether the name is refused (already indexed) or indexed at the new length. */
  lemma IndexAppend(names: seq<string>, index: map<string, nat>, name: string)
    requires IndexOf(names, index)
    ensures name in index ==> IndexOf(names + [name], index)
    ensures name !in index ==> IndexOf(names + [name], index[name := |names| + 1])
  {
    var ns := names + [name];
    assert forall i :: 0 <= i < |names| ==> ns[i] == names[i];
  }

  /** After an append, the index (refused or extended) stays exact and points at a state of the appended name. */
  lemma IndexAdded(names: seq<string>, before: map<string, nat>, name: string, after: map<string, nat>)
    requires IndexOf(names, before)
    requires after == if name in before then before else before[name := |names| + 1]
    ensures IndexOf(names + [name], after)
    ensures name in after && 1 <= after[name] <= |names| + 1 && (names + [name])[after[name] - 1] == name
  {
    IndexAppend(names, before, name);
    assert (names + [name])[|names|] == name;
  }

  /** Appending a state keeps the index exact, and its name then points at a state of that name. */
  lemma AddedIndexPoints(rs: seq<StateRef>, r: StateRef, before: map<string, nat>, after: map<string, nat>)
    requires IndexOf(Names(rs), before)
    requires after == if r.Name() in before then before else before[r.Name() := |rs| + 1]
    ensures IndexOf(Names(rs + [r]), after)
    ensures r.Name() in after && 1 <= after[r.Name()] <= |rs| + 1 && (rs + [r])[after[r.Name()] - 1].Name() == r.Name()
  {
    NamesSnoc(rs, r);
    IndexSnoc(Names(rs), Names(rs + [r]), r.Name(), before, after);
    IndexedStateNamed(rs, r, before, after, Names(rs));
  }

  /** After the append, the position the index gives the new name holds a state of that name. */
  lemma IndexedStateNamed(rs: seq<StateRef>, r: StateRef, before: map<string, nat>, after: map<string, nat>,
                          names: seq<string>)
    requires names == Names(rs) && IndexOf(names, before)
    requires after == if r.Name() in before then before else before[r.Name() := |rs| + 1]
    ensures r.Name() in after && 1 <= after[r.Name()] <= |rs| + 1 && (rs + [r])[after[r.Name()] - 1].Name() == r.Name()
  {
    if r.Name() in before {
      var j := before[r.Name()] - 1;
      assert names[j] == rs[j].Name();
      assert (rs + [r])[j] == rs[j];
    } else {
      assert (rs + [r])[|rs|] == r;
    }
  }

  lemma IndexSnoc(names: seq<string>, longer: seq<string>, name: string, before: map<string, nat>, after: map<string, nat>)
    requires IndexOf(names, before) && longer == names + [name]
    requires after == if name in before then before else before[name := |names| + 1]
    ensures IndexOf(longer, after)
    ensures name in after && 1 <= after[name] <= |longer| && longer[after[name] - 1] == name
  {
    IndexAdded(names, before, name, after);
  }

  /** The members every plain JavaScript object inherits from `Object.prototype`. */
  const PrototypeKeys: set<string> := {
    "constructor", "hasOwnProperty", "isPrototypeOf", "propertyIsEnumerable",
    "toLocaleString", "toString", "valueOf", "__proto__",
    "__defineGetter__", "__defineSetter__", "__lookupGetter__", "__lookupSetter__" }

  /**
   * `indexState`'s test as written: `this._state_index[name]` is truthy for an
   * indexed name (positions start at 1) and also for every inherited member.
   */
  predicate IndexClashAsWritten(index: map<string, nat>, name: string)
  {
    name in index || name in PrototypeKeys
  }

  /** The test as intended: only a name already indexed clashes. */
  predicate IndexClash(index: map<string, nat>, name: string)
  {
    name in index
  }

  /** As written, a state named after an inherited member cannot be added even to an empty machine. */
  lemma PrototypeNameRefused()
    ensures IndexClashAsWritten(map[], "constructor")
    ensures !IndexClash(map[], "constructor")
  {
  }

  /** Outside the inherited names, the written and the intended tests agree. */
  lemma IndexClashAgrees(index: map<string, nat>, name: string)
    requires name !in PrototypeKeys
    ensures IndexClashAsWritten(index, name) <==> IndexClash(index, name)
  {
  }

  /** The errors of every state, concatenated in order. */
  function StatesErrors(vs: seq<StateValue>): seq<Failure>
  {
    if vs == [] then [] else ValidateState(vs[0]) + StatesErrors(vs[1..])
  }

  lemma {:induction false} StatesErrorsEmpty(vs: seq<StateValue>)
    ensures StatesErrors(vs) == [] <==> forall i :: 0 <= i < |vs| ==> ValidateState(vs[i]) == []
  {
    if vs != [] {
      StatesErrorsEmpty(vs[1..]);
      assert forall i :: 1 <= i < |vs| ==> vs[i] == vs[1..][i - 1];
    }
  }

  /** `validate()`: the errors of the states, then one if there is no state at all. */
  function ValidateMachine(m: MachineValue): (errs: seq<Failure>)
    ensures errs == [] <==> |m.states| > 0 && forall i :: 0 <= i < |m.states| ==> ValidateState(m.states[i]) == []
    ensures |m.states| == 0 ==> errs == [MachineWithoutStates]
  {
    StatesErrorsEmpty(m.states);
    StatesErrors(m.states) + (if |m.states| == 0 then [MachineWithoutStates] else [])
  }

  class StateMachine {
    var comment: Option<string>
    var timeout: Option<int>
    var version: Option<string>
    var start: Option<string>
    var states: seq<StateRef>
    var index: map<string, nat>

    ghost predicate Valid()
      reads this
    {
      IndexOf(Names(states), index)
    }

    function Value(): (m: MachineValue)
      reads this, StatesAnchors(states), StatesRepr(states)
      ensures m.states == StatesValues(states)
    {
      MachineValue(comment, timeout, version, start, StatesValues(states))
    }

    /** Each option is kept only when truthy; there is no state and no start yet. */
    constructor(options: MachineOptions)
      ensures Valid()
      ensures Value() == MachineValue(TextOrNull(options.comment), NumberOrNull(options.timeout),
                                      TextOrNull(options.version), None, [])
    {
      comment := TextOrNull(options.comment);
      timeout := NumberOrNull(options.timeout);
      version := TextOrNull(options.version);
      start := None;
      states := [];
      index := map[];
    }

    /** `startAt(state)`: records the state as the start, whether or not it has been added. */
    method StartAt(s: StateRef)
      modifies this
      ensures start == Some(s.Name())
      ensures comment == old(comment) && timeout == old(timeout) && version == old(version)
      ensures states == old(states) && index == old(index)
    {
      start := Some(s.Name());
    }

    /**
     * `addState(state)`: the state is appended first; a name already indexed
     * then throws, leaving the state in the list but not indexed and the start
     * untouched; otherwise the name is indexed at the new length and the state
     * becomes the start if there was none.
     */
    method AddState(s: StateRef) returns (thrown: Option<Failure>)
      requires Valid()
      modifies this
      ensures Valid()
      ensures states == old(states) + [s]
      ensures comment == old(comment) && timeout == old(timeout) && version == old(version)
      ensures thrown.Some? <==> IndexClash(old(index), s.Name())
      ensures thrown.Some? ==> thrown.value == StateAlreadyIndexed(s.Name())
                               && index == old(index) && start == old(start)
      ensures thrown.None? ==> index == old(index)[s.Name() := |states|]
                               && start == (if old(start).None? then Some(s.Name()) else old(start))
      ensures s.Name() in index && states[index[s.Name()] - 1].Name() == s.Name()
    {
      ghost var after := if s.Name() in index then index else index[s.Name() := |states| + 1];
      AddedIndexPoints(states, s, index, after);
      states := states + [s];
      thrown := IndexState(s.Name(), |states|);
      assert index == after;
      if thrown.None? && start.None? {
        StartAt(s);
      }
    }

    /** `indexState(state, index)`. */
    method IndexState(name: string, position: nat) returns (thrown: Option<Failure>)
      modifies this
      ensures thrown.Some? <==> IndexClash(old(index), name)
      ensures thrown.Some? ==> thrown.value == StateAlreadyIndexed(name) && index == old(index)
      ensures thrown.None? ==> index == old(index)[name := position]
      ensures comment == old(comment) && timeout == old(timeout) && version == old(version)
      ensures states == old(states) && start == old(start)
    {
      if name in index {
        return Some(StateAlreadyIndexed(name));
      }
      index := index[name := position];
      return None;
    }

    /** `validate()` over the current states. */
    function Validate(): (errs: seq<Failure>)
      reads this, StatesAnchors(states), StatesRepr(states)
      ensures errs == [] <==> |states| > 0 && forall i :: 0 <= i < |states| ==> ValidateState(states[i].Value()) == []
    {
      ValidateMachine(Value())
    }

    function GetComment(): Option<string> reads this { comment }
    function GetTimeout(): Option<int> reads this { timeout }
    function GetVersion(): Option<string> reads this { version }
    function GetStartState(): Option<string> reads this { start }
    function GetStates(): seq<StateRef> reads this { states }

    /** `setComment`, `setTimeout`, `setVersion` and `setStartState`, as the machine hydrator calls them. */
    method SetComment(c: string)
      modifies this
      ensures comment == Some(c) && timeout == old(timeout) && version == old(version)
      ensures start == old(start) && states == old(states) && index == old(index)
    {
      comment := Some(c);
    }

    method SetTimeout(t: int)
      modifies this
      ensures timeout == Some(t) && comment == old(comment) && version == old(version)
      ensures start == old(start) && states == old(states) && index == old(index)
    {
      timeout := Some(t);
    }

    /** `setTimeout(NaN)`: the field holds NaN, which reads back as no number. */
    method SetTimeoutNotANumber()
      modifies this
      ensures timeout == None && comment == old(comment) && version == old(version)
      ensures start == old(start) && states == old(states) && index == old(index)
    {
      timeout := None;
    }

    method SetVersion(v: string)
      modifies this
      ensures version == Some(v) && comment == old(comment) && timeout == old(timeout)
      ensures start == old(start) && states == old(states) && index == old(index)
    {
      version := Some(v);
    }

    method SetStartState(name: string)
      modifies this
      ensures start == Some(name) && comment == old(comment) && timeout == old(timeout)
      ensures version == old(version) && states == old(states) && index == old(index)
    {
      start := Some(name);
    }
  }
}
