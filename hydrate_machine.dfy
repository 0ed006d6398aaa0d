/**
 * `StateMachineHydrator.hydrate` (src/hydrators/aws/StateMachineHydrator.ts):
 * the machine's options when truthy, then every key of `States` decoded
 * through the manager's `hydrateState` and added with `addState`, in key
 * order. First on snapshots that carry the machine's name index, then on
 * the machine object itself.
 */
module MachineHydrator {
  import opened Wrappers
  import opened Json
  import opened Failures
  import opened StateValues
  import opened StateRefs
  import opened StateMachines
  import opened FieldHydrators
  import opened StateHydrators
  import opened StateExtractors
  import opened StateHydratorMethods
  import opened ParseInts
  import opened PropertyOrder

  /** A machine snapshot together with its name index, which `addState` consults and updates. */
  datatype Indexed = Indexed(machine: MachineValue, index: map<string, nat>)

  /** The names of some state snapshots, in order. */
  function StateNames(vs: seq<StateValue>): (ns: seq<string>)
    ensures |ns| == |vs| && forall i :: 0 <= i < |vs| ==> ns[i] == vs[i].name
  {
    seq(|vs|, i requires 0 <= i < |vs| => vs[i].name)
  }

  /** A snapshot whose index is exact for its states, as the machine's `Valid` requires. */
  ghost predicate IndexedValid(st: Indexed)
  {
    IndexOf(StateNames(st.machine.states), st.index)
  }

  /**
   * `addState` on a snapshot: the state is appended whatever happens; a name
   * already indexed throws, otherwise it is indexed at the new length and
   * becomes the start if there was none.
   */
  function AddStateValue(st: Indexed, s: StateValue): (r: Effect<Indexed>)
    ensures r.state.machine == st.machine.(states := st.machine.states + [s], start := r.state.machine.start)
    ensures r.thrown.Some? <==> s.name in st.index
    ensures r.thrown.Some? ==> r.thrown.value == StateAlreadyIndexed(s.name) && r.state.index == st.index
                               && r.state.machine.start == st.machine.start
    ensures r.thrown.None? ==> r.state.index == st.index[s.name := |st.machine.states| + 1]
                               && r.state.machine.start == (if st.machine.start.None? then Some(s.name) else st.machine.start)
  {
    var m := st.machine.(states := st.machine.states + [s]);
    if s.name in st.index then Effect(Indexed(m, st.index), Some(StateAlreadyIndexed(s.name)))
    else
      Effect(Indexed(m.(start := if m.start.None? then Some(s.name) else m.start), st.index[s.name := |m.states|]), None)
  }

  /** `addState` keeps the index exact, whether it throws or not. */
  lemma AddStateKeepsIndex(st: Indexed, s: StateValue)
    requires IndexedValid(st)
    ensures IndexedValid(AddStateValue(st, s).state)
  {
    assert StateNames(st.machine.states + [s]) == StateNames(st.machine.states) + [s.name];
    IndexAppend(StateNames(st.machine.states), st.index, s.name);
  }

  /** What `hydrateState` makes of each of the given members of `States`, in the order given. */
  function HydratedStates(states: seq<Member>): (rs: seq<Result<StateValue>>)
    ensures |rs| == |states|
    ensures forall k :: 0 <= k < |states| ==> rs[k] == HydrateStateValue(states[k].0, states[k].1)
    ensures forall k :: 0 <= k < |states| && rs[k].Ok? ==> rs[k].value.name == states[k].0
  {
    seq(|states|, k requires 0 <= k < |states| => HydrateStateValue(states[k].0, states[k].1))
  }

  /**
   * The `forEach` over the keys of `States` from the `i`-th key listed on, given what
   * `hydrateState` makes of each: the state is added with `addState`; the
   * first throw, of either, stops the walk. The options are untouched,
   * states are only appended, and a start once set stays.
   */
  function AddStatesValue(st: Indexed, hydrated: seq<Result<StateValue>>, i: nat): (r: Effect<Indexed>)
    requires i <= |hydrated|
    ensures r.state.machine.comment == st.machine.comment && r.state.machine.timeout == st.machine.timeout
            && r.state.machine.version == st.machine.version
    ensures |st.machine.states| <= |r.state.machine.states|
            && r.state.machine.states[..|st.machine.states|] == st.machine.states
    ensures st.machine.start.Some? ==> r.state.machine.start == st.machine.start
    decreases |hydrated| - i
  {
    if i == |hydrated| then Effect(st, None)
    else if hydrated[i].Err? then Effect(st, Some(hydrated[i].error))
    else
      var added := AddStateValue(st, hydrated[i].value);
      if added.thrown.Some? then added
      else
        var r := AddStatesValue(added.state, hydrated, i + 1);
        assert r.state.machine.states[..|st.machine.states|]
            == r.state.machine.states[..|added.state.machine.states|][..|st.machine.states|];
        r
  }

  /** Walking the states keeps the index exact. */
  lemma {:induction false} AddStatesKeepsIndex(st: Indexed, hydrated: seq<Result<StateValue>>, i: nat)
    requires i <= |hydrated| && IndexedValid(st)
    ensures IndexedValid(AddStatesValue(st, hydrated, i).state)
    decreases |hydrated| - i
  {
    if i < |hydrated| && hydrated[i].Ok? {
      var added := AddStateValue(st, hydrated[i].value);
      AddStateKeepsIndex(st, hydrated[i].value);
      if added.thrown.None? {
        AddStatesKeepsIndex(added.state, hydrated, i + 1);
        assert AddStatesValue(st, hydrated, i) == AddStatesValue(added.state, hydrated, i + 1);
      } else {
        assert AddStatesValue(st, hydrated, i) == added;
      }
    }
  }

  /** A walk that does not throw appends exactly the hydrated states from `i` on, in order. */
  lemma {:induction false} AddStatesAppends(st: Indexed, hydrated: seq<Result<StateValue>>, i: nat)
    requires i <= |hydrated|
    ensures var r := AddStatesValue(st, hydrated, i);
            r.thrown.None? ==>
              |r.state.machine.states| == |st.machine.states| + |hydrated| - i
              && forall k :: i <= k < |hydrated| ==> hydrated[k] == Ok(r.state.machine.states[|st.machine.states| + k - i])
    decreases |hydrated| - i
  {
    var r := AddStatesValue(st, hydrated, i);
    if i < |hydrated| && r.thrown.None? {
      var s := hydrated[i].value;
      var mid := AddStateValue(st, s).state;
      AddStatesAppends(mid, hydrated, i + 1);
      var n := |st.machine.states|;
      assert r.state.machine.states[..n + 1] == mid.machine.states;
      assert r.state.machine.states[n] == s;
    }
  }

  /** Without a start beforehand, a walk that does not throw makes its first state the start. */
  lemma FirstAddedStarts(st: Indexed, hydrated: seq<Result<StateValue>>, i: nat)
    requires i < |hydrated| && st.machine.start.None?
    ensures var r := AddStatesValue(st, hydrated, i);
            r.thrown.None? ==> hydrated[i].Ok? && r.state.machine.start == Some(hydrated[i].value.name)
  {
  }

  /** When every hydrated state is named after its key, a walk that does not throw adds the keys' names in order. */
  lemma AddedNamesAreKeys(st: Indexed, hydrated: seq<Result<StateValue>>, states: seq<Member>)
    requires |hydrated| == |states|
    requires forall k :: 0 <= k < |states| && hydrated[k].Ok? ==> hydrated[k].value.name == states[k].0
    ensures var r := AddStatesValue(st, hydrated, 0);
            r.thrown.None? ==> StateNames(r.state.machine.states) == StateNames(st.machine.states) + Keys(states)
  {
    var r := AddStatesValue(st, hydrated, 0);
    AddStatesAppends(st, hydrated, 0);
    if r.thrown.None? {
      NamesOfAppended(st.machine.states, r.state.machine.states, hydrated, states);
    }
  }

  /** A list made of a prefix and then one state per key, named after the key, has the prefix's names and then the keys. */
  lemma {:induction false} NamesOfAppended(prefix: seq<StateValue>, all: seq<StateValue>, hydrated: seq<Result<StateValue>>, states: seq<Member>)
    requires |hydrated| == |states| && |all| == |prefix| + |hydrated| && all[..|prefix|] == prefix
    requires forall k :: 0 <= k < |hydrated| ==> hydrated[k] == Ok(all[|prefix| + k])
    requires forall k :: 0 <= k < |states| && hydrated[k].Ok? ==> hydrated[k].value.name == states[k].0
    ensures StateNames(all) == StateNames(prefix) + Keys(states)
  {
    var n := |prefix|;
    var want := StateNames(prefix) + Keys(states);
    forall k | 0 <= k < |all| ensures StateNames(all)[k] == want[k] {
      if k < n {
        assert all[k] == all[..n][k];
      } else {
        KeysAt(states, k - n);
        assert hydrated[k - n] == Ok(all[k]);
      }
    }
  }

  /** Over members of `States` in a given order, a walk that does not throw adds one state per key, named after it, in that order. */
  lemma AddedStatesNamed(st: Indexed, states: seq<Member>)
    ensures var r := AddStatesValue(st, HydratedStates(states), 0);
            r.thrown.None? ==> StateNames(r.state.machine.states) == StateNames(st.machine.states) + Keys(states)
  {
    AddedNamesAreKeys(st, HydratedStates(states), states);
  }

  // ----- the options, and the whole hydrate -----

  /** `if (data.TimeoutSeconds) setTimeout(parseInt(data.TimeoutSeconds))`: text without digits parses to NaN. */
  function TimeoutStep(current: Option<int>, data: seq<Member>): (r: Option<int>)
    ensures TruthyAt(data, "TimeoutSeconds").None? ==> r == current
    ensures TruthyAt(data, "TimeoutSeconds").Some? ==> r == ParseInt(TruthyAt(data, "TimeoutSeconds").value)
  {
    match TruthyAt(data, "TimeoutSeconds")
    case None => current
    case Some(v) => ParseInt(v)
  }

  /** `if (data[key]) setX(data[key])` for a text option: the value is set when it is a string. */
  function TextStep(current: Option<string>, data: seq<Member>, key: string): (r: Result<Option<string>>)
    ensures TruthyAt(data, key).None? ==> r == Ok(current)
    ensures TruthyAt(data, key).Some? ==> (r.Ok? <==> TruthyAt(data, key).value.JStr?)
    ensures TruthyAt(data, key).Some? && r.Ok? ==> r.value == Some(TruthyAt(data, key).value.s)
    ensures r.Err? ==> r.error == IllTyped(key)
  {
    match TruthyAt(data, key)
    case None => Ok(current)
    case Some(JStr(s)) => Ok(Some(s))
    case Some(_) => Err(IllTyped(key))
  }

  /** The four options in the order the hydrator sets them: timeout, comment, version, start. */
  function HydrateOptions(m: MachineValue, data: seq<Member>): (r: Effect<MachineValue>)
    ensures r.state.states == m.states
    ensures r.thrown.None? <==> TextStep(m.comment, data, "Comment").Ok? && TextStep(m.version, data, "Version").Ok?
                                && TextStep(m.start, data, "StartAt").Ok?
    ensures r.thrown.None? ==> r.state == MachineValue(TextStep(m.comment, data, "Comment").value,
                                                      TimeoutStep(m.timeout, data),
                                                      TextStep(m.version, data, "Version").value,
                                                      TextStep(m.start, data, "StartAt").value, m.states)
  {
    var m1 := m.(timeout := TimeoutStep(m.timeout, data));
    match TextStep(m1.comment, data, "Comment")
    case Err(e) => Effect(m1, Some(e))
    case Ok(comment) =>
      var m2 := m1.(comment := comment);
      match TextStep(m2.version, data, "Version")
      case Err(e) => Effect(m2, Some(e))
      case Ok(version) =>
        var m3 := m2.(version := version);
        match TextStep(m3.start, data, "StartAt")
        case Err(e) => Effect(m3, Some(e))
        case Ok(start) => Effect(m3.(start := start), None)
  }

  /**
   * `StateMachineHydrator.hydrate`: the options, then the states of
   * `data.States` in the order `Object.keys` lists them (array-index names
   * first); `Object.keys` of a missing `States` throws. A throw leaves what
   * was done before it.
   */
  function HydrateMachineValue(st: Indexed, data: Json): (r: Effect<Indexed>)
    ensures data.JNull? ==> r == Effect(st, Some(UndefinedAccess("TimeoutSeconds")))
    ensures !data.JObj? && !data.JNull? ==> r == Effect(st, Some(UndefinedAccess("States")))
    ensures data.JObj? && HydrateOptions(st.machine, data.members).thrown.None? ==>
              match Lookup(data.members, "States")
              case Some(JObj(states)) =>
                r == AddStatesValue(Indexed(HydrateOptions(st.machine, data.members).state, st.index), HydratedStates(Enumerated(states)), 0)
              case Some(JNull) => r.thrown == Some(UndefinedAccess("States"))
              case None => r.thrown == Some(UndefinedAccess("States"))
              case Some(_) => r.thrown == Some(IllTyped("States"))
  {
    match data
    case JNull => Effect(st, Some(UndefinedAccess("TimeoutSeconds")))
    case JObj(ms) =>
      var options := HydrateOptions(st.machine, ms);
      var st1 := Indexed(options.state, st.index);
      if options.thrown.Some? then Effect(st1, options.thrown)
      else
        (match Lookup(ms, "States")
         case Some(JObj(states)) => AddStatesValue(st1, HydratedStates(Enumerated(states)), 0)
         case Some(JNull) => Effect(st1, Some(UndefinedAccess("States")))
         case None => Effect(st1, Some(UndefinedAccess("States")))
         case Some(_) => Effect(st1, Some(IllTyped("States"))))
    case _ => Effect(st, Some(UndefinedAccess("States")))
  }

  /** Hydrating keeps the index exact, whether it throws or not. */
  lemma HydrateKeepsIndex(st: Indexed, data: Json)
    requires IndexedValid(st)
    ensures IndexedValid(HydrateMachineValue(st, data).state)
  {
    if data.JObj? {
      var options := HydrateOptions(st.machine, data.members);
      var st1 := Indexed(options.state, st.index);
      assert StateNames(st1.machine.states) == StateNames(st.machine.states);
      if options.thrown.None? {
        match Lookup(data.members, "States")
        case Some(JObj(states)) => AddStatesKeepsIndex(st1, HydratedStates(Enumerated(states)), 0);
        case _ =>
      }
    }
  }

  // ----- round trip -----

  /** No two states share a name, as in a machine whose every `addState` succeeded. */
  predicate DistinctNames(vs: seq<StateValue>)
  {
    forall i, j :: 0 <= i < j < |vs| ==> vs[i].name != vs[j].name
  }

  /** One step of the states' extract: the first state is written under its name. */
  lemma ExtractStatesStep(acc: seq<Member>, vs: seq<StateValue>)
    requires vs != [] && ExtractStates(acc, vs).Ok?
    ensures ExtractState(vs[0]).Ok?
    ensures ExtractStates(acc, vs) == ExtractStates(Put(acc, vs[0].name, JObj(ExtractState(vs[0]).value)), vs[1..])
  {
  }

  /** Writing the first of distinctly named states, whose names are all new, keeps the rest new and distinct. */
  lemma PutFirstName(acc: seq<Member>, vs: seq<StateValue>, v: Json)
    requires vs != [] && DistinctNames(vs)
    requires forall k :: 0 <= k < |vs| ==> vs[k].name !in Keys(acc)
    ensures Keys(Put(acc, vs[0].name, v)) == Keys(acc) + [vs[0].name]
    ensures DistinctNames(vs[1..])
    ensures forall k :: 0 <= k < |vs[1..]| ==> vs[1..][k].name !in Keys(Put(acc, vs[0].name, v))
  {
    forall i | 0 <= i < |acc| ensures acc[i].0 != vs[0].name {
      KeysAt(acc, i);
    }
    AbsentKey(acc, vs[0].name);
    KeysAppend(acc, (vs[0].name, v));
    forall a, b | 0 <= a < b < |vs[1..]| ensures vs[1..][a].name != vs[1..][b].name {
      assert vs[1..][a] == vs[a + 1] && vs[1..][b] == vs[b + 1];
    }
    forall k | 0 <= k < |vs[1..]| ensures vs[1..][k].name !in Keys(Put(acc, vs[0].name, v)) {
      assert vs[1..][k] == vs[k + 1];
    }
  }

  /** States with distinct names are written under their names, in order, one key each. */
  lemma {:induction false} ExtractedKeys(acc: seq<Member>, vs: seq<StateValue>)
    requires ExtractStates(acc, vs).Ok? && DistinctNames(vs)
    requires forall k :: 0 <= k < |vs| ==> vs[k].name !in Keys(acc)
    ensures Keys(ExtractStates(acc, vs).value) == Keys(acc) + StateNames(vs)
    decreases |vs|
  {
    if vs == [] {
      assert Keys(acc) + StateNames(vs) == Keys(acc);
    } else {
      ExtractStatesStep(acc, vs);
      var v := JObj(ExtractState(vs[0]).value);
      PutFirstName(acc, vs, v);
      ExtractedKeys(Put(acc, vs[0].name, v), vs[1..]);
      StateNamesCons(vs);
      ConcatAssoc(Keys(acc), [vs[0].name], StateNames(vs[1..]));
    }
  }

  lemma StateNamesCons(vs: seq<StateValue>)
    requires vs != []
    ensures StateNames(vs) == [vs[0].name] + StateNames(vs[1..])
  {
  }

  /** A machine with no options, no start, no state and an empty index, as `new StateMachine({})` makes it. */
  const EmptyMachine := Indexed(MachineValue(None, None, None, None, []), map[])

  /** The optional members of a machine's extract: Comment, TimeoutSeconds and Version when truthy. */
  function OptionMembers(m: MachineValue): (r: seq<Member>)
    ensures Lookup(r, "StartAt") == None && Lookup(r, "States") == None
  {
    var c := if PresentText(m.comment) then [("Comment", JStr(m.comment.value))] else [];
    var t := if PresentNumber(m.timeout) then [("TimeoutSeconds", JNum(m.timeout.value))] else [];
    var v := if PresentText(m.version) then [("Version", JStr(m.version.value))] else [];
    LookupConcat(c + t, v, "StartAt");
    LookupConcat(c, t, "StartAt");
    LookupConcat(c + t, v, "States");
    LookupConcat(c, t, "States");
    c + t + v
  }

  /** The options as the extract writes them. */
  lemma OptionLookups(m: MachineValue)
    ensures Lookup(OptionMembers(m), "Comment") == if PresentText(m.comment) then Some(JStr(m.comment.value)) else None
    ensures Lookup(OptionMembers(m), "TimeoutSeconds") == if PresentNumber(m.timeout) then Some(JNum(m.timeout.value)) else None
    ensures Lookup(OptionMembers(m), "Version") == if PresentText(m.version) then Some(JStr(m.version.value)) else None
  {
    var c := if PresentText(m.comment) then [("Comment", JStr(m.comment.value))] else [];
    var t := if PresentNumber(m.timeout) then [("TimeoutSeconds", JNum(m.timeout.value))] else [];
    var v := if PresentText(m.version) then [("Version", JStr(m.version.value))] else [];
    assert OptionMembers(m) == (c + t) + v;
    LookupConcat(c + t, v, "Comment");
    LookupConcat(c, t, "Comment");
    LookupConcat(c + t, v, "TimeoutSeconds");
    LookupConcat(c, t, "TimeoutSeconds");
    LookupConcat(c + t, v, "Version");
    LookupConcat(c, t, "Version");
  }

  /** A text option written only when truthy is read back as the option with an empty text dropped. */
  lemma TextRead(data: seq<Member>, key: string, s: Option<string>)
    requires Lookup(data, key) == if PresentText(s) then Some(JStr(s.value)) else None
    ensures TextStep(None, data, key) == Ok(TextOrNull(s))
  {
  }

  /** StartAt, written as a string or null, is read back with an empty name dropped. */
  lemma StartRead(data: seq<Member>, s: Option<string>)
    requires Lookup(data, "StartAt") == Some(if s.Some? then JStr(s.value) else JNull)
    ensures TextStep(None, data, "StartAt") == Ok(TextOrNull(s))
  {
  }

  /** What the hydrator reads from the option keys and the States key of an extracted machine. */
  lemma ExtractedOptions(m: MachineValue, states: seq<Member>)
    ensures var obj := [("StartAt", if m.start.Some? then JStr(m.start.value) else JNull), ("States", JObj(states))]
                       + OptionMembers(m);
            TextStep(None, obj, "Comment") == Ok(TextOrNull(m.comment))
            && TimeoutStep(None, obj) == NumberOrNull(m.timeout)
            && TextStep(None, obj, "Version") == Ok(TextOrNull(m.version))
            && TextStep(None, obj, "StartAt") == Ok(TextOrNull(m.start))
            && Lookup(obj, "States") == Some(JObj(states))
  {
    var head := [("StartAt", if m.start.Some? then JStr(m.start.value) else JNull), ("States", JObj(states))];
    var obj := head + OptionMembers(m);
    OptionLookups(m);
    assert Lookup(head, "Comment") == Lookup(head[1..], "Comment") == None;
    assert Lookup(head, "TimeoutSeconds") == Lookup(head[1..], "TimeoutSeconds") == None;
    assert Lookup(head, "Version") == Lookup(head[1..], "Version") == None;
    assert Lookup(head, "States") == Lookup(head[1..], "States") == Some(JObj(states));
    LookupConcat(head, OptionMembers(m), "Comment");
    LookupConcat(head, OptionMembers(m), "TimeoutSeconds");
    LookupConcat(head, OptionMembers(m), "Version");
    LookupConcat(head, OptionMembers(m), "StartAt");
    LookupConcat(head, OptionMembers(m), "States");
    TextRead(obj, "Comment", m.comment);
    TextRead(obj, "Version", m.version);
    StartRead(obj, m.start);
  }

  /** The options of an extracted machine hydrate back into an empty one without a throw. */
  lemma ExtractedMachineOptions(m: MachineValue)
    requires ExtractMachine(m).Ok?
    ensures HydrateOptions(EmptyMachine.machine, ExtractMachine(m).value)
            == Effect(MachineValue(TextOrNull(m.comment), NumberOrNull(m.timeout), TextOrNull(m.version),
                                   TextOrNull(m.start), []), None)
    ensures Lookup(ExtractMachine(m).value, "States") == Some(JObj(ExtractStates([], m.states).value))
  {
    var states := ExtractStates([], m.states).value;
    assert ExtractMachine(m).value
           == [("StartAt", if m.start.Some? then JStr(m.start.value) else JNull), ("States", JObj(states))]
              + OptionMembers(m);
    ExtractedOptions(m, states);
  }

  /**
   * Round trip: hydrating a fresh machine from the extract of a machine
   * whose states have distinct names, when no state throws, gives back its
   * options (those that were truthy), the names of its states in the order
   * `Object.keys` lists them, and its start; a machine without a (truthy)
   * start comes back starting at the first name listed.
   * `MachineHydratesExtract` says when nothing throws.
   */
  lemma MachineRoundTrip(m: MachineValue)
    requires ExtractMachine(m).Ok? && DistinctNames(m.states)
    ensures var r := HydrateMachineValue(EmptyMachine, JObj(ExtractMachine(m).value));
            var names := EnumerationOrder(StateNames(m.states));
            r.thrown.None? ==>
              r.state.machine.comment == TextOrNull(m.comment) && r.state.machine.timeout == NumberOrNull(m.timeout)
              && r.state.machine.version == TextOrNull(m.version)
              && StateNames(r.state.machine.states) == names
              && (PresentText(m.start) ==> r.state.machine.start == m.start)
              && (!PresentText(m.start) && m.states != [] ==> r.state.machine.start == Some(names[0]))
  {
    var states := ExtractStates([], m.states).value;
    ExtractedKeys([], m.states);
    assert Keys(states) == StateNames(m.states) by {
      assert Keys([]) + StateNames(m.states) == StateNames(m.states);
    }
    ExtractHydratesAsWalk(m);
    var st := ExtractedOptionsState(m);
    WalkInListedOrder(st, states);
    assert StateNames(st.machine.states) + EnumerationOrder(Keys(states)) == EnumerationOrder(Keys(states));
  }

  /** The options a fresh machine takes from the extract of `m`, with no state yet. */
  function ExtractedOptionsState(m: MachineValue): (st: Indexed)
    ensures st.machine.states == [] && st.index == map[]
    ensures PresentText(m.start) ==> st.machine.start == m.start
    ensures !PresentText(m.start) ==> st.machine.start.None?
  {
    Indexed(MachineValue(TextOrNull(m.comment), NumberOrNull(m.timeout), TextOrNull(m.version), TextOrNull(m.start), []), map[])
  }

  /** Hydrating a fresh machine from an extract sets the options, then walks the extracted states as `Object.keys` lists them. */
  lemma ExtractHydratesAsWalk(m: MachineValue)
    requires ExtractMachine(m).Ok?
    ensures HydrateMachineValue(EmptyMachine, JObj(ExtractMachine(m).value))
            == AddStatesValue(ExtractedOptionsState(m), HydratedStates(Enumerated(ExtractStates([], m.states).value)), 0)
  {
    var obj := ExtractMachine(m).value;
    ExtractedMachineOptions(m);
    HydrateWithStates(EmptyMachine, obj, ExtractStates([], m.states).value);
  }

  /** Options that do not throw, then the walk over the members of an object `States`. */
  lemma HydrateWithStates(st: Indexed, data: seq<Member>, states: seq<Member>)
    requires HydrateOptions(st.machine, data).thrown.None? && Lookup(data, "States") == Some(JObj(states))
    ensures HydrateMachineValue(st, JObj(data))
            == AddStatesValue(Indexed(HydrateOptions(st.machine, data).state, st.index), HydratedStates(Enumerated(states)), 0)
  {
  }

  /**
   * A walk over the members of `States` as `Object.keys` lists them that
   * does not throw adds their names in that order, and without a start
   * beforehand starts at the first name listed.
   */
  lemma WalkInListedOrder(st: Indexed, states: seq<Member>)
    ensures var r := AddStatesValue(st, HydratedStates(Enumerated(states)), 0);
            var names := EnumerationOrder(Keys(states));
            r.thrown.None? ==>
              StateNames(r.state.machine.states) == StateNames(st.machine.states) + names
              && (st.machine.start.None? && states != [] ==> r.state.machine.start == Some(names[0]))
  {
    var listed := Enumerated(states);
    var hydrated := HydratedStates(listed);
    AddedStatesNamed(st, listed);
    EnumeratedKeys(states);
    if AddStatesValue(st, hydrated, 0).thrown.None? && st.machine.start.None? && states != [] {
      FirstAddedStarts(st, hydrated, 0);
      KeysAt(listed, 0);
    }
  }

  /**
   * When the round trip succeeds: hydrating a fresh machine from the extract
   * of a machine with distinctly named states does not throw as long as
   * each member written under `States` hydrates on its own.
   */
  lemma MachineHydratesExtract(m: MachineValue)
    requires ExtractMachine(m).Ok? && DistinctNames(m.states)
    requires var states := ExtractStates([], m.states).value;
             forall k :: 0 <= k < |states| ==> HydrateStateValue(states[k].0, states[k].1).Ok?
    ensures HydrateMachineValue(EmptyMachine, JObj(ExtractMachine(m).value)).thrown.None?
  {
    var states := ExtractStates([], m.states).value;
    ExtractedKeysDistinct(m.states);
    ListedStatesHydrate(states);
    AddStatesNoThrow(ExtractedOptionsState(m), HydratedStates(Enumerated(states)), 0);
    ExtractHydratesAsWalk(m);
  }

  /** Distinctly named states are written under distinct keys. */
  lemma ExtractedKeysDistinct(vs: seq<StateValue>)
    requires ExtractStates([], vs).Ok? && DistinctNames(vs)
    ensures DistinctKeys(ExtractStates([], vs).value)
  {
    var states := ExtractStates([], vs).value;
    ExtractedKeys([], vs);
    assert Keys([]) + StateNames(vs) == StateNames(vs);
    KeysNamed(states, vs);
  }

  /** Members whose keys are the names of distinctly named states have distinct keys. */
  lemma KeysNamed(states: seq<Member>, vs: seq<StateValue>)
    requires Keys(states) == StateNames(vs) && DistinctNames(vs)
    ensures DistinctKeys(states)
  {
    forall i, j | 0 <= i < j < |states| ensures states[i].0 != states[j].0 {
      KeysAt(states, i);
      KeysAt(states, j);
    }
  }

  /**
   * Members with distinct keys, each of which hydrates, hydrate as
   * `Object.keys` lists them without a throw and under distinct names.
   */
  lemma ListedStatesHydrate(states: seq<Member>)
    requires DistinctKeys(states)
    requires forall k :: 0 <= k < |states| ==> HydrateStateValue(states[k].0, states[k].1).Ok?
    ensures var hydrated := HydratedStates(Enumerated(states));
            (forall k :: 0 <= k < |hydrated| ==> hydrated[k].Ok?)
            && forall a, b :: 0 <= a < b < |hydrated| ==> hydrated[a].value.name != hydrated[b].value.name
  {
    var listed := Enumerated(states);
    var order := KeyOrder(Keys(states));
    forall k | 0 <= k < |listed| ensures HydratedStates(listed)[k].Ok? {
      assert listed[k] == states[order[k]];
    }
    EnumeratedDistinct(states);
  }

  /** A walk over states that all hydrate, under distinct names none of which is indexed yet, does not throw. */
  lemma {:induction false} AddStatesNoThrow(st: Indexed, hydrated: seq<Result<StateValue>>, i: nat)
    requires i <= |hydrated|
    requires forall k :: i <= k < |hydrated| ==> hydrated[k].Ok? && hydrated[k].value.name !in st.index
    requires forall a, b :: i <= a < b < |hydrated| && hydrated[a].Ok? && hydrated[b].Ok? ==>
               hydrated[a].value.name != hydrated[b].value.name
    ensures AddStatesValue(st, hydrated, i).thrown.None?
    decreases |hydrated| - i
  {
    if i < |hydrated| {
      var added := AddStateValue(st, hydrated[i].value);
      AddStatesNoThrow(added.state, hydrated, i + 1);
    }
  }

  /**
   * When no state name is an array index, `Object.keys` lists the states as
   * they were added: the round trip gives back the names in their order, and
   * a machine without a (truthy) start starts at its first state.
   */
  lemma MachineRoundTripInOrder(m: MachineValue)
    requires ExtractMachine(m).Ok? && DistinctNames(m.states)
    requires forall k :: 0 <= k < |m.states| ==> !IsArrayIndex(m.states[k].name)
    ensures var r := HydrateMachineValue(EmptyMachine, JObj(ExtractMachine(m).value));
            r.thrown.None? ==>
              StateNames(r.state.machine.states) == StateNames(m.states)
              && (!PresentText(m.start) && m.states != [] ==> r.state.machine.start == Some(m.states[0].name))
  {
    MachineRoundTrip(m);
    PlainKeysInOrder(StateNames(m.states));
  }

  /**
   * `setStartState` runs before any `addState`, so a truthy string StartAt
   * is the start of a hydrated machine whatever the order of the keys of
   * States, and even when it names no state at all.
   */
  lemma StartAtWins(st: Indexed, data: seq<Member>, s: string)
    requires TruthyAt(data, "StartAt") == Some(JStr(s))
    ensures var r := HydrateMachineValue(st, JObj(data));
            r.thrown.None? ==> r.state.machine.start == Some(s)
  {
  }

  // ----- the machine object -----

  /** The machine's options alone, as a snapshot without states. */
  function OptionsOf(m: StateMachine): (v: MachineValue)
    reads m
    ensures v.states == []
  {
    MachineValue(m.comment, m.timeout, m.version, m.start, [])
  }

  /** The four `if (data.X) instance.setX(...)` steps on the machine object. */
  method HydrateMachineOptions(m: StateMachine, data: seq<Member>) returns (thrown: Option<Failure>)
    modifies m
    ensures m.states == old(m.states) && m.index == old(m.index)
    ensures Effect(OptionsOf(m), thrown) == HydrateOptions(old(OptionsOf(m)), data)
  {
    var timeout := TruthyAt(data, "TimeoutSeconds");
    if timeout.Some? {
      var n := ParseInt(timeout.value);
      if n.Some? {
        m.SetTimeout(n.value);
      } else {
        m.SetTimeoutNotANumber();
      }
    }
    var comment := TruthyAt(data, "Comment");
    if comment.Some? {
      if !comment.value.JStr? {
        return Some(IllTyped("Comment"));
      }
      m.SetComment(comment.value.s);
    }
    var version := TruthyAt(data, "Version");
    if version.Some? {
      if !version.value.JStr? {
        return Some(IllTyped("Version"));
      }
      m.SetVersion(version.value.s);
    }
    var start := TruthyAt(data, "StartAt");
    if start.Some? {
      if !start.value.JStr? {
        return Some(IllTyped("StartAt"));
      }
      m.SetStartState(start.value.s);
    }
    return None;
  }

  /**
   * The machine object agrees with a snapshot on everything the machine
   * itself holds: its options and start, its name index and the names of
   * its states, in order.
   */
  ghost predicate Mirrors(m: StateMachine, st: Indexed)
    reads m
  {
    OptionsOf(m) == st.machine.(states := []) && m.index == st.index
    && Names(m.states) == StateNames(st.machine.states)
  }

  /** A machine mirrors its own snapshot. */
  lemma MirrorsValue(m: StateMachine)
    ensures Mirrors(m, Indexed(m.Value(), m.index))
  {
    assert Names(m.states) == StateNames(StatesValues(m.states));
  }

  /** The options steps read no state: they act on a snapshot as on its options alone. */
  lemma OptionsIgnoreStates(v: MachineValue, data: seq<Member>)
    ensures var bare := HydrateOptions(v.(states := []), data);
            HydrateOptions(v, data) == Effect(bare.state.(states := v.states), bare.thrown)
  {
  }

  lemma StateNamesSnoc(vs: seq<StateValue>, v: StateValue)
    ensures StateNames(vs + [v]) == StateNames(vs) + [v.name]
  {
  }

  /** One `instance.addState(state)` on the machine object, against `AddStateValue` on its mirror. */
  method AddStateTo(m: StateMachine, s: StateRef, ghost cur: Indexed) returns (thrown: Option<Failure>, ghost next: Indexed)
    requires m.Valid() && Mirrors(m, cur)
    modifies m
    ensures m.Valid() && Mirrors(m, next)
    ensures Effect(next, thrown) == AddStateValue(cur, old(s.Value()))
    ensures m.states == old(m.states) + [s]
  {
    ghost var v := s.Value();
    NamesSnoc(m.states, s);
    thrown := m.AddState(s);
    next := AddStateValue(cur, v).state;
    StateNamesSnoc(cur.machine.states, v);
  }

  /** One key of `States` on a snapshot: a throw of `hydrateState` stops there, a state is added. */
  function AddStep(st: Indexed, h: Result<StateValue>): (r: Effect<Indexed>)
    ensures h.Err? ==> r == Effect(st, Some(h.error))
  {
    match h
    case Err(e) => Effect(st, Some(e))
    case Ok(v) => AddStateValue(st, v)
  }

  /** The walk over the keys is one step after another. */
  lemma AddStatesStep(st: Indexed, hydrated: seq<Result<StateValue>>, i: nat)
    requires i < |hydrated|
    ensures var a := AddStep(st, hydrated[i]);
            AddStatesValue(st, hydrated, i) == if a.thrown.Some? then a else AddStatesValue(a.state, hydrated, i + 1)
  {
  }

  /** `instance.addState(this.manager.hydrateState(stateName, stateData))` on the machine object. */
  method HydrateAndAdd(m: StateMachine, key: string, data: Json, ghost h: Result<StateValue>, ghost cur: Indexed)
      returns (thrown: Option<Failure>, ghost next: Indexed)
    requires h == HydrateStateValue(key, data)
    requires m.Valid() && Mirrors(m, cur)
    modifies m
    ensures m.Valid() && Mirrors(m, next)
    ensures Effect(next, thrown) == AddStep(cur, h)
  {
    var s := HydrateState(key, data);
    if s.Err? {
      return Some(s.error), cur;
    }
    thrown, next := AddStateTo(m, s.value, cur);
  }

  /** Key `i` of `States` on the machine object, as one step of `AddStatesValue`. */
  method AddKey(m: StateMachine, states: seq<Member>, ghost hydrated: seq<Result<StateValue>>, i: nat, ghost cur: Indexed)
      returns (thrown: Option<Failure>, ghost next: Indexed)
    requires i < |states| == |hydrated|
    requires hydrated[i] == HydrateStateValue(states[i].0, states[i].1)
    requires m.Valid() && Mirrors(m, cur)
    modifies m
    ensures m.Valid() && Mirrors(m, next)
    ensures thrown.Some? ==> AddStatesValue(cur, hydrated, i) == Effect(next, thrown)
    ensures thrown.None? ==> AddStatesValue(cur, hydrated, i) == AddStatesValue(next, hydrated, i + 1)
  {
    thrown, next := HydrateAndAdd(m, states[i].0, states[i].1, hydrated[i], cur);
    AddStatesStep(cur, hydrated, i);
  }

  /**
   * The `forEach` over the keys of `States` on the machine object: each
   * state through `hydrateState` and then `addState`, stopping at the first
   * throw; proved against `AddStatesValue` on the machine's mirror.
   */
  method AddHydratedStates(m: StateMachine, states: seq<Member>, ghost hydrated: seq<Result<StateValue>>, ghost st: Indexed)
      returns (thrown: Option<Failure>, ghost out: Indexed)
    requires |hydrated| == |states|
    requires forall k :: 0 <= k < |states| ==> hydrated[k] == HydrateStateValue(states[k].0, states[k].1)
    requires m.Valid() && Mirrors(m, st)
    modifies m
    ensures m.Valid() && Mirrors(m, out)
    ensures Effect(out, thrown) == AddStatesValue(st, hydrated, 0)
  {
    ghost var cur := st;
    var i := 0;
    while i < |states|
      invariant 0 <= i <= |states|
      invariant m.Valid() && Mirrors(m, cur)
      invariant AddStatesValue(st, hydrated, 0) == AddStatesValue(cur, hydrated, i)
    {
      thrown, out := AddKey(m, states, hydrated, i, cur);
      if thrown.Some? {
        return;
      }
      cur := out;
      i := i + 1;
    }
    return None, cur;
  }

  /**
   * `StateMachineHydrator.hydrate` on the machine object: the options, then
   * every key of `States` as `Object.keys` lists them. The machine ends as the snapshot function says,
   * in its options, start, index and state names.
   */
  method HydrateMachine(m: StateMachine, data: Json) returns (thrown: Option<Failure>)
    requires m.Valid()
    modifies m
    ensures m.Valid()
    ensures var r := HydrateMachineValue(old(Indexed(m.Value(), m.index)), data);
            thrown == r.thrown && Mirrors(m, r.state)
  {
    ghost var st := Indexed(m.Value(), m.index);
    MirrorsValue(m);
    if data.JNull? {
      return Some(UndefinedAccess("TimeoutSeconds"));
    }
    if !data.JObj? {
      return Some(UndefinedAccess("States"));
    }
    OptionsIgnoreStates(st.machine, data.members);
    thrown := HydrateMachineOptions(m, data.members);
    ghost var st1 := Indexed(HydrateOptions(st.machine, data.members).state, st.index);
    assert Mirrors(m, st1);
    if thrown.Some? {
      return;
    }
    var list := Lookup(data.members, "States");
    if list.None? || list == Some(JNull) {
      return Some(UndefinedAccess("States"));
    }
    if !list.value.JObj? {
      return Some(IllTyped("States"));
    }
    var listed := Enumerated(list.value.members);
    HydrateWithStates(st, data.members, list.value.members);
    ghost var out;
    thrown, out := AddHydratedStates(m, listed, HydratedStates(listed), st1);
  }
}
