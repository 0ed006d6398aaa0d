/** `statesAutolink` (src/helpers.ts): chains the states of a machine in insertion order. */
module Helpers {
  import opened Wrappers
  import opened Failures
  import opened NextFields
  import opened StateValues
  import opened StateRefs
  import opened StateMachines
  import opened TaskStates
  import opened ParallelStates
  import opened PathFields
  import opened ResultPathFields
  import opened ResultFields

  /** A state whose next field, if it has one, accepts both `set` and `end` (every state class builds it so). */
  predicate Linkable(v: StateValue)
  {
    HasNext(v.body) ==> !v.body.next.locked && !v.body.next.endForbidden
  }

  predicate AllLinkable(vs: seq<StateValue>)
  {
    forall i :: 0 <= i < |vs| ==> Linkable(vs[i])
  }

  /** The loop's step on the previous state: an unconfigured next field is pointed at `target`. */
  function Link(v: StateValue, target: string): (r: StateValue)
    requires Linkable(v)
  {
    if HasNext(v.body) && !v.body.next.configured then WithNext(v, SetTarget(v.body.next, target).value) else v
  }

  /** The final step on the last state: an unconfigured next field is made terminal. */
  function Terminate(v: StateValue): (r: StateValue)
    requires Linkable(v)
  {
    if HasNext(v.body) && !v.body.next.configured then WithNext(v, MarkEnd(v.body.next).value) else v
  }

  /** The states after `statesAutolink`: each one linked to its successor, the last one terminated. */
  function Autolinked(vs: seq<StateValue>): (r: seq<StateValue>)
    requires AllLinkable(vs)
    ensures |r| == |vs|
  {
    seq(|vs|, j requires 0 <= j < |vs| => if j + 1 < |vs| then Link(vs[j], vs[j + 1].name) else Terminate(vs[j]))
  }

  /** Linking keeps the name, the kind and the ability to link, and leaves the next field configured. */
  lemma LinkShape(v: StateValue, target: string)
    requires Linkable(v)
    ensures Linkable(Link(v, target)) && Linkable(Terminate(v))
    ensures Link(v, target).name == v.name && Terminate(v).name == v.name
    ensures KindOf(Link(v, target).body) == KindOf(v.body) && KindOf(Terminate(v).body) == KindOf(v.body)
    ensures HasNext(v.body) ==> Link(v, target).body.next.configured && Terminate(v).body.next.configured
  {
  }

  /** Each state is linked to the state after it, the last one made terminal; a configured transition is never touched. */
  lemma {:induction false} AutolinkChains(vs: seq<StateValue>, i: nat)
    requires AllLinkable(vs) && i < |vs| && HasNext(vs[i].body)
    ensures vs[i].body.next.configured ==> Autolinked(vs)[i] == vs[i]
    ensures !vs[i].body.next.configured && i + 1 < |vs| ==>
              Autolinked(vs)[i].body.next.target == Some(vs[i + 1].name) && !Autolinked(vs)[i].body.next.isEnd
    ensures !vs[i].body.next.configured && i + 1 == |vs| ==>
              Autolinked(vs)[i].body.next.isEnd && Autolinked(vs)[i].body.next.target == vs[i].body.next.target
    ensures Autolinked(vs)[i].body.next.configured
  {
  }

  /** States without a transition (Succeed, Fail, Choice) come out unchanged. */
  lemma AutolinkSkipsTerminalKinds(vs: seq<StateValue>, i: nat)
    requires AllLinkable(vs) && i < |vs| && !HasNext(vs[i].body)
    ensures Autolinked(vs)[i] == vs[i]
  {
  }

  /** Running the helper twice changes nothing more: every transition is configured after the first run. */
  lemma AutolinkIdempotent(vs: seq<StateValue>)
    requires AllLinkable(vs)
    ensures AllLinkable(Autolinked(vs))
    ensures Autolinked(Autolinked(vs)) == Autolinked(vs)
  {
    var r := Autolinked(vs);
    forall j | 0 <= j < |vs|
      ensures Linkable(r[j]) && r[j].name == vs[j].name
      ensures HasNext(r[j].body) ==> r[j].body.next.configured
    {
      if j + 1 < |vs| {
        LinkShape(vs[j], vs[j + 1].name);
      } else {
        LinkShape(vs[j], "");
      }
    }
    assert Autolinked(r) == r;
  }

  /** A machine holding one fresh Pass state validates clean once the helper has run. */
  lemma AutolinkedPassValidates(name: string, m: MachineValue)
    requires m.states == [FreshState(PassKind, name)]
    ensures AllLinkable(m.states)
    ensures ValidateMachine(m.(states := Autolinked(m.states))) == []
  {
    var linked := Autolinked(m.states);
    var v := linked[0];
    assert v.body == PassBody(FreshPath, FreshResultPath, FreshResult, FreshNext(name, false, false).(isEnd := true, configured := true));
    FieldErrorsCons(NextF(v.body.next), []);
    FieldErrorsCons(ResultF(FreshResult), [NextF(v.body.next)]);
    FieldErrorsCons(ResultPathF(FreshResultPath), [ResultF(FreshResult), NextF(v.body.next)]);
    FieldErrorsCons(PathF(FreshPath), [ResultPathF(FreshResultPath), ResultF(FreshResult), NextF(v.body.next)]);
    assert FieldsOf(v.body)
           == [PathF(FreshPath)] + [ResultPathF(FreshResultPath), ResultF(FreshResult), NextF(v.body.next)];
  }

  /** The next fields of some states (`None` for a kind without one) and their names. */
  function NextsOf(vs: seq<StateValue>): (ns: seq<Option<NextValue>>)
    ensures |ns| == |vs|
  {
    seq(|vs|, j requires 0 <= j < |vs| => if HasNext(vs[j].body) then Some(vs[j].body.next) else None)
  }

  function NamesOf(vs: seq<StateValue>): (names: seq<string>)
    ensures |names| == |vs|
  {
    seq(|vs|, j requires 0 <= j < |vs| => vs[j].name)
  }

  /** A next field that accepts `set` and `end`. */
  predicate NextLinkable(n: Option<NextValue>)
  {
    n.Some? ==> !n.value.locked && !n.value.endForbidden
  }

  predicate AllNextLinkable(ns: seq<Option<NextValue>>)
  {
    forall j :: 0 <= j < |ns| ==> NextLinkable(ns[j])
  }

  /** One step of the helper on a next field alone: an unconfigured field is pointed at `target`. */
  function LinkNext(n: NextValue, target: string): NextValue
    requires !n.locked
  {
    if n.configured then n else SetTarget(n, target).value
  }

  /** The last step on a next field alone: an unconfigured field is made terminal. */
  function EndNext(n: NextValue): NextValue
    requires !n.locked && !n.endForbidden
  {
    if n.configured then n else MarkEnd(n).value
  }

  /** The next fields while the loop runs: those before position `i - 1` are linked to their successor's name. */
  function NextsLinkedBefore(ns: seq<Option<NextValue>>, names: seq<string>, i: nat): (r: seq<Option<NextValue>>)
    requires |names| == |ns| && i <= |ns| && AllNextLinkable(ns)
    ensures |r| == |ns|
  {
    seq(|ns|, j requires 0 <= j < |ns| =>
      if ns[j].Some? && j + 1 < i then Some(LinkNext(ns[j].value, names[j + 1])) else ns[j])
  }

  /** The next fields after the helper: all linked to their successor's name, the last one ended. */
  function NextsAutolinked(ns: seq<Option<NextValue>>, names: seq<string>): (r: seq<Option<NextValue>>)
    requires |names| == |ns| && AllNextLinkable(ns)
    ensures |r| == |ns|
  {
    seq(|ns|, j requires 0 <= j < |ns| =>
      if ns[j].None? then None
      else if j + 1 < |ns| then Some(LinkNext(ns[j].value, names[j + 1]))
      else Some(EndNext(ns[j].value)))
  }

  lemma NextsOfLinkable(vs: seq<StateValue>)
    requires AllLinkable(vs)
    ensures AllNextLinkable(NextsOf(vs))
  {
  }

  /**
   * The helper's whole effect on a state is a change of its next field: the
   * autolinked state is the old state with the next field `NextsAutolinked`
   * computes from the next fields and names alone.
   */
  lemma AutolinkIsNextChange(vs: seq<StateValue>, j: nat)
    requires AllLinkable(vs) && j < |vs|
    ensures AllNextLinkable(NextsOf(vs))
    ensures HasNext(vs[j].body) ==>
              Autolinked(vs)[j] == WithNext(vs[j], NextsAutolinked(NextsOf(vs), NamesOf(vs))[j].value)
    ensures !HasNext(vs[j].body) ==> Autolinked(vs)[j] == vs[j]
  {
    NextsOfLinkable(vs);
    if HasNext(vs[j].body) && vs[j].body.next.configured {
      assert WithNext(vs[j], vs[j].body.next) == vs[j];
    }
  }

  /** One pass of the loop: position `i - 1` is linked, if it has a next field. */
  lemma LinkStep(ns: seq<Option<NextValue>>, names: seq<string>, i: nat)
    requires |names| == |ns| && i < |ns| && AllNextLinkable(ns)
    ensures i > 0 && ns[i - 1].Some? ==>
              NextsLinkedBefore(ns, names, i + 1)
              == NextsLinkedBefore(ns, names, i)[i - 1 := Some(LinkNext(ns[i - 1].value, names[i]))]
    ensures !(i > 0 && ns[i - 1].Some?) ==> NextsLinkedBefore(ns, names, i + 1) == NextsLinkedBefore(ns, names, i)
    ensures NextsLinkedBefore(ns, names, i)[i] == ns[i]
    ensures i > 0 ==> NextsLinkedBefore(ns, names, i)[i - 1] == ns[i - 1]
  {
  }

  /** After the loop only the last position is left, and it is ended. */
  lemma TerminateStep(ns: seq<Option<NextValue>>, names: seq<string>)
    requires |names| == |ns| && AllNextLinkable(ns)
    ensures |ns| > 0 && ns[|ns| - 1].Some? ==>
              NextsAutolinked(ns, names)
              == NextsLinkedBefore(ns, names, |ns|)[|ns| - 1 := Some(EndNext(ns[|ns| - 1].value))]
    ensures !(|ns| > 0 && ns[|ns| - 1].Some?) ==> NextsAutolinked(ns, names) == NextsLinkedBefore(ns, names, |ns|)
    ensures |ns| > 0 ==> NextsLinkedBefore(ns, names, |ns|)[|ns| - 1] == ns[|ns| - 1]
  {
  }

  /** The next-field objects of some states: the only objects the helper changes. */
  function NextObjects(rs: seq<StateRef>): set<NextField>
  {
    set k | 0 <= k < |rs| && rs[k].Next().Some? :: rs[k].Next().value
  }

  /** The next field of each state, `None` for a kind without one. */
  function NextFieldsOf(rs: seq<StateRef>): (fs: seq<Option<NextField>>)
    ensures |fs| == |rs| && forall k :: 0 <= k < |rs| ==> fs[k] == rs[k].Next()
  {
    seq(|rs|, k requires 0 <= k < |rs| => rs[k].Next())
  }

  /** The current value of each next field. */
  function NextValues(fs: seq<Option<NextField>>): (ns: seq<Option<NextValue>>)
    reads set k | 0 <= k < |fs| && fs[k].Some? :: fs[k].value
    ensures |ns| == |fs|
    ensures forall k :: 0 <= k < |fs| ==> (ns[k].Some? <==> fs[k].Some?)
    ensures forall k :: 0 <= k < |fs| && fs[k].Some? ==> ns[k] == Some(fs[k].value.Value())
  {
    seq(|fs|, k requires 0 <= k < |fs| reads set k | 0 <= k < |fs| && fs[k].Some? :: fs[k].value =>
      if fs[k].Some? then Some(fs[k].value.Value()) else None)
  }

  /**
   * What the helper needs of the states it is given: every next field
   * accepts `set` and `end` (each state class builds it so), and no two
   * states share one.
   */
  predicate AutolinkReady(rs: seq<StateRef>)
  {
    (forall k :: 0 <= k < |rs| && rs[k].Next().Some? ==>
       !rs[k].Next().value.locked && !rs[k].Next().value.endForbidden)
    && (forall k, l :: 0 <= k < |rs| && 0 <= l < |rs| && k != l && rs[k].Next().Some? && rs[l].Next().Some? ==>
          rs[k].Next().value != rs[l].Next().value)
  }

  /** A valid state's snapshot can be linked. */
  lemma ValidLinkable(r: StateRef)
    requires r.Valid()
    ensures Linkable(r.Value())
    ensures HasNext(r.Value().body) <==> r.Next().Some?
    ensures r.Next().Some? ==> r.Next().value in r.Repr() && r.Value().body.next == r.Next().value.Value()
  {
  }

  /** Changing nothing but a state's next field changes nothing but the next field of its snapshot. */
  twostate lemma ValueAfterNextChange(r: StateRef)
    requires old(r.Valid()) && r.Next().Some?
    requires unchanged(old(r.Repr()) - {r.Next().value})
    ensures r.Valid() && r.Repr() == old(r.Repr())
    ensures HasNext(old(r.Value()).body)
    ensures r.Value() == WithNext(old(r.Value()), r.Next().value.Value())
  {
    match r
    case PassRef(s) =>
      assert unchanged(s, s.path, s.resultPath, s.result);
    case TaskRef(s) =>
      assert unchanged(s, s.path, s.resultPath, s.result, s.retry, s.catch);
      TaskAfterNextChange(s);
    case WaitRef(s) =>
      assert unchanged(s);
    case ParallelRef(s) =>
      assert unchanged(s, s.path, s.resultPath);
      ParallelAfterNextChange(s);
  }

  twostate lemma TaskAfterNextChange(s: Task)
    requires old(s.Valid())
    requires unchanged(s, s.path, s.resultPath, s.result, s.retry, s.catch)
    requires unchanged(old(s.retry.Repr())) && unchanged(old(s.catch.Repr()))
    ensures s.Valid() && s.Repr() == old(s.Repr())
    ensures s.Value() == WithNext(old(s.Value()), s.next.Value())
  {
  }

  twostate lemma ParallelAfterNextChange(s: Parallel)
    requires unchanged(s, s.path, s.resultPath)
    requires unchanged(set b | b in s.branches)
    ensures s.Value() == WithNext(old(s.Value()), s.next.Value())
  {
  }

  /** The loop body on one next field: `if (next && !next.isConfigured()) next.set(state)`. */
  method LinkField(next: NextField, target: string)
    requires !next.locked
    modifies next
    ensures next.Value() == LinkNext(old(next.Value()), target)
  {
    if !next.IsConfigured() {
      var _ := next.Set(target);
    }
  }

  /** The step after the loop: `if (next && !next.isConfigured()) next.setEnd()`. */
  method EndField(next: NextField)
    requires !next.locked && !next.endForbidden
    modifies next
    ensures next.Value() == EndNext(old(next.Value()))
  {
    if !next.IsConfigured() {
      var _ := next.End();
    }
  }

  /**
   * `statesAutolink(stateMachine)`: walks the states in order, pointing each
   * unconfigured next field at the following state, then makes the last
   * state's transition terminal if it is still unconfigured. Only next-field
   * objects change.
   */
  method StatesAutolink(m: StateMachine)
    requires AutolinkReady(m.states)
    modifies NextObjects(m.states)
    ensures AllNextLinkable(old(NextValues(NextFieldsOf(m.states))))
    ensures NextValues(NextFieldsOf(m.states)) == NextsAutolinked(old(NextValues(NextFieldsOf(m.states))), Names(m.states))
  {
    var rs := m.states;
    var fields := NextFieldsOf(rs);
    ghost var ns := NextValues(fields);
    ghost var names := Names(rs);
    ghost var current := ns;
    var i := 0;
    while i < |rs|
      invariant 0 <= i <= |rs| && |current| == |rs|
      invariant forall k :: 0 <= k < |rs| ==> (current[k].Some? <==> fields[k].Some?)
      invariant forall k :: 0 <= k < |rs| && fields[k].Some? ==> current[k] == Some(fields[k].value.Value())
      invariant current == NextsLinkedBefore(ns, names, i)
    {
      if i > 0 && fields[i - 1].Some? {
        LinkField(fields[i - 1].value, rs[i].Name());
        current := current[i - 1 := Some(fields[i - 1].value.Value())];
      }
      LinkStep(ns, names, i);
      i := i + 1;
    }
    if |rs| > 0 && fields[|rs| - 1].Some? {
      EndField(fields[|rs| - 1].value);
      current := current[|rs| - 1 := Some(fields[|rs| - 1].value.Value())];
    }
    TerminateStep(ns, names);
    assert NextValues(fields) == current;
  }
}
