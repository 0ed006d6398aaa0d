/** The Parallel state and its branches (src/states/Parallel.ts). */
module ParallelStates {
  import opened Wrappers
  import opened Failures
  import opened NextFields
  import opened PathFields
  import opened ResultPathFields
  import opened StateValues

  /** One branch: the states added to it, in order, and the name of its start state. */
  class ParallelBranch {
    var states: seq<StateValue>
    var start: Option<string>

    function Value(): BranchValue
      reads this
    {
      BranchValue(states, start)
    }

    ghost predicate Valid()
      reads this
    {
      BranchWellFormed(Value())
    }

    constructor()
      ensures Valid() && Value() == EmptyBranch
    {
      states := [];
      start := None;
    }

    /** `addState(state)`: appends; the first state added becomes the start. */
    method AddState(s: StateValue)
      requires Valid()
      modifies this
      ensures Valid()
      ensures Value() == AddToBranch(old(Value()), s)
    {
      if states == [] {
        start := Some(s.name);
      }
      states := states + [s];
    }

    function GetStartAt(): Option<string>
      reads this
    {
      start
    }

    /** `getStates()`: a copy of the list. */
    function GetStates(): seq<StateValue>
      reads this
    {
      states
    }

    function Validate(): Option<Failure>
      reads this
    {
      ValidateBranch(Value())
    }
  }

  /** The snapshots of a list of branches, in order. */
  function BranchValues(bs: seq<ParallelBranch>): (vs: seq<BranchValue>)
    reads set b | b in bs
    ensures |vs| == |bs|
    ensures forall i :: 0 <= i < |bs| ==> vs[i] == bs[i].Value()
  {
    seq(|bs|, i reads set b | b in bs requires 0 <= i < |bs| => bs[i].Value())
  }

  class Parallel {
    const name: string
    var comment: Option<string>
    const next: NextField
    var branches: seq<ParallelBranch>
    const path: PathField
    const resultPath: ResultPathField

    ghost function Repr(): set<object>
      reads this
    {
      {this, next, path, resultPath} + set b | b in branches
    }

    ghost predicate Valid()
    {
      next.owner == name && !next.locked && !next.endForbidden
    }

    function Value(): StateValue
      reads this, next, path, resultPath, set b | b in branches
    {
      StateValue(name, comment, ParallelBody(next.Value(), path.Value(), resultPath.Value(), BranchValues(branches)))
    }

    /** `new Parallel(name)`: no branches, fresh fields owned by the state. */
    constructor(name: string)
      ensures Valid() && fresh(next) && fresh(path) && fresh(resultPath)
      ensures Value() == FreshState(ParallelKind, name)
    {
      this.name := name;
      comment := None;
      branches := [];
      next := new NextField(name, false, false);
      path := new PathField();
      resultPath := new ResultPathField();
    }

    method SetComment(c: string)
      modifies this
      ensures Value() == old(Value()).(comment := Some(c))
    {
      comment := Some(c);
    }

    /**
     * `addBranch(branch?)`: appends the given branch, or a new empty one,
     * and returns it; nothing else changes.
     */
    method AddBranch(branch: Option<ParallelBranch>) returns (b: ParallelBranch)
      modifies this
      ensures branch.Some? ==> b == branch.value
      ensures branch.None? ==> fresh(b) && b.Valid() && b.Value() == EmptyBranch
      ensures branches == old(branches) + [b]
      ensures Value() == old(Value()).(body := old(Value()).body.(branches := old(Value()).body.branches + [b.Value()]))
    {
      if branch.Some? {
        b := branch.value;
      } else {
        b := new ParallelBranch();
      }
      branches := branches + [b];
      assert BranchValues(branches) == BranchValues(old(branches)) + [b.Value()];
    }

    /** `getBranches()`: a copy of the list. */
    function GetBranches(): seq<ParallelBranch>
      reads this
    {
      branches
    }

    function Validate(): seq<Failure>
      reads this, next, path, resultPath, set b | b in branches
    {
      ValidateState(Value())
    }
  }
}
