/** Task states (src/states/Task.ts): run a resource, with retry and catch policies. */
module TaskStates {
  import opened Wrappers
  import opened Failures
  import opened NextFields
  import opened PathFields
  import opened ResultPathFields
  import opened ResultFields
  import opened RetryFields
  import opened CatchFields
  import opened StateValues

  class Task {
    const name: string
    var comment: Option<string>
    const path: PathField
    const resultPath: ResultPathField
    const result: ResultField
    const next: NextField
    const retry: RetryField
    const catch: CatchField
    var resource: Option<string>
    var heartbeat: Option<int>
    var timeout: Option<int>

    ghost function Repr(): set<object>
      reads this, retry, catch
    {
      {this, path, resultPath, result, next} + retry.Repr() + catch.Repr()
    }

    /**
     * The next field belongs to this state, accepts `set` and `end`, and is
     * not one of the catchers' own next fields; the catchers belong to the state.
     */
    ghost predicate Valid()
      reads this, retry, catch
    {
      next.owner == name && !next.locked && !next.endForbidden
      && retry.Valid() && catch.Valid() && catch.owner == name && next !in catch.Repr()
      && this !in retry.Repr() && this !in catch.Repr()
    }

    function Value(): StateValue
      reads Repr()
    {
      StateValue(name, comment, TaskBody(path.Value(), resultPath.Value(), result.Value(), next.Value(),
                                         retry.Value(), catch.Value(), resource, heartbeat, timeout))
    }

    /** `new Task(name)`: fresh fields owned by the state; resource, heartbeat and timeout unset. */
    constructor(name: string)
      ensures Valid() && fresh(next) && fresh(retry) && fresh(catch)
      ensures Value() == FreshState(TaskKind, name)
    {
      var p := new PathField();
      var rp := new ResultPathField();
      var rs := new ResultField();
      var n := new NextField(name, false, false);
      var rt := new RetryField();
      var c := new CatchField(name);
      this.name := name;
      comment := None;
      resource := None;
      heartbeat := None;
      timeout := None;
      path := p;
      resultPath := rp;
      result := rs;
      next := n;
      retry := rt;
      catch := c;
      new;
      assert path.Value() == FreshPath && resultPath.Value() == FreshResultPath && result.Value() == FreshResult;
      assert next.Value() == FreshNext(name, false, false);
      assert retry.Value() == FreshRetry && catch.Value() == FreshCatch;
      assert FreshState(TaskKind, name) == StateValue(name, None, TaskBody(FreshPath, FreshResultPath, FreshResult,
        FreshNext(name, false, false), FreshRetry, FreshCatch, None, None, None));
    }

    method SetComment(c: string)
      requires Valid()
      modifies this
      ensures Valid()
      ensures Value() == old(Value()).(comment := Some(c))
    {
      comment := Some(c);
    }

    /** `setResource(id)`; `None` stands for the `undefined` a hydrator may pass. */
    method SetResource(id: Option<string>)
      requires Valid()
      modifies this
      ensures Valid()
      ensures Value() == old(Value()).(body := old(Value()).body.(resource := id))
    {
      resource := id;
    }

    function GetResource(): Option<string>
      reads this
    {
      resource
    }

    method SetHeartbeat(seconds: int)
      requires Valid()
      modifies this
      ensures Valid()
      ensures Value() == old(Value()).(body := old(Value()).body.(heartbeat := Some(seconds)))
    {
      heartbeat := Some(seconds);
    }

    function GetHeartbeat(): Option<int>
      reads this
    {
      heartbeat
    }

    method SetTimeout(seconds: int)
      requires Valid()
      modifies this
      ensures Valid()
      ensures Value() == old(Value()).(body := old(Value()).body.(timeout := Some(seconds)))
    {
      timeout := Some(seconds);
    }

    function GetTimeout(): Option<int>
      reads this
    {
      timeout
    }

    function Validate(): seq<Failure>
      reads Repr()
    {
      ValidateState(Value())
    }
  }
}
