/** The `Catch` handlers of a Task (src/fields/CatchField.ts). */
module CatchFields {
  import opened Wrappers
  import opened Failures
  import opened NextFields
  import opened ResultPathFields

  /** A snapshot of one catcher: its error names, its own next field and its own result-path field. */
  datatype CatcherValue = CatcherValue(errors: seq<string>, next: NextValue, resultPath: ResultPathValue)

  /** A snapshot of the field: the configured flag and the catchers in insertion order. */
  datatype CatchValue = CatchValue(configured: bool, catchers: seq<CatcherValue>)

  const FreshCatch := CatchValue(false, [])

  /** A newly built catcher of a state: its fields are fresh and unlocked, its error list empty. */
  function FreshCatcher(owner: string): CatcherValue
  {
    CatcherValue([], FreshNext(owner, false, false), FreshResultPath)
  }

  /**
   * `ErrorCacher.validate`: the next field's error counts only when the catcher
   * lists at least one error name; otherwise the result-path field decides.
   */
  function ValidateCatcher(c: CatcherValue): (r: Option<Failure>)
    ensures |c.errors| > 0 && ValidateNext(c.next).Some? ==> r == ValidateNext(c.next)
    ensures |c.errors| == 0 || ValidateNext(c.next).None? ==> r == ValidateResultPath(c.resultPath)
  {
    if |c.errors| > 0 && ValidateNext(c.next).Some? then ValidateNext(c.next)
    else ValidateResultPath(c.resultPath)
  }

  /** The first catcher error in list order, as the `every` walk finds it. */
  function FirstCatcherError(cs: seq<CatcherValue>): (r: Option<Failure>)
    ensures r.None? <==> forall i :: 0 <= i < |cs| ==> ValidateCatcher(cs[i]).None?
  {
    if cs == [] then None
    else if ValidateCatcher(cs[0]).Some? then ValidateCatcher(cs[0])
    else FirstCatcherError(cs[1..])
  }

  /** The error reported is the one of the first failing catcher; the catchers after it are not consulted. */
  lemma {:induction false} FirstCatcherErrorIsFirst(cs: seq<CatcherValue>, i: nat)
    requires i < |cs| && ValidateCatcher(cs[i]).Some?
    requires forall j :: 0 <= j < i ==> ValidateCatcher(cs[j]).None?
    ensures FirstCatcherError(cs) == ValidateCatcher(cs[i])
  {
    if i > 0 {
      assert cs[1..][i - 1] == cs[i];
      forall j | 0 <= j < i - 1 ensures ValidateCatcher(cs[1..][j]).None? {
        assert cs[1..][j] == cs[j + 1];
      }
      FirstCatcherErrorIsFirst(cs[1..], i - 1);
    }
  }

  /** `CatchField.validate`: the field itself is optional, so only its catchers can fail it. */
  function ValidateCatch(v: CatchValue): Option<Failure>
  {
    FirstCatcherError(v.catchers)
  }

  /** `errors(names)`: appends a fresh catcher holding the names and configures the field. */
  function AddCatcher(v: CatchValue, owner: string, names: seq<string>): (r: CatchValue)
    ensures r.configured
    ensures r.catchers == v.catchers + [FreshCatcher(owner).(errors := names)]
  {
    CatchValue(true, v.catchers + [FreshCatcher(owner).(errors := names)])
  }

  /** A catcher that names errors needs a transition; one that names none does not. */
  lemma CatcherNeedsTransition(owner: string, names: seq<string>)
    ensures names != [] ==> ValidateCatcher(FreshCatcher(owner).(errors := names))
                            == Some(ConfigurationMissing(NextFieldKind))
    ensures names == [] ==> ValidateCatcher(FreshCatcher(owner).(errors := names)) == None
  {
  }

  class ErrorCatcher {
    const owner: string
    const next: NextField
    const resultPath: ResultPathField
    var errors: seq<string>

    function Value(): CatcherValue
      reads this, next, resultPath
    {
      CatcherValue(errors, next.Value(), resultPath.Value())
    }

    /** Each catcher owns a fresh, unlocked next field and a fresh result-path field. */
    constructor(owner: string)
      ensures Value() == FreshCatcher(owner) && this.owner == owner
      ensures fresh(next) && fresh(resultPath)
    {
      this.owner := owner;
      next := new NextField(owner, false, false);
      resultPath := new ResultPathField();
      errors := [];
    }

    method SetErrors(names: seq<string>) returns (r: string)
      modifies this
      ensures Value() == old(Value()).(errors := names) && r == owner
    {
      errors := names;
      return owner;
    }

    /** `getErrors()` as written: `splice(0)` hands the names out and empties the catcher's list. */
    method GetErrors() returns (names: seq<string>)
      modifies this
      ensures names == old(errors) && errors == []
    {
      names := errors;
      errors := [];
    }

    function Validate(): Option<Failure>
      reads this, next, resultPath
    {
      ValidateCatcher(Value())
    }
  }

  /** The objects a list of catchers is made of. */
  function CatcherObjects(cs: seq<ErrorCatcher>): set<object>
  {
    (set c | c in cs :: c as object) + (set c | c in cs :: c.next as object)
    + (set c | c in cs :: c.resultPath as object)
  }

  /** The snapshots of a list of catchers, in order. */
  function CatcherValues(cs: seq<ErrorCatcher>): (vs: seq<CatcherValue>)
    reads CatcherObjects(cs)
    ensures |vs| == |cs|
    ensures forall i :: 0 <= i < |cs| ==> vs[i] == cs[i].Value()
  {
    if cs == [] then [] else CatcherValues(cs[..|cs| - 1]) + [cs[|cs| - 1].Value()]
  }

  lemma CatcherValuesAppend(cs: seq<ErrorCatcher>, c: ErrorCatcher)
    ensures CatcherValues(cs + [c]) == CatcherValues(cs) + [c.Value()]
  {
    assert (cs + [c])[..|cs|] == cs;
  }

  /** No catcher, next field or result-path field appears twice in the list. */
  ghost predicate Unshared(cs: seq<ErrorCatcher>)
  {
    forall i, j :: 0 <= i < j < |cs| ==>
      cs[i] != cs[j] && cs[i].next != cs[j].next && cs[i].resultPath != cs[j].resultPath
  }

  /** Appending a catcher none of whose objects occur in the list keeps the list unshared. */
  lemma UnsharedAppend(cs: seq<ErrorCatcher>, c: ErrorCatcher)
    requires Unshared(cs)
    requires forall i :: 0 <= i < |cs| ==> cs[i] != c && cs[i].next != c.next && cs[i].resultPath != c.resultPath
    ensures Unshared(cs + [c])
  {
  }

  /** The catcher `errors(names)` builds: fresh, owned by the state, holding exactly the names. */
  method NewCatcher(owner: string, names: seq<string>) returns (c: ErrorCatcher)
    ensures fresh(c) && fresh(c.next) && fresh(c.resultPath)
    ensures c.Value() == FreshCatcher(owner).(errors := names) && c.owner == owner
  {
    c := new ErrorCatcher(owner);
    var _ := c.SetErrors(names);
  }

  class CatchField {
    const owner: string
    var configured: bool
    var catchers: seq<ErrorCatcher>

    ghost function Repr(): set<object>
      reads this
    {
      {this} + CatcherObjects(catchers)
    }

    /** Catchers, and the fields they own, are never shared between two catchers. */
    ghost predicate Valid()
      reads this
    {
      Unshared(catchers)
    }

    function Value(): CatchValue
      reads this, CatcherObjects(catchers)
    {
      CatchValue(configured, CatcherValues(catchers))
    }

    constructor(owner: string)
      ensures Valid() && Value() == FreshCatch && this.owner == owner
      ensures catchers == [] && Repr() == {this}
    {
      this.owner := owner;
      configured := false;
      catchers := [];
    }

    /** `errors(names)`: returns the new catcher so that its next and result path can be set. */
    method Errors(names: seq<string>) returns (c: ErrorCatcher)
      requires Valid()
      modifies this
      ensures Valid() && fresh(c) && fresh(c.next) && fresh(c.resultPath)
      ensures catchers == old(catchers) + [c]
      ensures Value() == AddCatcher(old(Value()), owner, names)
    {
      c := NewCatcher(owner, names);
      UnsharedAppend(catchers, c);
      CatcherValuesAppend(catchers, c);
      configured := true;
      catchers := catchers + [c];
    }

    /** `getCatchers()` as written: `splice(0)` hands the catchers out and empties the field's list. */
    method GetCatchers() returns (cs: seq<ErrorCatcher>)
      modifies this
      ensures cs == old(catchers) && catchers == [] && configured == old(configured)
    {
      cs := catchers;
      catchers := [];
    }

    /** The evident intent of `getCatchers()`: a copy, as `getRetries()` and `getBranches()` return. */
    function Catchers(): seq<ErrorCatcher>
      reads this
    {
      catchers
    }

    function Validate(): Option<Failure>
      reads this, CatcherObjects(catchers)
    {
      ValidateCatch(Value())
    }
  }

  /**
   * `splice(0)` in `getCatchers` and `getErrors` empties the lists it reads:
   * a second read of a field holding one catcher gets nothing.
   */
  method DrainingGetCatchers() returns (first: seq<ErrorCatcher>, second: seq<ErrorCatcher>)
    ensures |first| == 1 && second == []
  {
    var field := new CatchField("Task");
    var _ := field.Errors(["States.ALL"]);
    first := field.GetCatchers();
    second := field.GetCatchers();
  }

  /** Reading the catchers as a copy gives the same list every time. */
  method CopyingCatchers() returns (first: seq<ErrorCatcher>, second: seq<ErrorCatcher>)
    ensures |first| == 1 && second == first
  {
    var field := new CatchField("Task");
    var _ := field.Errors(["States.ALL"]);
    first := field.Catchers();
    second := field.Catchers();
  }
}
