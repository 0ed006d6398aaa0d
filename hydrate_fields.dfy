/**
 * The hydrators of the single-valued fields (src/hydrators/aws/NextFieldHydrator.ts,
 * PathFieldHydrator.ts, ResultPathFieldHydrator.ts, ResultFieldHydrator.ts).
 *
 * Each `extract` builds exactly the object the generator writes for the same
 * field, so `Generator.GenerateNext`, `GeneratePath`, `GenerateResultPath` and
 * `GenerateResult` serve as the extract functions. Each `hydrate` is a method
 * on the field object, proved against a function on snapshots that says what
 * state the field reaches and what, if anything, is thrown.
 */
module FieldHydrators {
  import opened Wrappers
  import opened Json
  import opened Failures
  import opened Utils
  import opened NextFields
  import opened PathFields
  import opened ResultPathFields
  import opened ResultFields
  import opened StateValues
  import opened Generator

  // ----- Next / End -----

  /** `data['End'] === true`. */
  predicate EndRequested(data: seq<Member>)
  {
    Lookup(data, "End") == Some(JBool(true))
  }

  /** `data['Next']` is present and truthy. */
  predicate NextRequested(data: seq<Member>)
  {
    Lookup(data, "Next").Some? && Truthy(Lookup(data, "Next").value)
  }

  /**
   * `NextFieldHydrator.hydrate` on a snapshot: `End: true` ends the field,
   * otherwise a truthy `Next` sets the target; a target that is not a string
   * is outside the model and fails as ill-typed. A failure leaves the field as
   * it was.
   */
  function HydrateNextValue(n: NextValue, data: seq<Member>): (r: Result<NextValue>)
    ensures r.Ok? ==> SameIdentity(r.value, n)
    ensures EndRequested(data) ==> (r.Ok? <==> !n.endForbidden && !n.locked)
    ensures EndRequested(data) && r.Ok? ==> r.value.isEnd && r.value.configured && r.value.target == n.target
    ensures !EndRequested(data) && NextRequested(data) && Lookup(data, "Next").value.JStr? ==>
              (r.Ok? <==> !n.locked)
              && (r.Ok? ==> r.value.target == Some(Lookup(data, "Next").value.s) && !r.value.isEnd && r.value.configured)
    ensures !EndRequested(data) && !NextRequested(data) ==> r == Ok(n)
  {
    if EndRequested(data) then MarkEnd(n)
    else if NextRequested(data) then
      var target := Lookup(data, "Next").value;
      if target.JStr? then SetTarget(n, target.s) else Err(IllTyped("Next"))
    else Ok(n)
  }

  /** `NextFieldHydrator.hydrate(field, data)`. */
  method HydrateNext(field: NextField, data: seq<Member>) returns (thrown: Option<Failure>)
    modifies field
    ensures match HydrateNextValue(old(field.Value()), data)
            case Ok(v) => field.Value() == v && thrown.None?
            case Err(e) => field.Value() == old(field.Value()) && thrown == Some(e)
  {
    if Lookup(data, "End") == Some(JBool(true)) {
      var r := field.End();
      return if r.Err? then Some(r.error) else None;
    }
    var target := Lookup(data, "Next");
    if target.Some? && Truthy(target.value) {
      if !target.value.JStr? {
        return Some(IllTyped("Next"));
      }
      var r := field.Set(target.value.s);
      return if r.Err? then Some(r.error) else None;
    }
    return None;
  }

  /**
   * Round trip from the wire: hydrating a fresh field with `{End: true}`, or
   * with `{Next: name}` for a non-empty name, and extracting gives the data back.
   */
  lemma NextRoundTrip(owner: string, name: string)
    requires name != ""
    ensures var h := HydrateNextValue(FreshNext(owner, false, false), [("End", JBool(true))]);
            h.Ok? && GenerateNext(h.value) == [("End", JBool(true))]
    ensures var h := HydrateNextValue(FreshNext(owner, false, false), [("Next", JStr(name))]);
            h.Ok? && GenerateNext(h.value) == [("Next", JStr(name))]
  {
    var d := [("Next", JStr(name))];
    assert Lookup(d, "End") == None && NextRequested(d);
    var h := HydrateNextValue(FreshNext(owner, false, false), d);
    assert h.Ok? && !h.value.isEnd && h.value.target == Some(name);
  }

  /**
   * Round trip from the model: hydrating a fresh, unlocked field with the
   * extract of any unlocked field gives a field that extracts the same. An
   * empty target is excluded: it is written as `Next: ""`, which the hydrator
   * skips as falsy.
   */
  lemma NextModelRoundTrip(n: NextValue, owner: string)
    requires !n.locked && (n.isEnd || n.target != Some(""))
    ensures var h := HydrateNextValue(FreshNext(owner, false, false), GenerateNext(n));
            h.Ok? && h.value.isEnd == n.isEnd && GenerateNext(h.value) == GenerateNext(n)
  {
    if !n.isEnd && n.target.Some? {
      assert GenerateNext(n) == [("Next", JStr(n.target.value))];
    }
  }

  // ----- InputPath / OutputPath -----

  /** `data.InputPath` or `data.OutputPath` as the hydrator reads it: `None` unless present and truthy. */
  function TruthyAt(data: seq<Member>, key: string): (r: Option<Json>)
    ensures r.Some? <==> Lookup(data, key).Some? && Truthy(Lookup(data, key).value)
    ensures r.Some? ==> r == Lookup(data, key)
  {
    if Lookup(data, key).Some? && Truthy(Lookup(data, key).value) then Lookup(data, key) else None
  }

  /** One `if (data.X) instance.setX(data.X)` step. */
  function PathStep(p: PathValue, v: Option<Json>, output: bool, key: string): (r: Result<PathValue>)
  {
    if v.None? then Ok(p)
    else if !v.value.JStr? then Err(IllTyped(key))
    else if output then StoreOutput(p, v.value.s)
    else StoreInput(p, v.value.s)
  }

  /**
   * `PathFieldHydrator.hydrate` on a snapshot: the input path is set first, so
   * an invalid output path throws after the input path has been stored.
   */
  function HydratePathValue(p: PathValue, data: seq<Member>): (r: Effect<PathValue>)
    ensures TruthyAt(data, "InputPath") == Some(JStr(InputText(data))) && !IsJsonPath(InputText(data))
            ==> r == Effect(p, Some(InvalidJsonPath(InputText(data))))
    ensures r.thrown.None? ==>
              r.state.input == (if TruthyAt(data, "InputPath").Some? then Some(InputText(data)) else p.input)
              && r.state.output == (if TruthyAt(data, "OutputPath").Some? then Some(OutputText(data)) else p.output)
              && Acceptable(r.state.input) == (Acceptable(p.input) || TruthyAt(data, "InputPath").Some?)
              && Acceptable(r.state.output) == (Acceptable(p.output) || TruthyAt(data, "OutputPath").Some?)
    ensures r.thrown.None? && TruthyAt(data, "InputPath").None? && TruthyAt(data, "OutputPath").None? ==> r.state == p
  {
    match PathStep(p, TruthyAt(data, "InputPath"), false, "InputPath")
    case Err(e) => Effect(p, Some(e))
    case Ok(q) =>
      match PathStep(q, TruthyAt(data, "OutputPath"), true, "OutputPath")
      case Err(e) => Effect(q, Some(e))
      case Ok(s) => Effect(s, None)
  }

  /** The string at `InputPath`, or `""` when there is none. */
  function InputText(data: seq<Member>): string
  {
    match Lookup(data, "InputPath")
    case Some(JStr(s)) => s
    case _ => ""
  }

  /** The string at `OutputPath`, or `""` when there is none. */
  function OutputText(data: seq<Member>): string
  {
    match Lookup(data, "OutputPath")
    case Some(JStr(s)) => s
    case _ => ""
  }

  /** `PathFieldHydrator.hydrate(field, data)`. */
  method HydratePath(field: PathField, data: seq<Member>) returns (thrown: Option<Failure>)
    modifies field
    ensures field.Value() == HydratePathValue(old(field.Value()), data).state
    ensures thrown == HydratePathValue(old(field.Value()), data).thrown
  {
    var input := TruthyAt(data, "InputPath");
    if input.Some? {
      if !input.value.JStr? {
        return Some(IllTyped("InputPath"));
      }
      thrown := field.SetInput(input.value.s);
      if thrown.Some? {
        return;
      }
    }
    var output := TruthyAt(data, "OutputPath");
    if output.Some? {
      if !output.value.JStr? {
        return Some(IllTyped("OutputPath"));
      }
      thrown := field.SetOutput(output.value.s);
      if thrown.Some? {
        return;
      }
    }
    return None;
  }

  /**
   * Round trip: for a field whose paths are valid, hydrating a fresh field with
   * its extract and extracting again gives the same data.
   */
  lemma PathRoundTrip(p: PathValue)
    requires ValidatePath(p) == None
    ensures var h := HydratePathValue(FreshPath, GeneratePath(p));
            h.thrown.None? && GeneratePath(h.state) == GeneratePath(p)
  {
    var d := GeneratePath(p);
    assert TruthyAt(d, "InputPath") == (if PresentText(p.input) then Some(JStr(p.input.value)) else None);
    assert TruthyAt(d, "OutputPath") == (if PresentText(p.output) then Some(JStr(p.output.value)) else None);
  }

  // ----- ResultPath -----

  /**
   * `ResultPathFieldHydrator.hydrate` on a snapshot: `null` discards, a string
   * is set (an invalid one throws and changes nothing), an absent key changes
   * nothing.
   */
  function HydrateResultPathValue(v: ResultPathValue, data: seq<Member>): (r: Result<ResultPathValue>)
    ensures Lookup(data, "ResultPath").None? ==> r == Ok(v)
    ensures Lookup(data, "ResultPath") == Some(JNull) ==> r.Ok? && r.value.discarded && GetPath(r.value).None?
    ensures (Lookup(data, "ResultPath").Some? && Lookup(data, "ResultPath").value.JStr?) ==>
              var s := Lookup(data, "ResultPath").value.s;
              (r.Ok? <==> IsJsonPath(s)) && (r.Ok? ==> r.value.path == Some(s) && r.value.discarded == v.discarded)
              && (r.Err? ==> r.error == InvalidJsonPath(s))
    ensures r.Ok? && Lookup(data, "ResultPath").Some? ==> r.value.configured
  {
    match Lookup(data, "ResultPath")
    case None => Ok(v)
    case Some(JNull) => Ok(MarkDiscarded(v))
    case Some(JStr(s)) => SetPath(v, s)
    case Some(_) => Err(IllTyped("ResultPath"))
  }

  /** `ResultPathFieldHydrator.hydrate(field, data)`. */
  method HydrateResultPath(field: ResultPathField, data: seq<Member>) returns (thrown: Option<Failure>)
    modifies field
    ensures match HydrateResultPathValue(old(field.Value()), data)
            case Ok(v) => field.Value() == v && thrown.None?
            case Err(e) => field.Value() == old(field.Value()) && thrown == Some(e)
  {
    var value := Lookup(data, "ResultPath");
    if value == Some(JNull) {
      field.Discard();
      return None;
    }
    if value.Some? {
      if !value.value.JStr? {
        return Some(IllTyped("ResultPath"));
      }
      thrown := field.Set(value.value.s);
      return;
    }
    return None;
  }

  /**
   * Round trip: for a field with a valid (or no) path, hydrating a fresh field
   * with its extract gives a field that extracts the same; `ResultPath: null`
   * comes back as `null` through a discard.
   */
  lemma ResultPathRoundTrip(v: ResultPathValue)
    requires ValidateResultPath(v) == None
    ensures var h := HydrateResultPathValue(FreshResultPath, GenerateResultPath(v));
            h.Ok? && h.value.configured && GenerateResultPath(h.value) == GenerateResultPath(v)
  {
  }

  // ----- Result -----

  /** `ResultFieldHydrator.hydrate` on a snapshot: any present value, `null` included, is set. */
  function HydrateResultValue(v: ResultValue, data: seq<Member>): (r: ResultValue)
    ensures Lookup(data, "Result").None? ==> r == v
    ensures Lookup(data, "Result").Some? ==> r.configured && r.result == Lookup(data, "Result").value
  {
    match Lookup(data, "Result")
    case None => v
    case Some(j) => SetResult(v, j)
  }

  /** `ResultFieldHydrator.hydrate(field, data)`. */
  method HydrateResult(field: ResultField, data: seq<Member>)
    modifies field
    ensures field.Value() == HydrateResultValue(old(field.Value()), data)
  {
    var value := Lookup(data, "Result");
    if value.Some? {
      field.Set(value.value);
    }
  }

  /** Round trip: `{Result: v}` hydrated into a fresh field extracts as `{Result: v}`, whatever `v` is. */
  lemma ResultRoundTrip(v: ResultValue)
    ensures var h := HydrateResultValue(FreshResult, GenerateResult(v));
            h.configured && GenerateResult(h) == GenerateResult(v)
  {
  }
}
