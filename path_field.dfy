/** `InputPath`/`OutputPath` of a state (src/fields/PathField.ts). */
module PathFields {
  import opened Wrappers
  import opened Failures
  import opened Utils

  /** A snapshot of a path field; both paths start as `null`. */
  datatype PathValue = PathValue(configured: bool, input: Option<string>, output: Option<string>)

  /** An unset path, or a valid one. */
  predicate Acceptable(path: Option<string>)
  {
    path.None? || IsJsonPath(path.value)
  }

  const FreshPath := PathValue(false, None, None)

  /** `PathField.validate`: the input path is checked before the output path; unset paths pass. */
  function ValidatePath(p: PathValue): (r: Option<Failure>)
    ensures p.input.Some? && !IsJsonPath(p.input.value) ==> r == Some(InvalidJsonPath(p.input.value))
    ensures Acceptable(p.input) && !Acceptable(p.output) ==> r == Some(InvalidJsonPath(p.output.value))
    ensures r.None? <==> Acceptable(p.input) && Acceptable(p.output)
  {
    if p.input.Some? && ValidateJsonPath(p.input.value).Some? then ValidateJsonPath(p.input.value)
    else if p.output.Some? && ValidateJsonPath(p.output.value).Some? then ValidateJsonPath(p.output.value)
    else None
  }

  /** `setInput(path)`: an invalid path throws and changes nothing; a valid one is stored. */
  function StoreInput(p: PathValue, path: string): (r: Result<PathValue>)
    ensures r.Err? <==> !IsJsonPath(path)
    ensures r.Err? ==> r.error == InvalidJsonPath(path)
    ensures r.Ok? ==> r.value.configured && r.value.input == Some(path) && r.value.output == p.output
  {
    if ValidateJsonPath(path).Some? then Err(InvalidJsonPath(path))
    else Ok(p.(configured := true, input := Some(path)))
  }

  /** `setOutput(path)`: as `setInput`, for the output path. */
  function StoreOutput(p: PathValue, path: string): (r: Result<PathValue>)
    ensures r.Err? <==> !IsJsonPath(path)
    ensures r.Err? ==> r.error == InvalidJsonPath(path)
    ensures r.Ok? ==> r.value.configured && r.value.output == Some(path) && r.value.input == p.input
  {
    if ValidateJsonPath(path).Some? then Err(InvalidJsonPath(path))
    else Ok(p.(configured := true, output := Some(path)))
  }

  /** The setters only ever store valid paths, so a field built through them always validates. */
  lemma {:induction false} SettersKeepValid(p: PathValue, path: string)
    requires ValidatePath(p) == None
    ensures StoreInput(p, path).Ok? ==> ValidatePath(StoreInput(p, path).value) == None
    ensures StoreOutput(p, path).Ok? ==> ValidatePath(StoreOutput(p, path).value) == None
  {
  }

  class PathField {
    var configured: bool
    var input: Option<string>
    var output: Option<string>

    function Value(): PathValue
      reads this
    {
      PathValue(configured, input, output)
    }

    constructor()
      ensures Value() == FreshPath
    {
      configured := false;
      input := None;
      output := None;
    }

    method SetInput(path: string) returns (r: Option<Failure>)
      modifies this
      ensures match StoreInput(old(Value()), path)
              case Ok(v) => Value() == v && r == None
              case Err(e) => Value() == old(Value()) && r == Some(e)
    {
      var err := ValidateJsonPath(path);
      if err.Some? {
        return err;
      }
      configured := true;
      input := Some(path);
      return None;
    }

    method SetOutput(path: string) returns (r: Option<Failure>)
      modifies this
      ensures match StoreOutput(old(Value()), path)
              case Ok(v) => Value() == v && r == None
              case Err(e) => Value() == old(Value()) && r == Some(e)
    {
      var err := ValidateJsonPath(path);
      if err.Some? {
        return err;
      }
      configured := true;
      output := Some(path);
      return None;
    }
  }
}
