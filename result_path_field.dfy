/** `ResultPath` of a state or catcher (src/fields/ResultPathField.ts). */
module ResultPathFields {
  import opened Wrappers
  import opened Failures
  import opened Utils

  /** A snapshot: the stored path (initially `null`) and the sticky discard flag. */
  datatype ResultPathValue = ResultPathValue(configured: bool, path: Option<string>, discarded: bool)

  const FreshResultPath := ResultPathValue(false, None, false)

  /** `get()`: `null` once discarded, otherwise the stored path. */
  function GetPath(v: ResultPathValue): (r: Option<string>)
    ensures v.discarded ==> r.None?
    ensures !v.discarded ==> r == v.path
  {
    if v.discarded then None else v.path
  }

  /** `ResultPathField.validate`: a stored path must be a JSON path; no path is fine. */
  function ValidateResultPath(v: ResultPathValue): (r: Option<Failure>)
    ensures r.None? <==> v.path.None? || IsJsonPath(v.path.value)
    ensures r.Some? ==> r == Some(InvalidJsonPath(v.path.value))
  {
    if v.path.Some? then ValidateJsonPath(v.path.value) else None
  }

  /** `discard()`: marks the result discarded and configures the field; the stored path is kept. */
  function MarkDiscarded(v: ResultPathValue): (r: ResultPathValue)
    ensures r.configured && r.discarded && r.path == v.path
    ensures GetPath(r) == None
  {
    v.(configured := true, discarded := true)
  }

  /** `set(path)`: an invalid path throws and changes nothing; the discard flag is left as it is. */
  function SetPath(v: ResultPathValue, path: string): (r: Result<ResultPathValue>)
    ensures r.Err? <==> !IsJsonPath(path)
    ensures r.Err? ==> r.error == InvalidJsonPath(path)
    ensures r.Ok? ==> r.value.configured && r.value.path == Some(path) && r.value.discarded == v.discarded
  {
    if ValidateJsonPath(path).Some? then Err(InvalidJsonPath(path))
    else Ok(v.(configured := true, path := Some(path)))
  }

  /** Discarding wins over any later `set`: `get()` keeps returning `null`. */
  lemma DiscardIsSticky(v: ResultPathValue, path: string)
    requires IsJsonPath(path)
    ensures GetPath(SetPath(MarkDiscarded(v), path).value) == None
    ensures GetPath(SetPath(v, path).value) == if v.discarded then None else Some(path)
  {
  }

  class ResultPathField {
    var configured: bool
    var path: Option<string>
    var discarded: bool

    function Value(): ResultPathValue
      reads this
    {
      ResultPathValue(configured, path, discarded)
    }

    constructor()
      ensures Value() == FreshResultPath
    {
      configured := false;
      path := None;
      discarded := false;
    }

    function Get(): Option<string>
      reads this
    {
      GetPath(Value())
    }

    method Discard()
      modifies this
      ensures Value() == MarkDiscarded(old(Value()))
    {
      discarded := true;
      configured := true;
    }

    method Set(p: string) returns (r: Option<Failure>)
      modifies this
      ensures match SetPath(old(Value()), p)
              case Ok(v) => Value() == v && r == None
              case Err(e) => Value() == old(Value()) && r == Some(e)
    {
      var err := ValidateJsonPath(p);
      if err.Some? {
        return err;
      }
      configured := true;
      path := Some(p);
      return None;
    }
  }
}
