/** The literal `Result` of a Pass state (src/fields/ResultField.ts). */
module ResultFields {
  import opened Json

  /** A snapshot: the stored JSON value, `null` at first. */
  datatype ResultValue = ResultValue(configured: bool, result: Json)

  const FreshResult := ResultValue(false, JNull)

  /** `set(value)` stores any JSON value, `null` included, and configures the field. */
  function SetResult(v: ResultValue, value: Json): (r: ResultValue)
    ensures r.configured && r.result == value
  {
    v.(configured := true, result := value)
  }

  class ResultField {
    var configured: bool
    var result: Json

    function Value(): ResultValue
      reads this
    {
      ResultValue(configured, result)
    }

    constructor()
      ensures Value() == FreshResult
    {
      configured := false;
      result := JNull;
    }

    method Set(value: Json)
      modifies this
      ensures Value() == SetResult(old(Value()), value)
    {
      configured := true;
      result := value;
    }

    /** `get()` hands out a deep copy; JSON values have no identity, so the copy is the value. */
    function Get(): Json
      reads this
    {
      result
    }
  }
}
