/** The `Retry` policy list of a Task (src/fields/RetryField.ts). */
module RetryFields {
  import opened Wrappers

  /** `ERROR_CODES`, in declaration order. */
  datatype ErrorCode =
    | Timeout
    | All
    | TaskFailed
    | Permissions
    | ResultPathMatchFailure
    | BranchFailed
    | NoChoiceMatched

  /** The enum's numeric value, which is what a TypeScript numeric enum member is at run time. */
  function Ordinal(c: ErrorCode): (n: nat)
    ensures n < 7
  {
    match c
    case Timeout => 0
    case All => 1
    case TaskFailed => 2
    case Permissions => 3
    case ResultPathMatchFailure => 4
    case BranchFailed => 5
    case NoChoiceMatched => 6
  }

  lemma OrdinalInjective(a: ErrorCode, b: ErrorCode)
    ensures Ordinal(a) == Ordinal(b) ==> a == b
  {
  }

  /** A snapshot of one retrier: its error codes and the three optional attributes (`null` at first). */
  datatype RetrierValue = RetrierValue(
    errorTypes: seq<ErrorCode>,
    interval: Option<int>,
    backoffRate: Option<int>,
    maxAttempts: Option<int>)

  /** A snapshot of the field: the configured flag and the retriers in insertion order. */
  datatype RetryValue = RetryValue(configured: bool, retriers: seq<RetrierValue>)

  const FreshRetry := RetryValue(false, [])

  /** `createRetrier(code)`: appends a retrier for the single code, attributes unset, and configures the field. */
  function AddRetrier(v: RetryValue, code: ErrorCode): (r: RetryValue)
    ensures r.configured
    ensures |r.retriers| == |v.retriers| + 1 && r.retriers[..|v.retriers|] == v.retriers
    ensures Last(r.retriers) == RetrierValue([code], None, None, None)
  {
    RetryValue(true, v.retriers + [RetrierValue([code], None, None, None)])
  }

  function Last<T>(s: seq<T>): T
    requires s != []
  {
    s[|s| - 1]
  }

  class Retrier {
    var errorTypes: seq<ErrorCode>
    var interval: Option<int>
    var backoffRate: Option<int>
    var maxAttempts: Option<int>

    function Value(): RetrierValue
      reads this
    {
      RetrierValue(errorTypes, interval, backoffRate, maxAttempts)
    }

    /** The attributes start as `null`; the codes are set by `createRetrier` right after construction. */
    constructor()
      ensures Value() == RetrierValue([], None, None, None)
    {
      errorTypes := [];
      interval := None;
      backoffRate := None;
      maxAttempts := None;
    }

    method SetErrorTypes(codes: seq<ErrorCode>)
      modifies this
      ensures Value() == old(Value()).(errorTypes := codes)
    {
      errorTypes := codes;
    }

    /** `getErrorTypes()` returns a copy; a sequence value is one. */
    function GetErrorTypes(): seq<ErrorCode>
      reads this
    {
      errorTypes
    }

    method SetInterval(seconds: int)
      modifies this
      ensures Value() == old(Value()).(interval := Some(seconds))
    {
      interval := Some(seconds);
    }

    method SetBackoffRate(rate: int)
      modifies this
      ensures Value() == old(Value()).(backoffRate := Some(rate))
    {
      backoffRate := Some(rate);
    }

    method SetMaxAttempts(attempts: int)
      modifies this
      ensures Value() == old(Value()).(maxAttempts := Some(attempts))
    {
      maxAttempts := Some(attempts);
    }

    /** `setInterval(NaN)`: the retrier holds NaN, which reads back as no number. */
    method SetIntervalNotANumber()
      modifies this
      ensures Value() == old(Value()).(interval := None)
    {
      interval := None;
    }

    /** `setBackoffRate(NaN)`: as for the interval. */
    method SetBackoffRateNotANumber()
      modifies this
      ensures Value() == old(Value()).(backoffRate := None)
    {
      backoffRate := None;
    }

    /** `setMaxAttempts(NaN)`: as for the interval. */
    method SetMaxAttemptsNotANumber()
      modifies this
      ensures Value() == old(Value()).(maxAttempts := None)
    {
      maxAttempts := None;
    }
  }

  /** The snapshots of a list of retriers, in order. */
  function RetrierValues(rs: seq<Retrier>): (vs: seq<RetrierValue>)
    reads set r | r in rs
    ensures |vs| == |rs|
    ensures forall i :: 0 <= i < |rs| ==> vs[i] == rs[i].Value()
  {
    if rs == [] then [] else RetrierValues(rs[..|rs| - 1]) + [rs[|rs| - 1].Value()]
  }

  lemma RetrierValuesAppend(rs: seq<Retrier>, r: Retrier)
    ensures RetrierValues(rs + [r]) == RetrierValues(rs) + [r.Value()]
  {
    assert (rs + [r])[..|rs|] == rs;
  }

  /** The retrier `createRetrier(code)` builds: fresh, with the one code and no attributes. */
  method NewRetrier(code: ErrorCode) returns (r: Retrier)
    ensures fresh(r) && r.Value() == RetrierValue([code], None, None, None)
  {
    r := new Retrier();
    r.SetErrorTypes([code]);
  }

  class RetryField {
    var configured: bool
    var retriers: seq<Retrier>

    ghost function Repr(): set<object>
      reads this
    {
      {this} + (set r | r in retriers :: r as object)
    }

    /** Every retrier appears once, so updating one through its handle touches one entry. */
    ghost predicate Valid()
      reads this
    {
      forall i, j :: 0 <= i < j < |retriers| ==> retriers[i] != retriers[j]
    }

    function Value(): RetryValue
      reads this, set r | r in retriers
    {
      RetryValue(configured, RetrierValues(retriers))
    }

    constructor()
      ensures Valid() && Value() == FreshRetry
      ensures retriers == [] && Repr() == {this}
    {
      configured := false;
      retriers := [];
    }

    /** `getRetries()` returns a copy of the list. */
    function GetRetries(): seq<Retrier>
      reads this
    {
      retriers
    }

    /**
     * `createRetrier(code)`, and through it the seven named helpers
     * (`timeout`, `all`, `taskFailure`, `permissions`, `resultPathMatchFailure`,
     * `branchFailure`, `noChoiceMatch`), each passing its own code.
     */
    method CreateRetrier(code: ErrorCode) returns (r: Retrier)
      requires Valid()
      modifies this
      ensures Valid() && fresh(r)
      ensures retriers == old(retriers) + [r]
      ensures Value() == AddRetrier(old(Value()), code)
    {
      r := NewRetrier(code);
      RetrierValuesAppend(retriers, r);
      retriers := retriers + [r];
      configured := true;
    }
  }
}
