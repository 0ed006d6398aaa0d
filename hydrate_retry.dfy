/**
 * The Retry hydrator (src/hydrators/aws/RetryFieldHydrator.ts): `extract`
 * writes each retrier with its codes under their `States.*` names; `hydrate`
 * walks the `Retry` list, creating one retrier per entry.
 */
module RetryHydrators {
  import opened Wrappers
  import opened Json
  import opened Failures
  import opened RetryFields
  import opened ErrorNames
  import opened Generator
  import opened ParseInts

  /**
   * The `map` callback of `extract`: the named codes, then MaxAttempts,
   * BackoffRate and IntervalSeconds, each only when it is not null.
   */
  function ExtractRetrier(r: RetrierValue): seq<Member>
  {
    PutSet(PutSet(PutSet([("ErrorEquals", JArr(NamedCodes(r.errorTypes)))], "MaxAttempts", r.maxAttempts),
                  "BackoffRate", r.backoffRate),
           "IntervalSeconds", r.interval)
  }

  /** The `Retry` list `extract` writes: one object per retrier, in order. */
  function RetryEntries(rs: seq<RetrierValue>): (es: seq<Json>)
    ensures |es| == |rs| && forall i :: 0 <= i < |rs| ==> es[i] == JObj(ExtractRetrier(rs[i]))
  {
    seq(|rs|, i requires 0 <= i < |rs| => JObj(ExtractRetrier(rs[i])))
  }

  function ExtractRetry(v: RetryValue): seq<Member>
  {
    [("Retry", JArr(RetryEntries(v.retriers)))]
  }

  /**
   * The generator assigns MaxAttempts a second time, after BackoffRate; the
   * second write finds the key already holding the same value, so the
   * generator and the hydrator's `extract` write the same object.
   */
  lemma ExtractAgreesWithGenerator(r: RetrierValue)
    ensures ExtractRetrier(r) == GenerateRetrier(r)
  {
    var d0 := [("ErrorEquals", JArr(NamedCodes(r.errorTypes)))];
    var d1 := PutSet(d0, "MaxAttempts", r.maxAttempts);
    var d2 := PutSet(d1, "BackoffRate", r.backoffRate);
    if r.maxAttempts.Some? {
      var m := ("MaxAttempts", JNum(r.maxAttempts.value));
      AbsentKey(d0, "MaxAttempts");
      assert d1 == d0 + [m];
      if r.backoffRate.Some? {
        AbsentKey(d1, "BackoffRate");
        assert d2 == d1 + [("BackoffRate", JNum(r.backoffRate.value))];
      }
      assert DistinctKeys(d2) && d2[1] == m;
      PutExisting(d2, 1);
      assert PutSet(d2, "MaxAttempts", r.maxAttempts) == d2;
    }
  }

  lemma ExtractRetryAgrees(v: RetryValue)
    ensures ExtractRetry(v) == GenerateRetry(v)
  {
    forall i | 0 <= i < |v.retriers| ensures ExtractRetrier(v.retriers[i]) == GenerateRetrier(v.retriers[i]) {
      ExtractAgreesWithGenerator(v.retriers[i]);
    }
    assert RetryEntries(v.retriers)
        == seq(|v.retriers|, i requires 0 <= i < |v.retriers| => JObj(GenerateRetrier(v.retriers[i])));
  }

  // ----- hydrate -----

  /** `ErrorEquals.map(findErrorCode)`: every name decoded, or the failure of the first name that is not a code. */
  function CodesOf(names: seq<Json>): (r: Result<seq<ErrorCode>>)
    ensures r.Ok? ==> |r.value| == |names| && forall i :: 0 <= i < |names| ==> CodeOf(Some(names[i])) == Ok(r.value[i])
    ensures r.Err? ==> exists i :: 0 <= i < |names| && CodeOf(Some(names[i])) == Err(r.error)
  {
    if names == [] then Ok([])
    else
      var first :- CodeOf(Some(names[0]));
      var rest :- CodesOf(names[1..]);
      assert forall i :: 1 <= i < |names| ==> names[i] == names[1..][i - 1];
      Ok([first] + rest)
  }

  /** The codes read back from their wire names are the codes written. */
  lemma {:induction false} CodesOfNamed(cs: seq<ErrorCode>)
    ensures CodesOf(NamedCodes(cs)) == Ok(cs)
  {
    if cs != [] {
      WireNameBijective(cs[0], cs[0]);
      assert NamedCodes(cs)[1..] == NamedCodes(cs[1..]);
      CodesOfNamed(cs[1..]);
      assert [cs[0]] + cs[1..] == cs;
    }
  }

  /** The three attributes, in the order the hydrator sets them. */
  datatype Attribute = MaxAttempts | BackoffRate | IntervalSeconds

  function AttributeKey(a: Attribute): string
  {
    match a
    case MaxAttempts => "MaxAttempts"
    case BackoffRate => "BackoffRate"
    case IntervalSeconds => "IntervalSeconds"
  }

  /** The attribute's value in a retrier: a number, or `None` for null or NaN. */
  function AttributeOf(r: RetrierValue, a: Attribute): Option<int>
  {
    match a
    case MaxAttempts => r.maxAttempts
    case BackoffRate => r.backoffRate
    case IntervalSeconds => r.interval
  }

  function Store(r: RetrierValue, a: Attribute, n: Option<int>): RetrierValue
  {
    match a
    case MaxAttempts => r.(maxAttempts := n)
    case BackoffRate => r.(backoffRate := n)
    case IntervalSeconds => r.(interval := n)
  }

  /**
   * `if (retry.X !== undefined) retrier.setX(parseInt(retry.X))`: a present
   * value, `null` included, is parsed and stored, NaN as no number; the codes
   * and the other attributes stay as they were.
   */
  function AttributeStep(r: RetrierValue, entry: seq<Member>, a: Attribute): (s: RetrierValue)
    ensures Lookup(entry, AttributeKey(a)).None? ==> s == r
    ensures Lookup(entry, AttributeKey(a)).Some? ==> AttributeOf(s, a) == ParseInt(Lookup(entry, AttributeKey(a)).value)
    ensures s.errorTypes == r.errorTypes && forall b :: b != a ==> AttributeOf(s, b) == AttributeOf(r, b)
  {
    match Lookup(entry, AttributeKey(a))
    case None => r
    case Some(v) => Store(r, a, ParseInt(v))
  }

  /** An attribute written as decimal text, as in `"MaxAttempts": "3"`, is stored as its number. */
  lemma AttributeReadsDecimalText(r: RetrierValue, a: Attribute, n: int)
    ensures AttributeOf(AttributeStep(r, [(AttributeKey(a), JStr(DecimalText(n)))], a), a) == Some(n)
  {
    DecimalRoundTrip(n, []);
    assert DecimalText(n) + [] == DecimalText(n);
  }

  /** The three attribute steps in order. */
  function SetAttributes(r: RetrierValue, entry: seq<Member>): RetrierValue
  {
    AttributeStep(AttributeStep(AttributeStep(r, entry, MaxAttempts), entry, BackoffRate), entry, IntervalSeconds)
  }

  /** `retry.ErrorEquals`: reading `[0]` of a missing list is a TypeError. */
  function ErrorEqualsOf(entry: Json): (r: Result<seq<Json>>)
  {
    if !entry.JObj? then Err(UndefinedAccess("ErrorEquals"))
    else match Lookup(entry.members, "ErrorEquals")
      case None => Err(UndefinedAccess("ErrorEquals"))
      case Some(JNull) => Err(UndefinedAccess("ErrorEquals"))
      case Some(JArr(items)) => Ok(items)
      case Some(_) => Err(IllTyped("ErrorEquals"))
  }

  /** `retry.ErrorEquals[0]`: `undefined` for an empty list. */
  function First(items: seq<Json>): Option<Json>
  {
    if items == [] then None else Some(items[0])
  }

  /** A retrier appended to the field, which becomes configured. */
  function Appended(v: RetryValue, r: RetrierValue): RetryValue
  {
    RetryValue(true, v.retriers + [r])
  }

  /**
   * What happens to a newly created retrier: the attributes are set, then the
   * whole list is decoded and stored; a failure to decode keeps the attributes.
   */
  function FillRetrier(r: RetrierValue, entry: seq<Member>, items: seq<Json>): (f: Effect<RetrierValue>)
    ensures f.thrown.None? <==> CodesOf(items).Ok?
    ensures f.thrown.None? ==> CodesOf(items) == Ok(f.state.errorTypes)
  {
    var attributes := SetAttributes(r, entry);
    match CodesOf(items)
    case Err(e) => Effect(attributes, Some(e))
    case Ok(codes) => Effect(attributes.(errorTypes := codes), None)
  }

  /**
   * One iteration of the `forEach` in `hydrate`: the first name is decoded and
   * the retrier created with it, then it is filled in. A failure after the
   * retrier is created leaves it in the field.
   */
  function HydrateRetrierValue(v: RetryValue, entry: Json): (r: Effect<RetryValue>)
    ensures r.thrown.None? ==> |r.state.retriers| == |v.retriers| + 1 && r.state.configured
    ensures r.thrown.None? ==> r.state.retriers[..|v.retriers|] == v.retriers
    ensures r.thrown.None? ==> ErrorEqualsOf(entry).Ok? && CodesOf(ErrorEqualsOf(entry).value) == Ok(Last(r.state.retriers).errorTypes)
    ensures ErrorEqualsOf(entry).Ok? && ErrorEqualsOf(entry).value == [] ==> r == Effect(v, Some(UnsupportedErrorCode(None)))
    ensures r.thrown.Some? ==> r.state == v || (|r.state.retriers| == |v.retriers| + 1 && r.state.retriers[..|v.retriers|] == v.retriers)
  {
    match ErrorEqualsOf(entry)
    case Err(e) => Effect(v, Some(e))
    case Ok(items) =>
      match CodeOf(First(items))
      case Err(e) => Effect(v, Some(e))
      case Ok(code) =>
        var filled := FillRetrier(RetrierValue([code], None, None, None), entry.members, items);
        Effect(Appended(v, filled.state), filled.thrown)
  }

  /** The `forEach` over the entries: stops at the first entry that throws. */
  function HydrateRetriers(v: RetryValue, entries: seq<Json>): (r: Effect<RetryValue>)
    ensures r.thrown.None? ==> |r.state.retriers| == |v.retriers| + |entries|
    ensures r.thrown.None? ==> r.state.retriers[..|v.retriers|] == v.retriers
    decreases |entries|
  {
    if entries == [] then Effect(v, None)
    else
      var step := HydrateRetrierValue(v, entries[0]);
      if step.thrown.Some? then step else HydrateRetriers(step.state, entries[1..])
  }

  /** `RetryFieldHydrator.hydrate` on a snapshot: `(Retry || [])`, so a missing or falsy list adds nothing. */
  function HydrateRetryValue(v: RetryValue, data: seq<Member>): Effect<RetryValue>
  {
    match Lookup(data, "Retry")
    case None => Effect(v, None)
    case Some(list) =>
      if !Truthy(list) then Effect(v, None)
      else if list.JArr? then HydrateRetriers(v, list.items)
      else Effect(v, Some(IllTyped("Retry")))
  }

  /** `if (retry.X !== undefined) retrier.setX(parseInt(retry.X))` on the retrier object. */
  method ApplyAttribute(retrier: Retrier, entry: seq<Member>, a: Attribute)
    modifies retrier
    ensures retrier.Value() == AttributeStep(old(retrier.Value()), entry, a)
  {
    var value := Lookup(entry, AttributeKey(a));
    if value.None? {
      return;
    }
    var n := ParseInt(value.value);
    match a
    case MaxAttempts =>
      if n.Some? { retrier.SetMaxAttempts(n.value); } else { retrier.SetMaxAttemptsNotANumber(); }
    case BackoffRate =>
      if n.Some? { retrier.SetBackoffRate(n.value); } else { retrier.SetBackoffRateNotANumber(); }
    case IntervalSeconds =>
      if n.Some? { retrier.SetInterval(n.value); } else { retrier.SetIntervalNotANumber(); }
  }

  /** The rest of the `forEach` body once the retrier exists: attributes, then the decoded list. */
  method Fill(retrier: Retrier, entry: seq<Member>, items: seq<Json>) returns (thrown: Option<Failure>)
    modifies retrier
    ensures Effect(retrier.Value(), thrown) == FillRetrier(old(retrier.Value()), entry, items)
  {
    ApplyAttribute(retrier, entry, MaxAttempts);
    ApplyAttribute(retrier, entry, BackoffRate);
    ApplyAttribute(retrier, entry, IntervalSeconds);
    var codes := CodesOf(items);
    if codes.Err? {
      thrown := Some(codes.error);
    } else {
      retrier.SetErrorTypes(codes.value);
      thrown := None;
    }
  }

  /** One iteration of the `forEach` in `hydrate`, on the field object. */
  method HydrateRetrier(field: RetryField, entry: Json) returns (thrown: Option<Failure>)
    requires field.Valid()
    modifies field
    ensures field.Valid()
    ensures field.Value() == HydrateRetrierValue(old(field.Value()), entry).state
    ensures thrown == HydrateRetrierValue(old(field.Value()), entry).thrown
  {
    var list := ErrorEqualsOf(entry);
    if list.Err? {
      return Some(list.error);
    }
    var items := list.value;
    var first := FindErrorCode(First(items));
    if first.Err? {
      return Some(first.error);
    }
    ghost var before := field.retriers;
    ghost var prior := RetrierValues(before);
    var retrier := field.CreateRetrier(first.value);
    thrown := Fill(retrier, entry.members, items);
    RetrierValuesAppend(before, retrier);
    assert RetrierValues(before) == prior;
  }

  /** `RetryFieldHydrator.hydrate(field, data)`: the `forEach` stops at the first entry that throws. */
  method HydrateRetry(field: RetryField, data: seq<Member>) returns (thrown: Option<Failure>)
    requires field.Valid()
    modifies field
    ensures field.Valid()
    ensures field.Value() == HydrateRetryValue(old(field.Value()), data).state
    ensures thrown == HydrateRetryValue(old(field.Value()), data).thrown
  {
    var list := Lookup(data, "Retry");
    if list.None? || !Truthy(list.value) {
      return None;
    }
    if !list.value.JArr? {
      return Some(IllTyped("Retry"));
    }
    var entries := list.value.items;
    var i := 0;
    while i < |entries|
      invariant 0 <= i <= |entries|
      invariant field.Valid()
      invariant HydrateRetriers(old(field.Value()), entries) == HydrateRetriers(field.Value(), entries[i..])
    {
      assert entries[i..][0] == entries[i] && entries[i..][1..] == entries[i + 1..];
      thrown := HydrateRetrier(field, entries[i]);
      if thrown.Some? {
        return;
      }
      i := i + 1;
    }
    return None;
  }

  /** Without a truthy `Retry` list the field is left as it was, unconfigured if it was. */
  lemma MissingRetryCreatesNothing(v: RetryValue, data: seq<Member>)
    requires Lookup(data, "Retry").None? || Lookup(data, "Retry") == Some(JNull)
    ensures HydrateRetryValue(v, data) == Effect(v, None)
  {
  }

  /** What `extract` writes under each key of one retrier. */
  lemma ExtractLookups(r: RetrierValue)
    ensures Lookup(ExtractRetrier(r), "ErrorEquals") == Some(JArr(NamedCodes(r.errorTypes)))
    ensures Lookup(ExtractRetrier(r), "MaxAttempts") == NumberOf(r.maxAttempts)
    ensures Lookup(ExtractRetrier(r), "BackoffRate") == NumberOf(r.backoffRate)
    ensures Lookup(ExtractRetrier(r), "IntervalSeconds") == NumberOf(r.interval)
  {
    ExtractAgreesWithGenerator(r);
  }

  /** Attributes written only when not null are read back as exactly the same attributes. */
  lemma AttributesRoundTrip(base: RetrierValue, entry: seq<Member>, r: RetrierValue)
    requires Lookup(entry, "MaxAttempts") == NumberOf(r.maxAttempts)
    requires Lookup(entry, "BackoffRate") == NumberOf(r.backoffRate)
    requires Lookup(entry, "IntervalSeconds") == NumberOf(r.interval)
    requires base.maxAttempts.None? && base.backoffRate.None? && base.interval.None?
    ensures SetAttributes(base, entry)
            == base.(maxAttempts := r.maxAttempts, backoffRate := r.backoffRate, interval := r.interval)
  {
  }

  /** Hydrating one extracted retrier rebuilds it exactly. */
  lemma RetrierRoundTrip(v: RetryValue, r: RetrierValue)
    requires r.errorTypes != []
    ensures HydrateRetrierValue(v, JObj(ExtractRetrier(r))) == Effect(Appended(v, r), None)
  {
    var entry := ExtractRetrier(r);
    ExtractLookups(r);
    WireNameBijective(r.errorTypes[0], r.errorTypes[0]);
    CodesOfNamed(r.errorTypes);
    AttributesRoundTrip(RetrierValue([r.errorTypes[0]], None, None, None), entry, r);
    assert FillRetrier(RetrierValue([r.errorTypes[0]], None, None, None), entry, NamedCodes(r.errorTypes)) == Effect(r, None);
  }

  /** Hydrating the extract of a list of retriers appends them all, in order. */
  lemma {:induction false} RetriersRoundTrip(v: RetryValue, rs: seq<RetrierValue>)
    requires forall i :: 0 <= i < |rs| ==> rs[i].errorTypes != []
    ensures HydrateRetriers(v, RetryEntries(rs)) == Effect(if rs == [] then v else RetryValue(true, v.retriers + rs), None)
    decreases |rs|
  {
    if rs != [] {
      var next := Appended(v, rs[0]);
      RetriersHead(v, rs);
      RetriersRoundTrip(next, rs[1..]);
      AppendedRest(v, rs);
    }
  }

  /** Appending the head and then the rest appends the whole list. */
  lemma AppendedRest(v: RetryValue, rs: seq<RetrierValue>)
    requires rs != []
    ensures (if rs[1..] == [] then Appended(v, rs[0]) else RetryValue(true, Appended(v, rs[0]).retriers + rs[1..]))
            == RetryValue(true, v.retriers + rs)
  {
    if rs[1..] == [] {
      assert rs == [rs[0]];
    } else {
      assert Appended(v, rs[0]).retriers + rs[1..] == v.retriers + rs;
    }
  }

  /** The first extracted retrier is rebuilt, and the walk goes on with the rest. */
  lemma RetriersHead(v: RetryValue, rs: seq<RetrierValue>)
    requires rs != [] && rs[0].errorTypes != []
    ensures HydrateRetriers(v, RetryEntries(rs)) == HydrateRetriers(Appended(v, rs[0]), RetryEntries(rs[1..]))
  {
    var entries := RetryEntries(rs);
    RetrierRoundTrip(v, rs[0]);
    RetriersStep(v, entries);
    assert entries[1..] == RetryEntries(rs[1..]);
  }

  lemma RetriersStep(v: RetryValue, entries: seq<Json>)
    requires entries != [] && HydrateRetrierValue(v, entries[0]).thrown.None?
    ensures HydrateRetriers(v, entries) == HydrateRetriers(HydrateRetrierValue(v, entries[0]).state, entries[1..])
  {
  }

  /**
   * Round trip: for retriers that each hold at least one code, hydrating a
   * fresh field with the extract gives back the same retriers, in order; the
   * field is configured exactly when there is one.
   */
  lemma RetryRoundTrip(v: RetryValue)
    requires forall i :: 0 <= i < |v.retriers| ==> v.retriers[i].errorTypes != []
    ensures HydrateRetryValue(FreshRetry, ExtractRetry(v)) == Effect(RetryValue(v.retriers != [], v.retriers), None)
  {
    RetriersRoundTrip(FreshRetry, v.retriers);
  }

  /** An entry naming an unknown error throws, whatever else it holds. */
  lemma UnknownNameThrows(v: RetryValue, name: string)
    requires CodeNamed(name).None?
    ensures HydrateRetrierValue(v, JObj([("ErrorEquals", JArr([JStr(name)]))])).thrown == Some(UnsupportedErrorCode(Some(JStr(name))))
  {
  }
}
