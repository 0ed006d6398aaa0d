/**
 * The Catch hydrator (src/hydrators/aws/CatchFieldHydrator.ts). Its `extract`
 * writes the same objects as `Generator.GenerateCatch`; its `hydrate` walks
 * the `Catch` list, creating one catcher per entry and hydrating the
 * catcher's own next and result-path fields from the same entry.
 */
module CatchHydrators {
  import opened Wrappers
  import opened Json
  import opened Failures
  import opened NextFields
  import opened ResultPathFields
  import opened RetryFields
  import opened CatchFields
  import opened Generator
  import opened FieldHydrators

  /** `catcherData.ErrorEquals`, stored verbatim: a list of strings, or nothing when it is anything else. */
  function NamesOf(items: seq<Json>): (r: Option<seq<string>>)
    ensures r.Some? ==> Texts(r.value) == items
  {
    if items == [] then Some([])
    else if !items[0].JStr? then None
    else
      match NamesOf(items[1..])
      case None => None
      case Some(rest) =>
        TextsCons(items[0].s, rest, items);
        Some([items[0].s] + rest)
  }

  lemma TextsCons(s: string, rest: seq<string>, items: seq<Json>)
    requires items != [] && items[0] == JStr(s) && Texts(rest) == items[1..]
    ensures Texts([s] + rest) == items
  {
    var t := Texts([s] + rest);
    assert forall i :: 1 <= i < |items| ==> t[i] == Texts(rest)[i - 1];
  }

  lemma {:induction false} NamesOfTexts(names: seq<string>)
    ensures NamesOf(Texts(names)) == Some(names)
  {
    if names != [] {
      assert Texts(names)[1..] == Texts(names[1..]);
      NamesOfTexts(names[1..]);
      assert [names[0]] + names[1..] == names;
    }
  }

  /** The error names of a catch entry; an entry that is not an object, or a list that is not of strings, is ill-typed. */
  function EntryNames(entry: Json): Result<seq<string>>
  {
    if !entry.JObj? then Err(IllTyped("Catch"))
    else match Lookup(entry.members, "ErrorEquals")
      case Some(JArr(items)) => if NamesOf(items).Some? then Ok(NamesOf(items).value) else Err(IllTyped("ErrorEquals"))
      case _ => Err(IllTyped("ErrorEquals"))
  }

  /**
   * A catcher created by `errors(names)` and then hydrated: its next field
   * first, then its result path; a failure keeps what was set before it.
   */
  function FillCatcher(c: CatcherValue, entry: seq<Member>): (f: Effect<CatcherValue>)
    ensures f.state.errors == c.errors
  {
    match HydrateNextValue(c.next, entry)
    case Err(e) => Effect(c, Some(e))
    case Ok(n) =>
      match HydrateResultPathValue(c.resultPath, entry)
      case Err(e) => Effect(c.(next := n), Some(e))
      case Ok(rp) => Effect(c.(next := n, resultPath := rp), None)
  }

  /**
   * One iteration of the `forEach` in `hydrate`: the catcher is appended
   * before its fields are hydrated, so it stays in the field when they throw.
   */
  function HydrateCatcherValue(v: CatchValue, owner: string, entry: Json): (r: Effect<CatchValue>)
    ensures EntryNames(entry).Err? ==> r == Effect(v, Some(EntryNames(entry).error))
    ensures EntryNames(entry).Ok? ==>
              r.state.configured && |r.state.catchers| == |v.catchers| + 1
              && r.state.catchers[..|v.catchers|] == v.catchers
              && Last(r.state.catchers).errors == EntryNames(entry).value
  {
    match EntryNames(entry)
    case Err(e) => Effect(v, Some(e))
    case Ok(names) =>
      var filled := FillCatcher(FreshCatcher(owner).(errors := names), entry.members);
      assert (v.catchers + [filled.state])[..|v.catchers|] == v.catchers;
      Effect(CatchValue(true, v.catchers + [filled.state]), filled.thrown)
  }

  function HydrateCatchers(v: CatchValue, owner: string, entries: seq<Json>): (r: Effect<CatchValue>)
    ensures r.thrown.None? ==> |r.state.catchers| == |v.catchers| + |entries|
    ensures r.thrown.None? ==> r.state.catchers[..|v.catchers|] == v.catchers
    decreases |entries|
  {
    if entries == [] then Effect(v, None)
    else
      var step := HydrateCatcherValue(v, owner, entries[0]);
      if step.thrown.Some? then step else HydrateCatchers(step.state, owner, entries[1..])
  }

  /** One turn of the `forEach`: the rest of the list from `i` is entry `i`, then the rest after it. */
  lemma CatchersAt(v: CatchValue, owner: string, entries: seq<Json>, i: nat)
    requires i < |entries|
    ensures var step := HydrateCatcherValue(v, owner, entries[i]);
            HydrateCatchers(v, owner, entries[i..])
            == if step.thrown.Some? then step else HydrateCatchers(step.state, owner, entries[i + 1..])
  {
    assert entries[i..][0] == entries[i] && entries[i..][1..] == entries[i + 1..];
  }

  /** `CatchFieldHydrator.hydrate` on a snapshot: `data.Catch.forEach`, so a missing list is a TypeError. */
  function HydrateCatchValue(v: CatchValue, owner: string, data: seq<Member>): (r: Effect<CatchValue>)
    ensures Lookup(data, "Catch").None? || Lookup(data, "Catch") == Some(JNull) ==>
              r == Effect(v, Some(UndefinedAccess("Catch")))
    ensures Lookup(data, "Catch") == Some(JArr([])) ==> r == Effect(v, None)
  {
    match Lookup(data, "Catch")
    case None => Effect(v, Some(UndefinedAccess("Catch")))
    case Some(JNull) => Effect(v, Some(UndefinedAccess("Catch")))
    case Some(JArr(entries)) => HydrateCatchers(v, owner, entries)
    case Some(_) => Effect(v, Some(IllTyped("Catch")))
  }

  // ----- on the objects -----

  /** The catcher's next field, then its result path, from the same entry. */
  method FillCatcherObject(c: ErrorCatcher, entry: seq<Member>) returns (thrown: Option<Failure>)
    modifies c.next, c.resultPath
    ensures Effect(c.Value(), thrown) == FillCatcher(old(c.Value()), entry)
  {
    thrown := HydrateNext(c.next, entry);
    if thrown.None? {
      thrown := HydrateResultPath(c.resultPath, entry);
    }
  }

  /** One iteration of the `forEach` on the field object. */
  method HydrateCatcher(field: CatchField, entry: Json) returns (thrown: Option<Failure>)
    requires field.Valid()
    modifies field
    ensures field.Valid()
    ensures field.Value() == HydrateCatcherValue(old(field.Value()), field.owner, entry).state
    ensures thrown == HydrateCatcherValue(old(field.Value()), field.owner, entry).thrown
  {
    var names := EntryNames(entry);
    if names.Err? {
      return Some(names.error);
    }
    ghost var before := field.catchers;
    ghost var prior := field.Value();
    var catcher := field.Errors(names.value);
    CatcherValuesAppend(before, catcher);
    ghost var start := catcher.Value();
    assert start == FreshCatcher(field.owner).(errors := names.value);
    thrown := FillCatcherObject(catcher, entry.members);
    ghost var filled := FillCatcher(start, entry.members);
    assert CatcherValues(before) == prior.catchers;
    CatcherValuesAppend(before, catcher);
    assert field.Value() == CatchValue(true, prior.catchers + [filled.state]);
  }

  /** `CatchFieldHydrator.hydrate(field, data)`: the `forEach` stops at the first entry that throws. */
  method HydrateCatch(field: CatchField, data: seq<Member>) returns (thrown: Option<Failure>)
    requires field.Valid()
    modifies field
    ensures field.Valid()
    ensures field.Value() == HydrateCatchValue(old(field.Value()), field.owner, data).state
    ensures thrown == HydrateCatchValue(old(field.Value()), field.owner, data).thrown
  {
    ghost var v0 := field.Value();
    var list := Lookup(data, "Catch");
    if list.None? || list == Some(JNull) {
      return Some(UndefinedAccess("Catch"));
    }
    if !list.value.JArr? {
      return Some(IllTyped("Catch"));
    }
    var entries := list.value.items;
    assert HydrateCatchValue(v0, field.owner, data) == HydrateCatchers(v0, field.owner, entries);
    var i := 0;
    while i < |entries|
      invariant 0 <= i <= |entries|
      invariant field.Valid()
      invariant HydrateCatchers(v0, field.owner, entries) == HydrateCatchers(field.Value(), field.owner, entries[i..])
    {
      CatchersAt(field.Value(), field.owner, entries, i);
      thrown := HydrateCatcher(field, entries[i]);
      if thrown.Some? {
        return;
      }
      i := i + 1;
    }
    return None;
  }

  // ----- round trip -----

  /** A catcher whose extract the hydrator reads back: an unlocked next field without an empty target, and a valid result path. */
  predicate Restorable(c: CatcherValue)
  {
    !c.next.locked && (c.next.isEnd || c.next.target != Some("")) && ValidateResultPath(c.resultPath) == None
  }

  /** The result path of a catcher is written only when configured, and read back to the same encoding. */
  lemma CatcherResultPathRoundTrip(c: CatcherValue, entry: seq<Member>)
    requires ValidateResultPath(c.resultPath) == None
    requires Lookup(entry, "ResultPath") == if c.resultPath.configured then Some(ResultPathJson(c.resultPath)) else None
    ensures var h := HydrateResultPathValue(FreshResultPath, entry);
            h.Ok? && h.value.configured == c.resultPath.configured
            && (c.resultPath.configured ==> GenerateResultPath(h.value) == GenerateResultPath(c.resultPath))
  {
    if c.resultPath.configured {
      ResultPathRoundTrip(c.resultPath);
      assert HydrateResultPathValue(FreshResultPath, entry)
          == HydrateResultPathValue(FreshResultPath, GenerateResultPath(c.resultPath));
    }
  }

  /** The next field of a catcher is read back from the End and Next keys of its entry. */
  lemma CatcherNextRoundTrip(c: CatcherValue, owner: string, entry: seq<Member>)
    requires !c.next.locked && (c.next.isEnd || c.next.target != Some(""))
    requires Lookup(entry, "End") == Lookup(GenerateNext(c.next), "End")
    requires Lookup(entry, "Next") == Lookup(GenerateNext(c.next), "Next")
    ensures var h := HydrateNextValue(FreshNext(owner, false, false), entry);
            h.Ok? && GenerateNext(h.value) == GenerateNext(c.next)
  {
    NextModelRoundTrip(c.next, owner);
    assert HydrateNextValue(FreshNext(owner, false, false), entry)
        == HydrateNextValue(FreshNext(owner, false, false), GenerateNext(c.next));
  }

  /** The catcher `hydrate` builds from the extract of `c`. */
  function Rebuilt(owner: string, c: CatcherValue): CatcherValue
  {
    FillCatcher(FreshCatcher(owner).(errors := c.errors), GenerateCatcher(c)).state
  }

  function RebuiltAll(owner: string, cs: seq<CatcherValue>): (rs: seq<CatcherValue>)
    ensures |rs| == |cs|
  {
    if cs == [] then [] else [Rebuilt(owner, cs[0])] + RebuiltAll(owner, cs[1..])
  }

  lemma {:induction false} RebuiltAllAt(owner: string, cs: seq<CatcherValue>, i: nat)
    requires i < |cs|
    ensures RebuiltAll(owner, cs)[i] == Rebuilt(owner, cs[i])
  {
    if i > 0 {
      RebuiltAllAt(owner, cs[1..], i - 1);
    }
  }

  /** Hydrating one extracted catcher appends the rebuilt catcher and throws nothing. */
  lemma CatcherRoundTrip(v: CatchValue, owner: string, c: CatcherValue)
    requires Restorable(c)
    ensures HydrateCatcherValue(v, owner, JObj(GenerateCatcher(c)))
            == Effect(CatchValue(true, v.catchers + [Rebuilt(owner, c)]), None)
  {
    var entry := GenerateCatcher(c);
    NamesOfTexts(c.errors);
    assert EntryNames(JObj(entry)) == Ok(c.errors);
    CatcherNextRoundTrip(c, owner, entry);
    CatcherResultPathRoundTrip(c, entry);
  }

  /** The rebuilt catcher extracts the same as the original. */
  lemma RebuiltExtractsSame(owner: string, c: CatcherValue)
    requires Restorable(c)
    ensures GenerateCatcher(Rebuilt(owner, c)) == GenerateCatcher(c)
  {
    var entry := GenerateCatcher(c);
    CatcherNextRoundTrip(c, owner, entry);
    CatcherResultPathRoundTrip(c, entry);
  }

  lemma CatchersStep(v: CatchValue, owner: string, entries: seq<Json>)
    requires entries != [] && HydrateCatcherValue(v, owner, entries[0]).thrown.None?
    ensures HydrateCatchers(v, owner, entries)
            == HydrateCatchers(HydrateCatcherValue(v, owner, entries[0]).state, owner, entries[1..])
  {
  }

  lemma CatchEntriesTail(cs: seq<CatcherValue>)
    requires cs != []
    ensures CatchEntries(cs)[0] == JObj(GenerateCatcher(cs[0]))
    ensures CatchEntries(cs)[1..] == CatchEntries(cs[1..])
  {
  }

  lemma RebuiltAllCons(owner: string, prefix: seq<CatcherValue>, cs: seq<CatcherValue>)
    requires cs != []
    ensures prefix + [Rebuilt(owner, cs[0])] + RebuiltAll(owner, cs[1..]) == prefix + RebuiltAll(owner, cs)
  {
    ConcatAssoc(prefix, [Rebuilt(owner, cs[0])], RebuiltAll(owner, cs[1..]));
  }

  /**
   * Hydrating the extract of restorable catchers appends, in order, one
   * rebuilt catcher per extracted one, and throws nothing.
   */
  lemma {:induction false} CatchersRoundTrip(v: CatchValue, owner: string, cs: seq<CatcherValue>)
    requires forall i :: 0 <= i < |cs| ==> Restorable(cs[i])
    ensures HydrateCatchers(v, owner, CatchEntries(cs))
            == Effect(CatchValue(v.configured || cs != [], v.catchers + RebuiltAll(owner, cs)), None)
    decreases |cs|
  {
    if cs == [] {
      assert v.catchers + RebuiltAll(owner, cs) == v.catchers;
    } else {
      var entries := CatchEntries(cs);
      CatchEntriesTail(cs);
      CatcherRoundTrip(v, owner, cs[0]);
      var next := CatchValue(true, v.catchers + [Rebuilt(owner, cs[0])]);
      CatchersStep(v, owner, entries);
      CatchersRoundTrip(next, owner, cs[1..]);
      RebuiltAllCons(owner, v.catchers, cs);
    }
  }

  /**
   * Round trip: hydrating a fresh field with the extract of restorable
   * catchers gives a field that extracts the same `Catch` list.
   */
  lemma CatchRoundTrip(owner: string, v: CatchValue)
    requires forall i :: 0 <= i < |v.catchers| ==> Restorable(v.catchers[i])
    ensures var r := HydrateCatchValue(FreshCatch, owner, GenerateCatch(v));
            r.thrown.None? && GenerateCatch(r.state) == GenerateCatch(v)
  {
    var entries := CatchEntries(v.catchers);
    CatchersRoundTrip(FreshCatch, owner, v.catchers);
    assert Lookup(GenerateCatch(v), "Catch") == Some(JArr(entries));
    var got := RebuiltAll(owner, v.catchers);
    assert FreshCatch.catchers + got == got;
    forall i | 0 <= i < |got| ensures GenerateCatcher(got[i]) == GenerateCatcher(v.catchers[i]) {
      RebuiltAllAt(owner, v.catchers, i);
      RebuiltExtractsSame(owner, v.catchers[i]);
    }
    SameEntries(got, v.catchers);
  }

  /** Catchers that extract pointwise the same give the same `Catch` list. */
  lemma SameEntries(a: seq<CatcherValue>, b: seq<CatcherValue>)
    requires |a| == |b| && forall i :: 0 <= i < |a| ==> GenerateCatcher(a[i]) == GenerateCatcher(b[i])
    ensures CatchEntries(a) == CatchEntries(b)
  {
  }
}
