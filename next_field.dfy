/** The `Next`/`End` transition of a state (src/fields/NextField.ts). */
module NextFields {
  import opened Wrappers
  import opened Failures
  import opened FieldBase

  /**
   * A snapshot of a next field. `target` is the stored state name (`undefined`
   * until `set` is called); `isEnd` is the terminal flag; `endForbidden` and
   * `locked` are fixed when the field is built.
   */
  datatype NextValue = NextValue(
    owner: string,
    configured: bool,
    target: Option<string>,
    isEnd: bool,
    endForbidden: bool,
    locked: bool)

  /** Owner and options never change after construction. */
  predicate SameIdentity(a: NextValue, b: NextValue)
  {
    a.owner == b.owner && a.locked == b.locked && a.endForbidden == b.endForbidden
  }

  /** A newly built next field: unconfigured, no target, not terminal. */
  function FreshNext(owner: string, endForbidden: bool, locked: bool): NextValue
  {
    NextValue(owner, false, None, false, endForbidden, locked)
  }

  /** `NextField.validate`: a locked field is always valid; otherwise it is required. */
  function ValidateNext(n: NextValue): (r: Option<Failure>)
    ensures r.Some? <==> !n.locked && !n.configured
    ensures r.Some? ==> r.value == ConfigurationMissing(NextFieldKind)
  {
    if n.locked then None else RequiredCheck(NextFieldKind, true, n.configured)
  }

  /** `set(target)`: refused on a locked field; otherwise records the name and clears the terminal flag. */
  function SetTarget(n: NextValue, name: string): (r: Result<NextValue>)
    ensures r.Err? <==> n.locked
    ensures r.Err? ==> r.error == NextFieldLocked
    ensures r.Ok? ==> r.value.target == Some(name) && !r.value.isEnd && r.value.configured
    ensures r.Ok? ==> SameIdentity(r.value, n)
  {
    if n.locked then Err(NextFieldLocked)
    else Ok(n.(target := Some(name), isEnd := false, configured := true))
  }

  /** `end()`: the end-forbidden test comes before the lock test; a success keeps any stored name. */
  function MarkEnd(n: NextValue): (r: Result<NextValue>)
    ensures n.endForbidden ==> r == Err(EndForbidden(n.owner))
    ensures !n.endForbidden && n.locked ==> r == Err(NextFieldLocked)
    ensures r.Ok? <==> !n.endForbidden && !n.locked
    ensures r.Ok? ==> r.value.isEnd && r.value.configured && r.value.target == n.target
    ensures r.Ok? ==> SameIdentity(r.value, n)
  {
    if n.endForbidden then Err(EndForbidden(n.owner))
    else if n.locked then Err(NextFieldLocked)
    else Ok(n.(isEnd := true, configured := true))
  }

  /** A fresh unlocked field fails validation until `set` or `end` succeeds on it. */
  lemma ConfigureToValidate(owner: string, endForbidden: bool, name: string)
    ensures ValidateNext(FreshNext(owner, endForbidden, false)) == Some(ConfigurationMissing(NextFieldKind))
    ensures ValidateNext(SetTarget(FreshNext(owner, endForbidden, false), name).value) == None
    ensures !endForbidden ==> ValidateNext(MarkEnd(FreshNext(owner, endForbidden, false)).value) == None
  {
  }

  /** `set` after `end` makes the field non-terminal; `end` after `set` keeps the name. */
  lemma SetAndEndInteract(n: NextValue, name: string)
    requires !n.locked && !n.endForbidden
    ensures var e := MarkEnd(n).value; var s := SetTarget(e, name).value;
            !s.isEnd && s.target == Some(name)
    ensures var s := SetTarget(n, name).value; var e := MarkEnd(s).value;
            e.isEnd && e.target == Some(name)
  {
  }

  /** A locked field refuses `set` and `end` and is always valid. */
  lemma LockedRefusesEverything(n: NextValue, name: string)
    requires n.locked && !n.endForbidden
    ensures SetTarget(n, name) == Err(NextFieldLocked)
    ensures MarkEnd(n) == Err(NextFieldLocked)
    ensures ValidateNext(n) == None
  {
  }

  class NextField {
    const owner: string
    const endForbidden: bool
    const locked: bool
    var configured: bool
    var target: Option<string>
    var isEnd: bool

    function Value(): NextValue
      reads this
    {
      NextValue(owner, configured, target, isEnd, endForbidden, locked)
    }

    /** A field remembers its owner and starts unconfigured; the options are fixed here. */
    constructor(owner: string, endForbidden: bool, locked: bool)
      ensures Value() == FreshNext(owner, endForbidden, locked)
    {
      this.owner := owner;
      this.endForbidden := endForbidden;
      this.locked := locked;
      configured := false;
      target := None;
      isEnd := false;
    }

    function IsLocked(): bool
    {
      locked
    }

    function IsConfigured(): bool
      reads this
    {
      configured
    }

    /** `get()`: the stored name, `undefined` (`None`) until `set` is called. */
    function Get(): Option<string>
      reads this
    {
      target
    }

    /** `isEnd()`: throws on a locked field, otherwise reports the terminal flag. */
    method IsEnd() returns (r: Result<bool>)
      ensures locked ==> r == Err(NextFieldLocked)
      ensures !locked ==> r == Ok(isEnd)
    {
      if locked {
        return Err(NextFieldLocked);
      }
      return Ok(isEnd);
    }

    /** `set(target)`; on success returns the owner, on failure changes nothing. */
    method Set(name: string) returns (r: Result<string>)
      modifies this
      ensures match SetTarget(old(Value()), name)
              case Ok(v) => Value() == v && r == Ok(owner)
              case Err(e) => Value() == old(Value()) && r == Err(e)
      ensures old(configured) ==> configured
    {
      if locked {
        return Err(NextFieldLocked);
      }
      target := Some(name);
      var ended := IsEnd();
      if ended == Ok(true) {
        isEnd := false;
      }
      configured := true;
      return Ok(owner);
    }

    /** `end()`; on success returns the owner, on failure changes nothing. */
    method End() returns (r: Result<string>)
      modifies this
      ensures match MarkEnd(old(Value()))
              case Ok(v) => Value() == v && r == Ok(owner)
              case Err(e) => Value() == old(Value()) && r == Err(e)
      ensures old(configured) ==> configured
    {
      if endForbidden {
        return Err(EndForbidden(owner));
      }
      if locked {
        return Err(NextFieldLocked);
      }
      isEnd := true;
      configured := true;
      return Ok(owner);
    }

    function Validate(): Option<Failure>
      reads this
    {
      ValidateNext(Value())
    }
  }
}
