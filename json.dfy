/**
 * The JSON documents the generator emits and the hydrators read.
 *
 * Objects are association lists holding their keys in the order they were
 * created. JavaScript lists keys that are array indices ("0", "42") before
 * the others when it enumerates an object; that enumeration order is
 * `PropertyOrder.Enumerated`. A key whose JavaScript value is `undefined` is
 * absent, which is how `JSON.stringify` writes it; `null` is `JNull`.
 */
module Json {
  import opened Wrappers

  datatype Json =
    | JNull
    | JBool(b: bool)
    | JNum(n: int)
    | JStr(s: string)
    | JArr(items: seq<Json>)
    | JObj(members: seq<Member>)

  type Member = (string, Json)

  /** JavaScript truthiness: `null`, `false`, `0` and `""` are falsy, everything else is truthy. */
  predicate Truthy(j: Json)
  {
    match j
    case JNull => false
    case JBool(b) => b
    case JNum(n) => n != 0
    case JStr(s) => s != ""
    case _ => true
  }

  function Keys(ms: seq<Member>): (ks: seq<string>)
    ensures |ks| == |ms|
  {
    if ms == [] then [] else [ms[0].0] + Keys(ms[1..])
  }

  lemma {:induction false} KeysAt(ms: seq<Member>, i: nat)
    requires i < |ms|
    ensures Keys(ms)[i] == ms[i].0
  {
    if i > 0 {
      KeysAt(ms[1..], i - 1);
    }
  }

  lemma {:induction false} KeysAppend(ms: seq<Member>, m: Member)
    ensures Keys(ms + [m]) == Keys(ms) + [m.0]
  {
    if ms != [] {
      assert (ms + [m])[1..] == ms[1..] + [m];
      KeysAppend(ms[1..], m);
    }
  }

  /** A JavaScript object never repeats a key. */
  predicate DistinctKeys(ms: seq<Member>)
  {
    forall i, j :: 0 <= i < j < |ms| ==> ms[i].0 != ms[j].0
  }

  /** Property read `obj[key]`: the value of the (first) member named `key`. */
  function Lookup(ms: seq<Member>, key: string): (r: Option<Json>)
  {
    if ms == [] then None
    else if ms[0].0 == key then Some(ms[0].1)
    else Lookup(ms[1..], key)
  }

  /** Property write `obj[key] = v`: an existing key keeps its place, a new key is created last. */
  function Put(ms: seq<Member>, key: string, v: Json): (r: seq<Member>)
    ensures Lookup(r, key) == Some(v)
    ensures Lookup(ms, key) == None ==> r == ms + [(key, v)]
  {
    if ms == [] then [(key, v)]
    else if ms[0].0 == key then [(key, v)] + ms[1..]
    else [ms[0]] + Put(ms[1..], key, v)
  }

  /** A write leaves every other key as it was. */
  lemma {:induction false} LookupPutOther(ms: seq<Member>, key: string, v: Json, other: string)
    requires other != key
    ensures Lookup(Put(ms, key, v), other) == Lookup(ms, other)
  {
    if ms != [] && ms[0].0 != key {
      LookupPutOther(ms[1..], key, v, other);
    }
  }

  /**
   * `Object.assign(target, source)`: the members of `source` are written into
   * `target` in the order of its list. JavaScript copies them in enumeration
   * order; the two agree when no key of `source` is an array index.
   */
  function Assign(target: seq<Member>, source: seq<Member>): seq<Member>
    decreases |source|
  {
    if source == [] then target
    else Assign(Put(target, source[0].0, source[0].1), source[1..])
  }

  /** Two objects with the same members, whatever their key order (a deep-equality check on one level). */
  ghost predicate SameMembers(a: seq<Member>, b: seq<Member>)
  {
    forall k :: Lookup(a, k) == Lookup(b, k)
  }

  /** In a distinct-key object the first key does not occur again. */
  lemma {:induction false} HeadKeyUnique(ms: seq<Member>)
    requires ms != [] && DistinctKeys(ms)
    ensures Lookup(ms[1..], ms[0].0) == None
    ensures DistinctKeys(ms[1..])
  {
    forall i, j | 0 <= i < j < |ms[1..]| ensures ms[1..][i].0 != ms[1..][j].0 {
      assert ms[1..][i] == ms[i + 1] && ms[1..][j] == ms[j + 1];
    }
    AbsentKey(ms[1..], ms[0].0);
  }

  /** A key that no member carries is absent. */
  lemma {:induction false} AbsentKey(ms: seq<Member>, key: string)
    requires forall i :: 0 <= i < |ms| ==> ms[i].0 != key
    ensures Lookup(ms, key) == None
  {
    if ms != [] {
      assert forall i :: 0 <= i < |ms[1..]| ==> ms[1..][i] == ms[i + 1];
      AbsentKey(ms[1..], key);
    }
  }

  /** Every member of a distinct-key object is found under its key. */
  lemma {:induction false} LookupMember(ms: seq<Member>, i: nat)
    requires DistinctKeys(ms)
    requires i < |ms|
    ensures Lookup(ms, ms[i].0) == Some(ms[i].1)
  {
    if i > 0 {
      HeadKeyUnique(ms);
      assert ms[0].0 != ms[i].0;
      assert ms[1..][i - 1] == ms[i];
      LookupMember(ms[1..], i - 1);
    }
  }

  /** A key found in the first part of a concatenation is read from there, otherwise from the second part. */
  lemma {:induction false} LookupConcat(a: seq<Member>, b: seq<Member>, key: string)
    ensures Lookup(a + b, key) == if Lookup(a, key).Some? then Lookup(a, key) else Lookup(b, key)
  {
    if a != [] {
      assert (a + b)[0] == a[0] && (a + b)[1..] == a[1..] + b;
      LookupConcat(a[1..], b, key);
    } else {
      assert a + b == b;
    }
  }

  /** A source member overrides the target; keys the source does not have keep the target's value. */
  lemma {:induction false} LookupAssign(target: seq<Member>, source: seq<Member>, key: string)
    requires DistinctKeys(source)
    ensures Lookup(Assign(target, source), key)
         == if Lookup(source, key).Some? then Lookup(source, key) else Lookup(target, key)
    decreases |source|
  {
    if source != [] {
      var t' := Put(target, source[0].0, source[0].1);
      HeadKeyUnique(source);
      LookupAssign(t', source[1..], key);
      if key != source[0].0 {
        LookupPutOther(target, source[0].0, source[0].1, key);
      }
    }
  }

  /** A key the source does not have keeps the target's value, whether or not the source repeats keys. */
  lemma {:induction false} LookupAssignAbsent(target: seq<Member>, source: seq<Member>, key: string)
    requires Lookup(source, key) == None
    ensures Lookup(Assign(target, source), key) == Lookup(target, key)
    decreases |source|
  {
    if source != [] {
      LookupPutOther(target, source[0].0, source[0].1, key);
      LookupAssignAbsent(Put(target, source[0].0, source[0].1), source[1..], key);
    }
  }

  /** What a read finds is a member of the object. */
  lemma {:induction false} LookupIn(ms: seq<Member>, key: string)
    ensures Lookup(ms, key).Some? ==> (key, Lookup(ms, key).value) in ms
  {
    if ms != [] && ms[0].0 != key {
      LookupIn(ms[1..], key);
    }
  }

  /** Assigning members whose keys are all new appends them in order. */
  lemma {:induction false} AssignFresh(target: seq<Member>, source: seq<Member>)
    requires DistinctKeys(source)
    requires forall i :: 0 <= i < |source| ==> Lookup(target, source[i].0) == None
    ensures Assign(target, source) == target + source
    decreases |source|
  {
    if source != [] {
      var head, tail := source[0], source[1..];
      var t' := Put(target, head.0, head.1);
      forall i | 0 <= i < |tail| ensures Lookup(t', tail[i].0) == None {
        assert tail[i] == source[i + 1];
        LookupPutOther(target, head.0, head.1, tail[i].0);
      }
      HeadKeyUnique(source);
      AssignFresh(t', tail);
      ConcatHead(target, source);
    }
  }

  lemma ConcatHead(target: seq<Member>, source: seq<Member>)
    requires source != []
    ensures target + source == (target + [source[0]]) + source[1..]
  {
    assert source == [source[0]] + source[1..];
  }

  /** Writing a member's own value back leaves a distinct-key object unchanged. */
  lemma {:induction false} PutExisting(ms: seq<Member>, i: nat)
    requires DistinctKeys(ms)
    requires i < |ms|
    ensures Put(ms, ms[i].0, ms[i].1) == ms
    decreases i
  {
    if i > 0 {
      assert ms[0].0 != ms[i].0;
      HeadKeyUnique(ms);
      assert ms[1..][i - 1] == ms[i];
      PutExisting(ms[1..], i - 1);
      assert [ms[0]] + ms[1..] == ms;
    }
  }

  lemma {:induction false} AssignSuffixSelf(ms: seq<Member>, n: nat)
    requires DistinctKeys(ms)
    requires n <= |ms|
    ensures Assign(ms, ms[n..]) == ms
    decreases |ms| - n
  {
    if n < |ms| {
      PutExisting(ms, n);
      assert ms[n..][1..] == ms[n + 1..];
      AssignSuffixSelf(ms, n + 1);
    }
  }

  /** Assigning an object into itself changes nothing. */
  lemma {:induction false} AssignSelf(ms: seq<Member>)
    requires DistinctKeys(ms)
    ensures Assign(ms, ms) == ms
  {
    AssignSuffixSelf(ms, 0);
    assert ms[0..] == ms;
  }
}
