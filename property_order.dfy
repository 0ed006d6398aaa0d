/**
 * The order in which JavaScript lists the keys of an ordinary object:
 * `Object.keys`, `for-in` and `JSON.stringify` all follow the
 * OrdinaryOwnPropertyKeys operation (section 10.1.11.1 of ECMA-262). Keys that
 * are array indices come first, in ascending numeric order; the other string
 * keys follow in the order they were created. A member list of the model
 * holds an object's keys in creation order; `KeyOrder` gives the positions
 * of those keys in enumeration order, and `Enumerated` the members in that
 * order.
 *
 * The ordering itself is defined on two plain sequences: a flag per key
 * (is it an array index?) and a number per key (its index value).
 */
module PropertyOrder {
  import opened Json
  import opened ParseInts

  /**
   * An array index (section 6.1.7 of ECMA-262): the canonical decimal text of
   * an integer below 2^32 - 1, so no sign, no leading zero and no spaces.
   */
  predicate IsArrayIndex(k: string)
  {
    k != [] && (forall i :: 0 <= i < |k| ==> IsDigit(k[i], 10)) && (k[0] != '0' || |k| == 1)
    && DigitsValue(k, 10) < 0xFFFF_FFFF
  }

  /** The number an array-index key stands for. */
  function IndexValue(k: string): nat
  {
    DigitsValue(k, 10)
  }

  /** Which keys are array indices. */
  function IndexFlags(ks: seq<string>): (fs: seq<bool>)
    ensures |fs| == |ks| && forall k :: 0 <= k < |ks| ==> fs[k] == IsArrayIndex(ks[k])
  {
    seq(|ks|, k requires 0 <= k < |ks| => IsArrayIndex(ks[k]))
  }

  /** The index value of every key. */
  function IndexValues(ks: seq<string>): (vs: seq<nat>)
    ensures |vs| == |ks| && forall k :: 0 <= k < |ks| ==> vs[k] == IndexValue(ks[k])
  {
    seq(|ks|, k requires 0 <= k < |ks| => IndexValue(ks[k]))
  }

  /** The positions `i`, `i + 1`, ..., `n - 1`. */
  function Span(i: nat, n: nat): (s: seq<nat>)
    requires i <= n
    ensures |s| == n - i && forall k :: 0 <= k < |s| ==> s[k] == i + k
    decreases n - i
  {
    if i == n then [] else [i] + Span(i + 1, n)
  }

  /** The positions from `i` on whose flag is `want`, in increasing order. */
  function Chosen(fs: seq<bool>, want: bool, i: nat): (ps: seq<nat>)
    requires i <= |fs|
    ensures |ps| <= |fs| - i
    ensures forall k :: 0 <= k < |ps| ==> i <= ps[k] < |fs| && fs[ps[k]] == want
    ensures forall a, b :: 0 <= a < b < |ps| ==> ps[a] < ps[b]
    decreases |fs| - i
  {
    if i == |fs| then []
    else if fs[i] == want then [i] + Chosen(fs, want, i + 1)
    else Chosen(fs, want, i + 1)
  }

  /** Positions whose values do not decrease. */
  ghost predicate Ascending(vs: seq<nat>, ps: seq<nat>)
    requires forall k :: 0 <= k < |ps| ==> ps[k] < |vs|
  {
    forall a, b :: 0 <= a < b < |ps| ==> vs[ps[a]] <= vs[ps[b]]
  }

  /** `sorted` with `p` put before the first position with a larger value. */
  function InsertPosition(vs: seq<nat>, p: nat, sorted: seq<nat>): (r: seq<nat>)
    requires p < |vs| && forall k :: 0 <= k < |sorted| ==> sorted[k] < |vs|
    ensures |r| == |sorted| + 1 && multiset(r) == multiset(sorted) + multiset{p}
    ensures forall k :: 0 <= k < |r| ==> r[k] < |vs|
  {
    if sorted == [] then [p]
    else if vs[p] <= vs[sorted[0]] then [p] + sorted
    else
      var rest := InsertPosition(vs, p, sorted[1..]);
      assert sorted == [sorted[0]] + sorted[1..];
      [sorted[0]] + rest
  }

  /** Insertion sort of positions by their values. */
  function SortPositions(vs: seq<nat>, ps: seq<nat>): (r: seq<nat>)
    requires forall k :: 0 <= k < |ps| ==> ps[k] < |vs|
    ensures |r| == |ps| && multiset(r) == multiset(ps)
    ensures forall k :: 0 <= k < |r| ==> r[k] < |vs|
  {
    if ps == [] then []
    else
      assert ps == [ps[0]] + ps[1..];
      InsertPosition(vs, ps[0], SortPositions(vs, ps[1..]))
  }

  /** The flagged positions, sorted by value. */
  function SortedFlagged(fs: seq<bool>, vs: seq<nat>): (r: seq<nat>)
    requires |fs| == |vs|
    ensures |r| == |Chosen(fs, true, 0)|
    ensures forall k :: 0 <= k < |r| ==> r[k] < |fs| && fs[r[k]]
  {
    var r := SortPositions(vs, Chosen(fs, true, 0));
    forall k | 0 <= k < |r| ensures fs[r[k]] {
      assert r[k] in multiset(Chosen(fs, true, 0));
    }
    r
  }

  /** The flagged positions sorted by value, then the other positions in increasing order. */
  function Order(fs: seq<bool>, vs: seq<nat>): (order: seq<nat>)
    requires |fs| == |vs|
    ensures |order| == |fs| && forall k :: 0 <= k < |order| ==> order[k] < |fs|
  {
    SplitChosen(fs, 0);
    assert |multiset(Chosen(fs, true, 0))| + |multiset(Chosen(fs, false, 0))| == |multiset(Span(0, |fs|))|;
    SortedFlagged(fs, vs) + Chosen(fs, false, 0)
  }

  /** The positions of `ks` in the order JavaScript lists the keys. */
  function KeyOrder(ks: seq<string>): (order: seq<nat>)
    ensures |order| == |ks| && forall k :: 0 <= k < |order| ==> order[k] < |ks|
  {
    Order(IndexFlags(ks), IndexValues(ks))
  }

  /** How many keys of `ks` are array indices. */
  function IndexCount(ks: seq<string>): (n: nat)
    ensures n <= |ks|
  {
    |SortedFlagged(IndexFlags(ks), IndexValues(ks))|
  }

  /** The keys in the order JavaScript lists them. */
  function EnumerationOrder(ks: seq<string>): (r: seq<string>)
    ensures |r| == |ks|
    ensures forall k :: 0 <= k < |r| ==> r[k] == ks[KeyOrder(ks)[k]]
  {
    var order := KeyOrder(ks);
    seq(|ks|, k requires 0 <= k < |ks| => ks[order[k]])
  }

  /** An object's members in the order JavaScript lists its keys. */
  function Enumerated(ms: seq<Member>): (r: seq<Member>)
    ensures |r| == |ms|
    ensures forall k :: 0 <= k < |r| ==> r[k] == ms[KeyOrder(Keys(ms))[k]]
  {
    var order := KeyOrder(Keys(ms));
    seq(|ms|, k requires 0 <= k < |ms| => ms[order[k]])
  }

  // ----- the positions form a permutation -----

  /** The positions from `i` on are split between the flagged and the others. */
  lemma {:induction false} SplitChosen(fs: seq<bool>, i: nat)
    requires i <= |fs|
    ensures multiset(Chosen(fs, true, i)) + multiset(Chosen(fs, false, i)) == multiset(Span(i, |fs|))
    decreases |fs| - i
  {
    if i < |fs| {
      SplitChosen(fs, i + 1);
      assert Span(i, |fs|) == [i] + Span(i + 1, |fs|);
      if fs[i] {
        assert Chosen(fs, true, i) == [i] + Chosen(fs, true, i + 1);
        assert Chosen(fs, false, i) == Chosen(fs, false, i + 1);
      } else {
        assert Chosen(fs, true, i) == Chosen(fs, true, i + 1);
        assert Chosen(fs, false, i) == [i] + Chosen(fs, false, i + 1);
      }
    }
  }

  /** The order holds every position once. */
  lemma OrderPermutes(fs: seq<bool>, vs: seq<nat>)
    requires |fs| == |vs|
    ensures multiset(Order(fs, vs)) == multiset(Span(0, |fs|))
  {
    SplitChosen(fs, 0);
  }

  /** A sequence that holds no element twice has every multiplicity at most 1. */
  lemma {:induction false} SingleCounts(s: seq<nat>, x: nat)
    requires forall a, b :: 0 <= a < b < |s| ==> s[a] != s[b]
    ensures multiset(s)[x] <= 1
  {
    if s != [] {
      assert s == [s[0]] + s[1..];
      forall a, b | 0 <= a < b < |s[1..]| ensures s[1..][a] != s[1..][b] {
        assert s[1..][a] == s[a + 1] && s[1..][b] == s[b + 1];
      }
      SingleCounts(s[1..], x);
      if x == s[0] {
        assert x !in s[1..];
      }
    }
  }

  /** An element at two positions has multiplicity at least 2. */
  lemma DoubleCount(s: seq<nat>, a: nat, b: nat)
    requires a < b < |s| && s[a] == s[b]
    ensures multiset(s)[s[a]] >= 2
  {
    assert s == s[..b] + s[b..];
    assert s[a] in s[..b];
    assert s[b..][0] == s[b];
  }

  /** The order never holds a position twice. */
  lemma OrderDistinct(fs: seq<bool>, vs: seq<nat>)
    requires |fs| == |vs|
    ensures forall a, b :: 0 <= a < b < |fs| ==> Order(fs, vs)[a] != Order(fs, vs)[b]
  {
    var order := Order(fs, vs);
    forall a, b | 0 <= a < b < |fs| ensures order[a] != order[b] {
      if order[a] == order[b] {
        OrderPermutes(fs, vs);
        DoubleCount(order, a, b);
        SingleCounts(Span(0, |fs|), order[a]);
        assert false;
      }
    }
  }

  /** `KeyOrder` never lists a position twice. */
  lemma KeyOrderDistinct(ks: seq<string>)
    ensures forall a, b :: 0 <= a < b < |ks| ==> KeyOrder(ks)[a] != KeyOrder(ks)[b]
  {
    OrderDistinct(IndexFlags(ks), IndexValues(ks));
  }

  /** `KeyOrder` lists every position. */
  lemma KeyOrderCovers(ks: seq<string>)
    ensures forall p :: 0 <= p < |ks| ==> p in KeyOrder(ks)
  {
    var span := Span(0, |ks|);
    OrderPermutes(IndexFlags(ks), IndexValues(ks));
    forall p | 0 <= p < |ks| ensures p in KeyOrder(ks) {
      assert span[p] == p;
      assert p in multiset(span);
    }
  }

  // ----- what the order looks like -----

  /** A lower bound on the values of `p` and `sorted` bounds the inserted sequence too. */
  lemma {:induction false} InsertBounded(vs: seq<nat>, p: nat, sorted: seq<nat>, v: nat)
    requires p < |vs| && forall k :: 0 <= k < |sorted| ==> sorted[k] < |vs|
    requires v <= vs[p] && forall k :: 0 <= k < |sorted| ==> v <= vs[sorted[k]]
    ensures forall k :: 0 <= k < |InsertPosition(vs, p, sorted)| ==> v <= vs[InsertPosition(vs, p, sorted)[k]]
  {
    if sorted != [] && vs[p] > vs[sorted[0]] {
      InsertBounded(vs, p, sorted[1..], v);
    }
  }

  /** A position whose value is below all of an ascending sequence keeps it ascending in front. */
  lemma ConsAscending(vs: seq<nat>, x: nat, rest: seq<nat>)
    requires x < |vs| && forall k :: 0 <= k < |rest| ==> rest[k] < |vs| && vs[x] <= vs[rest[k]]
    requires Ascending(vs, rest)
    ensures Ascending(vs, [x] + rest)
  {
    var r := [x] + rest;
    forall a, b | 0 <= a < b < |r| ensures vs[r[a]] <= vs[r[b]] {
      assert r[b] == rest[b - 1];
      if a > 0 {
        assert r[a] == rest[a - 1];
      }
    }
  }

  /** Inserting into ascending positions keeps them ascending. */
  lemma {:induction false} InsertAscending(vs: seq<nat>, p: nat, sorted: seq<nat>)
    requires p < |vs| && forall k :: 0 <= k < |sorted| ==> sorted[k] < |vs|
    requires Ascending(vs, sorted)
    ensures Ascending(vs, InsertPosition(vs, p, sorted))
  {
    if sorted == [] {
    } else if vs[p] <= vs[sorted[0]] {
      ConsAscending(vs, p, sorted);
    } else {
      var tail := sorted[1..];
      assert Ascending(vs, tail) by {
        forall a, b | 0 <= a < b < |tail| ensures vs[tail[a]] <= vs[tail[b]] {
          assert tail[a] == sorted[a + 1] && tail[b] == sorted[b + 1];
        }
      }
      assert forall k :: 0 <= k < |tail| ==> vs[sorted[0]] <= vs[tail[k]] by {
        forall k | 0 <= k < |tail| ensures vs[sorted[0]] <= vs[tail[k]] {
          assert tail[k] == sorted[k + 1];
        }
      }
      InsertAscending(vs, p, tail);
      InsertBounded(vs, p, tail, vs[sorted[0]]);
      ConsAscending(vs, sorted[0], InsertPosition(vs, p, tail));
    }
  }

  lemma {:induction false} SortAscending(vs: seq<nat>, ps: seq<nat>)
    requires forall k :: 0 <= k < |ps| ==> ps[k] < |vs|
    ensures Ascending(vs, SortPositions(vs, ps))
  {
    if ps != [] {
      SortAscending(vs, ps[1..]);
      InsertAscending(vs, ps[0], SortPositions(vs, ps[1..]));
    }
  }

  /** The order begins with the flagged positions, sorted by value, and then lists the others. */
  lemma OrderSplit(fs: seq<bool>, vs: seq<nat>)
    requires |fs| == |vs|
    ensures Order(fs, vs) == SortedFlagged(fs, vs) + Chosen(fs, false, 0)
  {
  }

  /** Exactly the first `|SortedFlagged(fs, vs)|` positions of the order are flagged. */
  lemma OrderFlaggedFirst(fs: seq<bool>, vs: seq<nat>)
    requires |fs| == |vs|
    ensures forall k :: 0 <= k < |fs| ==> (fs[Order(fs, vs)[k]] <==> k < |SortedFlagged(fs, vs)|)
  {
    var front, back := SortedFlagged(fs, vs), Chosen(fs, false, 0);
    var order := Order(fs, vs);
    OrderSplit(fs, vs);
    forall k | 0 <= k < |fs| ensures fs[order[k]] <==> k < |front| {
      if k < |front| {
        assert order[k] == front[k];
      } else {
        assert order[k] == back[k - |front|];
      }
    }
  }

  /** The flagged positions come in ascending order of value. */
  lemma OrderFlaggedAscend(fs: seq<bool>, vs: seq<nat>)
    requires |fs| == |vs|
    ensures forall a, b :: 0 <= a < b < |SortedFlagged(fs, vs)| ==> vs[Order(fs, vs)[a]] <= vs[Order(fs, vs)[b]]
  {
    OrderSplit(fs, vs);
    SortAscending(vs, Chosen(fs, true, 0));
    assert Ascending(vs, SortedFlagged(fs, vs));
  }

  /** The other positions come in increasing order. */
  lemma OrderRestIncreasing(fs: seq<bool>, vs: seq<nat>)
    requires |fs| == |vs|
    ensures forall a, b :: |SortedFlagged(fs, vs)| <= a < b < |fs| ==> Order(fs, vs)[a] < Order(fs, vs)[b]
  {
    var front, back := SortedFlagged(fs, vs), Chosen(fs, false, 0);
    var order := Order(fs, vs);
    OrderSplit(fs, vs);
    forall a, b | |front| <= a < b < |fs| ensures order[a] < order[b] {
      var i, j := a - |front|, b - |front|;
      assert order[a] == back[i];
      assert order[b] == back[j];
      assert back[i] < back[j];
    }
  }

  /** With nothing flagged the order is the identity. */
  lemma OrderUnflagged(fs: seq<bool>, vs: seq<nat>)
    requires |fs| == |vs| && forall k :: 0 <= k < |fs| ==> !fs[k]
    ensures Order(fs, vs) == Span(0, |fs|)
  {
    NoneChosen(fs, 0);
    OrderSplit(fs, vs);
  }

  /** The array-index keys are listed first: exactly the first `IndexCount(ks)` keys are indices. */
  lemma IndexKeysFirst(ks: seq<string>)
    ensures forall k :: 0 <= k < |ks| ==> (IsArrayIndex(EnumerationOrder(ks)[k]) <==> k < IndexCount(ks))
  {
    OrderFlaggedFirst(IndexFlags(ks), IndexValues(ks));
  }

  /** The array-index keys are listed in ascending numeric order. */
  lemma IndexKeysAscend(ks: seq<string>)
    ensures forall a, b :: 0 <= a < b < IndexCount(ks) ==>
              IndexValue(EnumerationOrder(ks)[a]) <= IndexValue(EnumerationOrder(ks)[b])
  {
    OrderFlaggedAscend(IndexFlags(ks), IndexValues(ks));
  }

  /** The other keys keep the order in which they were created. */
  lemma NamesKeepCreationOrder(ks: seq<string>)
    ensures forall a, b :: IndexCount(ks) <= a < b < |ks| ==> KeyOrder(ks)[a] < KeyOrder(ks)[b]
  {
    OrderRestIncreasing(IndexFlags(ks), IndexValues(ks));
  }

  lemma {:induction false} NoneChosen(fs: seq<bool>, i: nat)
    requires i <= |fs| && forall k :: 0 <= k < |fs| ==> !fs[k]
    ensures Chosen(fs, true, i) == [] && Chosen(fs, false, i) == Span(i, |fs|)
    decreases |fs| - i
  {
    if i < |fs| {
      NoneChosen(fs, i + 1);
    }
  }

  /** Without any array-index key the enumeration order is the creation order. */
  lemma PlainKeysInOrder(ks: seq<string>)
    requires forall k :: 0 <= k < |ks| ==> !IsArrayIndex(ks[k])
    ensures KeyOrder(ks) == Span(0, |ks|)
    ensures EnumerationOrder(ks) == ks
  {
    var fs := IndexFlags(ks);
    forall k | 0 <= k < |fs| ensures !fs[k] {
      assert fs[k] == IsArrayIndex(ks[k]);
    }
    OrderUnflagged(fs, IndexValues(ks));
    var order := KeyOrder(ks);
    forall k | 0 <= k < |ks| ensures EnumerationOrder(ks)[k] == ks[k] {
      assert order[k] == k;
    }
  }

  /** Without any array-index key the members are enumerated as they are listed. */
  lemma PlainMembersInOrder(ms: seq<Member>)
    requires forall k :: 0 <= k < |ms| ==> !IsArrayIndex(ms[k].0)
    ensures Enumerated(ms) == ms
  {
    forall k | 0 <= k < |ms| ensures !IsArrayIndex(Keys(ms)[k]) {
      KeysAt(ms, k);
    }
    PlainKeysInOrder(Keys(ms));
  }

  /** The keys of the enumerated members are the enumerated keys. */
  lemma EnumeratedKeys(ms: seq<Member>)
    ensures Keys(Enumerated(ms)) == EnumerationOrder(Keys(ms))
  {
    var e := Enumerated(ms);
    forall k | 0 <= k < |e| ensures Keys(e)[k] == EnumerationOrder(Keys(ms))[k] {
      KeysAt(e, k);
      KeysAt(ms, KeyOrder(Keys(ms))[k]);
    }
  }

  /** Enumerating an object with distinct keys lists each member once: its keys stay distinct. */
  lemma EnumeratedDistinct(ms: seq<Member>)
    requires DistinctKeys(ms)
    ensures DistinctKeys(Enumerated(ms))
  {
    KeyOrderDistinct(Keys(ms));
  }

  /** An object with one key lists it. */
  lemma SingleMemberEnumerated(key: string, v: Json)
    ensures Enumerated([(key, v)]) == [(key, v)]
  {
    KeyOrderCovers(Keys([(key, v)]));
  }

  /** `Object.keys({b: …, 1: …})` is `["1", "b"]`: an array-index key created later is listed first. */
  lemma IndexKeyListedFirst(x: Json, y: Json)
    ensures Enumerated([("b", x), ("1", y)]) == [("1", y), ("b", x)]
  {
    var ms := [("b", x), ("1", y)];
    assert Keys(ms) == ["b", "1"];
    assert !IsArrayIndex("b") by {
      assert DigitValue('b') == 11;
    }
    assert IsArrayIndex("1") by {
      assert DigitsValue("1", 10) == 1;
    }
    var fs := IndexFlags(["b", "1"]);
    assert fs == [false, true];
    assert Chosen(fs, true, 0) == [1];
    assert Chosen(fs, false, 0) == [0];
  }
}
