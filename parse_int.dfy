/**
 * JavaScript's global `parseInt(value)` called without a radix, as the
 * Retry, Wait and state-machine hydrators call it (section 19.2.5 of
 * ECMA-262). The value is first turned into a string. Leading white space is
 * skipped and an optional sign is read. A `0x` or `0X` prefix switches to
 * base 16; otherwise the base is 10. The longest run of digits that follows
 * is the magnitude. Without a digit the result is NaN, which the model
 * writes `None`.
 */
module ParseInts {
  import opened Wrappers
  import opened Json

  /** The WhiteSpace and LineTerminator code points of sections 12.2 and 12.3 of ECMA-262. */
  predicate IsSpace(c: char)
  {
    c == ' ' || c == '\t' || c == '\n' || c == '\U{B}' || c == '\U{C}' || c == '\r'
    || c == '\U{A0}' || c == '\U{1680}' || ('\U{2000}' <= c <= '\U{200A}')
    || c == '\U{2028}' || c == '\U{2029}' || c == '\U{202F}' || c == '\U{205F}'
    || c == '\U{3000}' || c == '\U{FEFF}'
  }

  /** The value of a digit in bases up to 36, letters of either case included; 36 for any other character. */
  function DigitValue(c: char): (d: nat)
    ensures d <= 36
  {
    if '0' <= c <= '9' then c as int - '0' as int
    else if 'a' <= c <= 'z' then c as int - 'a' as int + 10
    else if 'A' <= c <= 'Z' then c as int - 'A' as int + 10
    else 36
  }

  predicate IsDigit(c: char, radix: nat)
  {
    DigitValue(c) < radix
  }

  /** The length of the run of base-`radix` digits that `s` starts with. */
  function DigitRun(s: string, radix: nat): (n: nat)
    ensures n <= |s|
    ensures forall i :: 0 <= i < n ==> IsDigit(s[i], radix)
    ensures n < |s| ==> !IsDigit(s[n], radix)
  {
    if s == [] || !IsDigit(s[0], radix) then 0 else 1 + DigitRun(s[1..], radix)
  }

  /** The value of a string of digits, most significant digit first. */
  function DigitsValue(s: string, radix: nat): nat
  {
    if s == [] then 0 else DigitsValue(s[..|s| - 1], radix) * radix + DigitValue(s[|s| - 1])
  }

  /** The string with its leading white space removed. */
  function SkipSpace(s: string): (t: string)
    ensures t == [] || !IsSpace(t[0])
  {
    if s != [] && IsSpace(s[0]) then SkipSpace(s[1..]) else s
  }

  /** The text after an optional sign. */
  function Unsigned(s: string): string
  {
    if s != [] && (s[0] == '-' || s[0] == '+') then s[1..] else s
  }

  /** Whether the unsigned text starts with the `0x` or `0X` prefix of base 16. */
  predicate HexPrefixed(u: string)
  {
    |u| >= 2 && u[0] == '0' && (u[1] == 'x' || u[1] == 'X')
  }

  function Radix(u: string): nat
  {
    if HexPrefixed(u) then 16 else 10
  }

  /** The text where the digits start. */
  function DigitText(u: string): string
  {
    if HexPrefixed(u) then u[2..] else u
  }

  /** `parseInt` of a string: the sign, the base and the digit run that follow the leading white space. */
  function ParseText(text: string): Option<int>
  {
    var s := SkipSpace(text);
    var u := Unsigned(s);
    var n := DigitRun(DigitText(u), Radix(u));
    if n == 0 then None
    else
      var magnitude := DigitsValue(DigitText(u)[..n], Radix(u));
      Some(if s[0] == '-' then -(magnitude as int) else magnitude)
  }

  /**
   * `parseInt(value)` on a JSON value, through `String(value)`. `null`,
   * booleans and objects print as text without a leading digit. An array
   * prints as its items joined by commas, and a comma ends every digit run,
   * so only the first item counts.
   */
  function ParseInt(v: Json): (r: Option<int>)
    ensures v.JNum? ==> r == Some(v.n)
    ensures v.JNull? || v.JBool? || v.JObj? ==> r.None?
  {
    match v
    case JNum(n) => Some(n)
    case JStr(s) => ParseText(s)
    case JArr(items) => if items == [] then None else ParseInt(items[0])
    case _ => None
  }

  // ----- decimal text -----

  function DigitChar(d: nat): (c: char)
    requires d < 10
    ensures DigitValue(c) == d
  {
    ['0', '1', '2', '3', '4', '5', '6', '7', '8', '9'][d]
  }

  /** The decimal digits of a natural number, as `String(n)` writes them. */
  function Digits(n: nat): (s: string)
    ensures s != [] && forall i :: 0 <= i < |s| ==> IsDigit(s[i], 10)
  {
    if n < 10 then [DigitChar(n)] else Digits(n / 10) + [DigitChar(n % 10)]
  }

  /** `String(n)` for an integer. */
  function DecimalText(n: int): string
  {
    if n < 0 then "-" + Digits(-n) else Digits(n)
  }

  lemma {:induction false} DigitsValueOf(n: nat)
    ensures DigitsValue(Digits(n), 10) == n
  {
    if n >= 10 {
      var s := Digits(n);
      assert s[..|s| - 1] == Digits(n / 10);
      DigitsValueOf(n / 10);
    }
  }

  /** A run of digits followed by anything that is not a digit is read to its end. */
  lemma {:induction false} DigitRunOf(s: string, tail: string, radix: nat)
    requires forall i :: 0 <= i < |s| ==> IsDigit(s[i], radix)
    requires tail == [] || !IsDigit(tail[0], radix)
    ensures DigitRun(s + tail, radix) == |s|
  {
    if s != [] {
      assert (s + tail)[1..] == s[1..] + tail;
      DigitRunOf(s[1..], tail, radix);
    }
  }

  /**
   * `parseInt(String(n) + tail) == n` for every integer `n`, whenever the
   * tail does not start with a letter or a digit (so it cannot extend the
   * number or turn `0` into a `0x` prefix): the decimal text of a number
   * reads back as that number, and trailing text such as a unit is ignored.
   */
  lemma DecimalRoundTrip(n: int, tail: string)
    requires tail == [] || DigitValue(tail[0]) == 36
    ensures ParseText(DecimalText(n) + tail) == Some(n)
  {
    if n < 0 {
      NegativeRoundTrip(n, tail);
    } else {
      DigitsRoundTrip(n, tail);
    }
  }

  /** The digits of a natural number, followed by the tail, read as that number. */
  lemma DigitsRoundTrip(m: nat, tail: string)
    requires tail == [] || DigitValue(tail[0]) == 36
    ensures ParseText(Digits(m) + tail) == Some(m)
  {
    var u := Digits(m) + tail;
    DigitStartsText(u[0]);
    ReadUnsigned(m, tail);
    assert SkipSpace(u) == u;
    assert Unsigned(u) == u;
  }

  lemma NegativeRoundTrip(n: int, tail: string)
    requires n < 0 && (tail == [] || DigitValue(tail[0]) == 36)
    ensures ParseText(DecimalText(n) + tail) == Some(n)
  {
    var m: nat := -n;
    var u := Digits(m) + tail;
    DigitsRoundTrip(m, tail);
    DigitStartsText(u[0]);
    MinusReads(u, m);
    NegativeText(n, tail);
  }

  lemma NegativeText(n: int, tail: string)
    requires n < 0
    ensures DecimalText(n) + tail == ['-'] + (Digits(-n) + tail)
  {
  }

  /** Unsigned text that reads as `m` reads as `-m` behind a minus sign. */
  lemma MinusReads(u: string, m: int)
    requires u != [] && !IsSpace(u[0]) && u[0] != '-' && u[0] != '+'
    requires ParseText(u) == Some(m)
    ensures ParseText(['-'] + u) == Some(-m)
  {
    MinusNegates(u);
  }

  function Negated(r: Option<int>): Option<int>
  {
    if r.Some? then Some(-r.value) else None
  }

  /** A minus sign in front of unsigned text negates what `parseInt` reads, NaN staying NaN. */
  lemma MinusNegates(u: string)
    requires u == [] || (!IsSpace(u[0]) && u[0] != '-' && u[0] != '+')
    ensures ParseText(['-'] + u) == Negated(ParseText(u))
  {
    var t := ['-'] + u;
    assert t[0] == '-' && t[1..] == u;
    assert SkipSpace(t) == t;
    assert Unsigned(t) == u;
    assert SkipSpace(u) == u;
    assert Unsigned(u) == u;
  }

  /** The unsigned text of a natural number, followed by a tail, reads as that number. */
  lemma ReadUnsigned(m: nat, tail: string)
    requires tail == [] || DigitValue(tail[0]) == 36
    ensures var u := Digits(m) + tail;
            Radix(u) == 10 && DigitRun(DigitText(u), Radix(u)) == |Digits(m)|
            && DigitsValue(DigitText(u)[..|Digits(m)|], Radix(u)) == m
  {
    ReadDigits(Digits(m), tail);
    DigitsValueOf(m);
  }

  /** Decimal digits followed by a tail that is neither a letter nor a digit: base 10, read to the tail. */
  lemma ReadDigits(ds: string, tail: string)
    requires ds != [] && forall i :: 0 <= i < |ds| ==> IsDigit(ds[i], 10)
    requires tail == [] || DigitValue(tail[0]) == 36
    ensures var u := ds + tail;
            !HexPrefixed(u) && DigitRun(DigitText(u), Radix(u)) == |ds| && DigitText(u)[..|ds|] == ds
  {
    var u := ds + tail;
    DigitRunOf(ds, tail, 10);
    assert u[..|ds|] == ds;
    if |ds| >= 2 {
      assert u[1] == ds[1];
    } else if |u| >= 2 {
      assert u[1] == tail[0];
    }
  }

  /** A decimal digit is neither white space nor a sign. */
  lemma DigitStartsText(c: char)
    requires IsDigit(c, 10)
    ensures !IsSpace(c) && c != '-' && c != '+'
  {
  }

  /** Leading white space never changes what `parseInt` reads. */
  lemma {:induction false} LeadingSpaceIgnored(space: string, text: string)
    requires forall i :: 0 <= i < |space| ==> IsSpace(space[i])
    ensures ParseText(space + text) == ParseText(text)
  {
    SkipSpacePrefix(space, text);
  }

  lemma {:induction false} SkipSpacePrefix(space: string, text: string)
    requires forall i :: 0 <= i < |space| ==> IsSpace(space[i])
    ensures SkipSpace(space + text) == SkipSpace(text)
  {
    if space == [] {
      assert space + text == text;
    } else {
      assert (space + text)[0] == space[0];
      assert (space + text)[1..] == space[1..] + text;
      SkipSpacePrefix(space[1..], text);
    }
  }
}
