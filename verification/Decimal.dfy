/** Decimal numerals: `std::to_string` on unsigned values and `std::stoull`. */
module Decimal {

  const SIZE_LIMIT: nat := 0x1_0000_0000_0000_0000

  datatype Parsed = Value(value: nat, consumed: nat) | InvalidArgument | OutOfRange

  predicate IsDigit(c: char) {
    '0' <= c <= '9'
  }

  // The characters the "C" locale calls white space.
  predicate IsSpace(c: char) {
    c == ' ' || ('\t' <= c <= '\r')
  }

  lemma CharacterClasses(c: char)
    ensures IsDigit(c) <==> c in "0123456789"
    ensures IsSpace(c) <==> c in [' ', '\t', '\n', '\U{000B}', '\U{000C}', '\r']
  {
  }

  function DigitChar(d: nat): (c: char)
    requires d < 10
    ensures IsDigit(c) && DigitValue(c) == d
  {
    '0' + d as char
  }

  function DigitValue(c: char): (d: nat)
    requires IsDigit(c)
    ensures d < 10
  {
    c as int - '0' as int
  }

  predicate AllDigits(s: string) {
    forall k :: 0 <= k < |s| ==> IsDigit(s[k])
  }

  function ToString(n: nat): (s: string)
    ensures s != ""
  {
    if n < 10 then [DigitChar(n)] else ToString(n / 10) + [DigitChar(n % 10)]
  }

  lemma {:induction false} ToStringDigits(n: nat)
    ensures AllDigits(ToString(n))
  {
    if n >= 10 {
      ToStringDigits(n / 10);
    }
  }

  /** Numerals are decimal: the last digit is the remainder by ten, and the others write the rest. */
  lemma BaseTen(n: nat, d: nat)
    requires d < 10
    ensures ToString(10 * n + d) == (if n == 0 then "" else ToString(n)) + ["0123456789"[d]]
  {
    assert (10 * n + d) / 10 == n && (10 * n + d) % 10 == d;
    assert DigitChar(d) == "0123456789"[d];
  }

  function NumeralValue(s: string): (n: nat)
    requires AllDigits(s)
  {
    if s == "" then 0 else 10 * NumeralValue(s[..|s| - 1]) + DigitValue(s[|s| - 1])
  }

  lemma {:induction false} ToStringRoundTrip(n: nat)
    ensures AllDigits(ToString(n)) && NumeralValue(ToString(n)) == n
  {
    ToStringDigits(n);
    var s := ToString(n);
    if n >= 10 {
      assert s[..|s| - 1] == ToString(n / 10);
      ToStringRoundTrip(n / 10);
    } else {
      assert s[..|s| - 1] == "";
    }
  }

  // How many characters of `s` from `i` on are in the class `p`.
  function Span(s: string, i: nat, p: char -> bool): (j: nat)
    requires i <= |s|
    ensures i <= j <= |s|
    ensures forall k :: i <= k < j ==> p(s[k])
    ensures j < |s| ==> !p(s[j])
    decreases |s| - i
  {
    if i < |s| && p(s[i]) then Span(s, i + 1, p) else i
  }

  /** `std::stoull` in base ten: white space, an optional sign, then digits. A minus sign
      negates in 64 bits; no digits or too large a magnitude is an exception. */
  function Stoull(s: string): (r: Parsed) {
    var i := Span(s, 0, IsSpace);
    var signed := i < |s| && (s[i] == '+' || s[i] == '-');
    var d := if signed then i + 1 else i;
    var e := Span(s, d, IsDigit);
    if e == d then InvalidArgument
    else
      var n := NumeralValue(s[d..e]);
      if n >= SIZE_LIMIT then OutOfRange
      else if signed && s[i] == '-' && n > 0 then Value(SIZE_LIMIT - n, e)
      else Value(n, e)
  }

  lemma StoullOfDigits(s: string)
    requires s != "" && AllDigits(s)
    ensures Stoull(s) == if NumeralValue(s) < SIZE_LIMIT then Value(NumeralValue(s), |s|) else OutOfRange
  {
    assert IsDigit(s[0]);
    assert Span(s, 0, IsSpace) == 0;
    assert Span(s, 0, IsDigit) == |s|;
    assert s[0..|s|] == s;
  }

  // White space up to `i`, then perhaps a sign, and digits from `d` to the end.
  predicate IsNumber(s: string, i: nat, d: nat) {
    && i <= d < |s| && (forall k :: 0 <= k < i ==> IsSpace(s[k])) && (forall k :: d <= k < |s| ==> IsDigit(s[k]))
    && (d == i || (d == i + 1 && (s[i] == '+' || s[i] == '-')))
  }

  // The magnitude and what it stands for in 64 bits.
  function Magnitude(s: string, i: nat, d: nat): nat
    requires IsNumber(s, i, d)
  {
    NumeralValue(s[d..])
  }

  function NumberValue(s: string, i: nat, d: nat): int
    requires IsNumber(s, i, d)
  {
    if s[i] == '-' && Magnitude(s, i, d) > 0 then SIZE_LIMIT - Magnitude(s, i, d) else Magnitude(s, i, d)
  }

  /** `stoull` takes the whole of a text for `value` just when it is white space, perhaps a sign, and
      the digits of a number that 64 bits can hold. */
  lemma StoullExactly(s: string, value: nat)
    ensures Stoull(s) == Value(value, |s|) <==>
            exists i: nat, d: nat ::
              IsNumber(s, i, d) && Magnitude(s, i, d) < SIZE_LIMIT && value == NumberValue(s, i, d)
  {
    if i: nat, d: nat :| IsNumber(s, i, d) && Magnitude(s, i, d) < SIZE_LIMIT && value == NumberValue(s, i, d) {
      StoullOfNumber(s, i, d);
    }
    if Stoull(s) == Value(value, |s|) {
      var i := Span(s, 0, IsSpace);
      var d := if s[i] == '+' || s[i] == '-' then i + 1 else i;
      assert IsNumber(s, i, d);
      StoullOfNumber(s, i, d);
    }
  }

  lemma StoullOfNumber(s: string, i: nat, d: nat)
    requires IsNumber(s, i, d)
    ensures Stoull(s) ==
            if Magnitude(s, i, d) < SIZE_LIMIT then Value(NumberValue(s, i, d), |s|) else OutOfRange
  {
    hide NumeralValue;
    assert IsDigit(s[d]) && !IsSpace(s[i]);
    assert Span(s, 0, IsSpace) == i;
    assert Span(s, d, IsDigit) == |s| && s[d..|s|] == s[d..];
  }
}
