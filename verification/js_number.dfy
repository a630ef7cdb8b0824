/** JavaScript values the screens rely on: a nullable/NaN-able result (`Option`),
    the `Number(s)` coercion applied to form strings, and `toString` of an integer
    id (the value a picker item carries). `None` stands for `null` or `NaN`. */
module JsNumber {

  datatype Option<+T> = None | Some(value: T)

  predicate IsDigit(c: char) {
    '0' <= c <= '9'
  }

  predicate AllDigits(s: string) {
    forall i :: 0 <= i < |s| ==> IsDigit(s[i])
  }

  function DigitValue(c: char): (d: nat)
    requires IsDigit(c)
    ensures d < 10
  {
    (c as int) - ('0' as int)
  }

  function DigitChar(d: nat): (c: char)
    requires d < 10
    ensures IsDigit(c) && DigitValue(c) == d
  {
    ('0' as int + d) as char
  }

  /** Decimal value of a string of digits, most significant digit first. */
  function DigitsValue(s: string): nat
    requires AllDigits(s)
  {
    if |s| == 0 then 0 else 10 * DigitsValue(s[..|s| - 1]) + DigitValue(s[|s| - 1])
  }

  /** A sign character followed by at least one digit. */
  predicate SignedNumeral(s: string, sign: char) {
    |s| > 1 && s[0] == sign && AllDigits(s[1..])
  }

  /** `Number(s)` for the strings a numeric form field holds: the empty string
      is 0, an optionally signed run of decimal digits is its value, and every
      other string is NaN (`None`). */
  function Number(s: string): (r: Option<int>)
    ensures s == "" ==> r == Some(0)
    ensures r.Some? && s != "" ==> IsDigit(s[|s| - 1])
    ensures s != "" && (forall i :: 0 <= i < |s| ==> !IsDigit(s[i])) ==> r == None
    ensures AllDigits(s) && s != "" ==> r.Some? && r.value >= 0
  {
    if s == "" then Some(0)
    else if AllDigits(s) then Some(DigitsValue(s))
    else if SignedNumeral(s, '-') then Some(-(DigitsValue(s[1..]) as int))
    else if SignedNumeral(s, '+') then Some(DigitsValue(s[1..]))
    else None
  }

  /** `n.toString()` for a natural number: shortest decimal form. */
  function NatToString(n: nat): (s: string)
    ensures s != [] && AllDigits(s)
    ensures |s| > 1 ==> s[0] != '0'
  {
    if n < 10 then [DigitChar(n)] else NatToString(n / 10) + [DigitChar(n % 10)]
  }

  /** `i.toString()` for an integer id. */
  function IntToString(i: int): string {
    if i < 0 then "-" + NatToString(-i) else NatToString(i)
  }

  lemma {:induction false} DigitsValueOfNatToString(n: nat)
    ensures DigitsValue(NatToString(n)) == n
  {
    if n >= 10 {
      var s := NatToString(n);
      assert s[..|s| - 1] == NatToString(n / 10);
      DigitsValueOfNatToString(n / 10);
    }
  }

  /** `Number(String(i)) === i`: the coercion undoes the picker's `toString`. */
  lemma NumberOfIntToString(i: int)
    ensures Number(IntToString(i)) == Some(i)
  {
    if i < 0 {
      var s := IntToString(i);
      assert s[1..] == NatToString(-i);
      assert !IsDigit(s[0]);
      DigitsValueOfNatToString(-i);
    } else {
      DigitsValueOfNatToString(i);
    }
  }

  /** Distinct ids give distinct picker strings, so string equality of two
      selections coincides with equality of the ids they were made from. */
  lemma IntToStringInjective(i: int, j: int)
    ensures IntToString(i) == IntToString(j) <==> i == j
  {
    if IntToString(i) == IntToString(j) {
      NumberOfIntToString(i);
      NumberOfIntToString(j);
    }
  }
}
