/** Decimal integer text, as the point-entry field reads and writes it: the
    grammar `-?digits`, `parseInt(text, 10)` on text of that form, and
    `Number.prototype.toString` on integers. */
module DecimalText {

  import opened Nullable

  predicate IsDigit(c: char) {
    '0' <= c <= '9'
  }

  /** One or more decimal digits. */
  predicate IsDigits(s: string) {
    |s| > 0 && forall i :: 0 <= i < |s| ==> IsDigit(s[i])
  }

  /** Text matching the regular expression `^-?\d+$`. */
  predicate IsIntegerText(s: string) {
    IsDigits(s) || (|s| > 1 && s[0] == '-' && IsDigits(s[1..]))
  }

  /** The value of a string of digits, most significant first. */
  function DigitsValue(s: string): nat
    requires forall i :: 0 <= i < |s| ==> IsDigit(s[i])
  {
    if s == [] then 0
    else
      assert IsDigit(s[|s| - 1]);
      DigitsValue(s[..|s| - 1]) * 10 + (s[|s| - 1] as int - '0' as int)
  }

  /** `parseInt(text, 10)` on the text the field can hold: `''`, `'-'` or
      `-?digits`. Of those, `''` and `'-'` give `None`, the model of `NaN`.
      Other text, on which `parseInt` would read a leading number, never
      reaches it; it gives `None` here too. */
  function ParseInt(s: string): (r: Option<int>)
    ensures r.Some? <==> IsIntegerText(s)
    ensures r.Some? && s[0] == '-' ==> r.value <= 0
    ensures r.Some? && s[0] != '-' ==> r.value >= 0
  {
    if IsDigits(s) then Some(DigitsValue(s) as int)
    else if IsIntegerText(s) then Some(-(DigitsValue(s[1..]) as int))
    else None
  }

  function DigitChar(d: int): (c: char)
    requires 0 <= d < 10
    ensures IsDigit(c) && c as int - '0' as int == d
  {
    ('0' as int + d) as char
  }

  /** The decimal digits of `n`, without leading zeros. */
  function NatText(n: nat): (s: string)
    ensures IsDigits(s)
    ensures |s| > 1 ==> s[0] != '0'
    decreases n
  {
    if n < 10 then [DigitChar(n)] else NatText(n / 10) + [DigitChar(n % 10)]
  }

  /** `n.toString()` for an integer `n`. */
  function IntToString(n: int): string {
    if n < 0 then "-" + NatText(-n) else NatText(n)
  }

  lemma {:induction false} NatTextValue(n: nat)
    ensures DigitsValue(NatText(n)) == n
    decreases n
  {
    var s := NatText(n);
    if n >= 10 {
      NatTextValue(n / 10);
      assert s[..|s| - 1] == NatText(n / 10);
    }
  }

  /** Every integer is written as text the field accepts, and reading that
      text back gives the integer. */
  lemma IntToStringRoundTrip(n: int)
    ensures IsIntegerText(IntToString(n))
    ensures ParseInt(IntToString(n)) == Some(n)
  {
    var s := IntToString(n);
    if n < 0 {
      NatTextValue(-n);
      assert s[1..] == NatText(-n);
      assert !IsDigit(s[0]);
    } else {
      NatTextValue(n);
    }
  }

}
