/** The number/text conversions the application relies on, restricted to
    integers and NaN: `Number.prototype.toString` (what `localStorage.setItem`
    stores for a number), `parseInt` (how the stored expiry is read back) and
    `Number(text)` (how the sale form reads its quantity). */
module NumberText {
  import opened Common

  predicate IsDigit(c: char) { '0' <= c <= '9' }

  predicate AllDigits(s: string) {
    forall i :: 0 <= i < |s| ==> IsDigit(s[i])
  }

  function DigitChar(d: nat): (c: char)
    requires d < 10
    ensures IsDigit(c)
  {
    ('0' as int + d) as char
  }

  function DigitValue(c: char): (d: nat)
    requires IsDigit(c)
    ensures d < 10 && DigitChar(d) == c
  {
    c as int - '0' as int
  }

  /** The decimal digits of `n`, most significant first, without leading zeros. */
  function Decimal(n: nat): (r: string)
    ensures |r| >= 1 && AllDigits(r)
    ensures |r| > 1 ==> r[0] != '0'
  {
    if n < 10 then [DigitChar(n)] else Decimal(n / 10) + [DigitChar(n % 10)]
  }

  /** The value of a string of decimal digits. */
  function DigitsValue(s: string): nat
    requires AllDigits(s)
  {
    if s == [] then 0 else DigitsValue(s[..|s| - 1]) * 10 + DigitValue(s[|s| - 1])
  }

  /** `String(x)` for the numbers of the model. */
  function NumText(x: Num): string {
    match x
    case NaN => "NaN"
    case Finite(n) => if n < 0 then "-" + Decimal(-n) else Decimal(n)
  }

  /** The longest prefix of `s` made of decimal digits. */
  function LeadingDigits(s: string): (r: string)
    ensures |r| <= |s| && r == s[..|r|] && AllDigits(r)
    ensures |r| < |s| ==> !IsDigit(s[|r|])
  {
    if s == [] || !IsDigit(s[0]) then [] else [s[0]] + LeadingDigits(s[1..])
  }

  /** The text after an optional leading sign. */
  function Unsigned(s: string): string {
    if |s| > 0 && (s[0] == '-' || s[0] == '+') then s[1..] else s
  }

  function Signed(negative: bool, magnitude: nat): int {
    if negative then -(magnitude as int) else magnitude
  }

  /** `parseInt(s)` (radix 10): an optional sign, then as many digits as follow;
      NaN when no digit follows the sign. */
  function ParseInt(s: string): Num {
    var digits := LeadingDigits(Unsigned(s));
    if digits == [] then NaN else Finite(Signed(|s| > 0 && s[0] == '-', DigitsValue(digits)))
  }

  /** `Number(s)`: the empty text is 0; a signed run of digits is its value;
      anything else is NaN. */
  function NumberOf(s: string): Num {
    if s == "" then Finite(0)
    else if Unsigned(s) != [] && AllDigits(Unsigned(s)) then Finite(Signed(s[0] == '-', DigitsValue(Unsigned(s))))
    else NaN
  }

  lemma {:induction false} DecimalValue(n: nat)
    ensures DigitsValue(Decimal(n)) == n
  {
    if n >= 10 {
      DecimalValue(n / 10);
      var d := Decimal(n);
      assert d[..|d| - 1] == Decimal(n / 10);
    }
  }

  /** Text written by `toString` reads back as the same number with `parseInt`. */
  lemma ParseIntRoundTrip(x: Num)
    ensures ParseInt(NumText(x)) == x
  {
    match x
    case NaN =>
      assert NumText(x)[0] == 'N';
    case Finite(n) =>
      var m: nat := if n < 0 then -n else n;
      var text := NumText(x);
      assert Unsigned(text) == Decimal(m);
      assert LeadingDigits(Decimal(m)) == Decimal(m);
      DecimalValue(m);
  }

  /** Text written by `toString` reads back as the same number with `Number`. */
  lemma NumberOfRoundTrip(n: int)
    ensures NumberOf(NumText(Finite(n))) == Finite(n)
  {
    var m: nat := if n < 0 then -n else n;
    assert Unsigned(NumText(Finite(n))) == Decimal(m);
    DecimalValue(m);
  }
}
