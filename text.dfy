/**
 * The few string operations of Python the model needs: `str.lower`,
 * the substring test `sub in s`, and the decimal rendering of an `int`
 * that an f-string performs.
 */
module Text {
  import opened Seqs

  /** `str.lower` on one character, as far as it can change membership in an
      ASCII allow-list: A-Z become a-z, and U+212A KELVIN SIGN becomes 'k'
      (the only non-ASCII character whose lower case is ASCII). Every other
      character is left unchanged. */
  function LowerChar(c: char): char {
    if 'A' <= c <= 'Z' then (c as int + 32) as char
    else if c == 'K' then 'k'
    else c
  }

  function Lower(s: string): string {
    seq(|s|, i requires 0 <= i < |s| => LowerChar(s[i]))
  }

  /** Lower-casing never moves a '.' or a '/', and changes nothing twice. */
  lemma LowerKeepsSeparators(c: char)
    ensures LowerChar(c) == '.' <==> c == '.'
    ensures LowerChar(c) == '/' <==> c == '/'
    ensures LowerChar(LowerChar(c)) == LowerChar(c)
  {
  }

  predicate StartsWith(s: string, prefix: string) {
    |prefix| <= |s| && s[..|prefix|] == prefix
  }

  /** sub occurs in s starting at index i. */
  predicate OccursAt(s: string, sub: string, i: int) {
    0 <= i <= |s| - |sub| && s[i..i + |sub|] == sub
  }

  /** Python's `sub in s`: scans s from the left for an occurrence of sub. */
  function Contains(s: string, sub: string): (b: bool)
    ensures b <==> exists i :: OccursAt(s, sub, i)
    decreases |s|
  {
    if StartsWith(s, sub) then
      assert OccursAt(s, sub, 0);
      true
    else if |s| == 0 then false
    else
      var r := Contains(s[1..], sub);
      assert forall i :: OccursAt(s, sub, i) ==> i >= 1 && OccursAt(s[1..], sub, i - 1);
      assert forall j :: OccursAt(s[1..], sub, j) ==> OccursAt(s, sub, j + 1);
      r
  }

  function DigitChar(d: nat): char
    requires d < 10
  {
    ('0' as int + d) as char
  }

  function DigitValue(c: char): int {
    c as int - '0' as int
  }

  /** Decimal digits of n, most significant first, without leading zeros. */
  function NatToDecimal(n: nat): (s: string)
    ensures 0 < |s|
    ensures forall i :: 0 <= i < |s| ==> '0' <= s[i] <= '9'
    ensures 1 < |s| ==> s[0] != '0'
  {
    if n < 10 then [DigitChar(n)] else NatToDecimal(n / 10) + [DigitChar(n % 10)]
  }

  /** What `f"{n}"` prints for an int n. */
  function IntToDecimal(n: int): (s: string)
    ensures 0 < |s|
  {
    if n < 0 then "-" + NatToDecimal(-n) else NatToDecimal(n)
  }

  /** Reads back a string of decimal digits. */
  function DecimalValue(s: string): int {
    if |s| == 0 then 0 else 10 * DecimalValue(s[..|s| - 1]) + DigitValue(s[|s| - 1])
  }

  /** Reads back what `f"{n}"` printed. */
  function IntValue(s: string): int {
    if 0 < |s| && s[0] == '-' then -DecimalValue(s[1..]) else DecimalValue(s)
  }

  lemma DigitRoundTrip(d: nat)
    requires d < 10
    ensures DigitValue(DigitChar(d)) == d
  {
  }

  lemma {:induction false} NatToDecimalRoundTrip(n: nat)
    ensures DecimalValue(NatToDecimal(n)) == n
  {
    DigitRoundTrip(n % 10);
    if n >= 10 {
      var s := NatToDecimal(n);
      var init := NatToDecimal(n / 10);
      var last := DigitChar(n % 10);
      assert s == init + [last];
      InitLast(init, last);
      NatToDecimalRoundTrip(n / 10);
    }
  }

  /** The rendering of an int can be read back: distinct tracks give distinct strings. */
  lemma IntToDecimalRoundTrip(n: int)
    ensures IntValue(IntToDecimal(n)) == n
  {
    var s := IntToDecimal(n);
    if n < 0 {
      var digits := NatToDecimal(-n);
      NatToDecimalRoundTrip(-n);
      assert s == ['-'] + digits;
      ConsParts('-', digits);
    } else {
      var digits := NatToDecimal(n);
      NatToDecimalRoundTrip(n);
      assert s == digits && '0' <= s[0];
    }
  }
}
