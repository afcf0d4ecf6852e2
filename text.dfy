/**
 * The text renderings behind the leaf generators: the alphanumeric alphabet
 * of random strings, decimal and hexadecimal numerals (durations and guids),
 * and the two `DateTime.Now.ToString` formats.
 */
module Text {

  import opened Wrappers

  /** The 62 symbols random strings are drawn from, in the source's order. */
  const Upper: string := "ABCDEFGHIJKLMNOPQRSTUVWXYZ"
  const Lower: string := "abcdefghijklmnopqrstuvwxyz"
  const Decimal: string := "0123456789"
  const Alphabet: string := Upper + Lower + Decimal

  predicate IsAlphanumeric(c: char)
  {
    'A' <= c <= 'Z' || 'a' <= c <= 'z' || '0' <= c <= '9'
  }

  lemma InUpper(c: char) ensures c in Upper <==> 'A' <= c <= 'Z' {}
  lemma InLower(c: char) ensures c in Lower <==> 'a' <= c <= 'z' {}
  lemma InDecimal(c: char) ensures c in Decimal <==> '0' <= c <= '9' {}

  /** The alphabet is exactly the 62 ASCII letters and digits. */
  lemma AlphabetIsAlphanumeric()
    ensures |Alphabet| == 62
    ensures forall c :: c in Alphabet <==> IsAlphanumeric(c)
  {
    forall c ensures c in Alphabet <==> IsAlphanumeric(c) {
      InUpper(c);
      InLower(c);
      InDecimal(c);
      assert c in Alphabet <==> c in Upper || c in Lower || c in Decimal;
    }
  }

  /** What GenerateRandomString produces: eight symbols of the alphabet. */
  predicate IsRandomString(s: string)
  {
    |s| == 8 && forall i :: 0 <= i < |s| ==> s[i] in Alphabet
  }

  /** Digit symbols of bases up to 16, lower case as in the "N" guid format. */
  const HexDigits: string := "0123456789abcdef"

  function DigitChar(d: nat): char
    requires d < 16
  {
    HexDigits[d]
  }

  /** The value of a digit symbol (0 for anything else). */
  function DigitValue(c: char): nat
  {
    if '0' <= c <= '9' then c as int - '0' as int
    else if 'a' <= c <= 'f' then c as int - 'a' as int + 10
    else 0
  }

  lemma DigitValueOfChar(d: nat)
    requires d < 16
    ensures DigitValue(DigitChar(d)) == d
  {
  }

  function Pow(b: nat, w: nat): nat
  {
    if w == 0 then 1 else b * Pow(b, w - 1)
  }

  /** `c` is a digit symbol of `base` (lower-case letters above nine). */
  predicate IsDigit(c: char, base: nat)
  {
    ('0' <= c <= '9' && c as int - '0' as int < base) || ('a' <= c <= 'f' && c as int - 'a' as int + 10 < base)
  }

  /** `n` written in `base` with exactly `width` digits, most significant first. */
  function Digits(n: nat, base: nat, width: nat): (r: string)
    requires 2 <= base <= 16
    ensures |r| == width
    ensures forall i :: 0 <= i < width ==> IsDigit(r[i], base)
  {
    if width == 0 then []
    else Digits(n / base, base, width - 1) + [DigitChar(n % base)]
  }

  /** The value of a numeral in `base`. */
  function ParseDigits(s: string, base: nat): nat
  {
    if s == [] then 0 else ParseDigits(s[..|s| - 1], base) * base + DigitValue(s[|s| - 1])
  }

  lemma DivMod(n: nat, b: nat)
    requires b > 0
    ensures (n / b) * b + n % b == n
  {
  }

  lemma DivBelow(n: nat, b: nat, p: nat)
    requires b > 0 && n < b * p
    ensures n / b < p
  {
  }

  /** Dropping the last digit leaves a number of one digit fewer. */
  lemma DropDigit(n: nat, base: nat, width: nat)
    requires 2 <= base && width > 0 && n < Pow(base, width)
    ensures n / base < Pow(base, width - 1)
  {
    DivBelow(n, base, Pow(base, width - 1));
  }

  lemma DigitsLast(n: nat, base: nat, width: nat)
    requires 2 <= base <= 16 && width > 0
    ensures ParseDigits(Digits(n, base, width), base)
         == ParseDigits(Digits(n / base, base, width - 1), base) * base + DigitValue(DigitChar(n % base))
  {
    var s := Digits(n, base, width);
    assert s[..|s| - 1] == Digits(n / base, base, width - 1);
  }

  lemma DigitsStep(n: nat, base: nat, width: nat)
    requires 2 <= base <= 16 && width > 0
    requires ParseDigits(Digits(n / base, base, width - 1), base) == n / base
    ensures ParseDigits(Digits(n, base, width), base) == n
  {
    DigitsLast(n, base, width);
    DigitValueOfChar(n % base);
    DivMod(n, base);
  }

  /** A fixed-width numeral reads back as the number it was written from. */
  lemma {:induction false} DigitsRoundTrip(n: nat, base: nat, width: nat)
    requires 2 <= base <= 16
    requires n < Pow(base, width)
    ensures ParseDigits(Digits(n, base, width), base) == n
    decreases width
  {
    if width == 0 {
      assert n == 0;
    } else {
      var m := n / base;
      DropDigit(n, base, width);
      assert m < Pow(base, width - 1);
      DigitsRoundTrip(m, base, width - 1);
      DigitsStep(n, base, width);
    }
  }

  /** `int.ToString()` of a non-negative number: no leading zeros. */
  function DecimalString(n: nat): (r: string)
    ensures |r| > 0
    ensures forall i :: 0 <= i < |r| ==> '0' <= r[i] <= '9'
    ensures n >= 10 ==> r[0] != '0'
  {
    if n < 10 then [DigitChar(n)] else DecimalString(n / 10) + [DigitChar(n % 10)]
  }

  /** Decimal rendering is undone by parsing. */
  lemma {:induction false} DecimalRoundTrip(n: nat)
    ensures ParseDigits(DecimalString(n), 10) == n
  {
    var s := DecimalString(n);
    if n >= 10 {
      DecimalRoundTrip(n / 10);
      assert s[..|s| - 1] == DecimalString(n / 10);
      DigitValueOfChar(n % 10);
    } else {
      assert s[..0] == [];
      DigitValueOfChar(n);
    }
  }

  /** What GenerateRandomDuration produces: the decimal text of a number in [30, 300). */
  predicate IsDurationText(s: string)
  {
    var v := ParseDigits(s, 10);
    30 <= v < 300 && DecimalString(v) == s
  }

  lemma DurationTextIff(s: string)
    ensures IsDurationText(s) <==> exists v: nat :: 30 <= v < 300 && s == DecimalString(v)
  {
    if exists v: nat :: 30 <= v < 300 && s == DecimalString(v) {
      var v: nat :| 30 <= v < 300 && s == DecimalString(v);
      DecimalRoundTrip(v);
    }
  }

  /** What `Guid.ToString("N")` produces: 32 lower-case hexadecimal digits. */
  predicate IsGuidText(s: string)
  {
    |s| == 32 && forall i :: 0 <= i < |s| ==> IsDigit(s[i], 16)
  }

  /** The "N" rendering of a 128-bit guid value. */
  function GuidText(g: nat): (r: string)
    requires g < Pow(16, 32)
    ensures IsGuidText(r)
    ensures ParseDigits(r, 16) == g
  {
    DigitsRoundTrip(g, 16, 32);
    Digits(g, 16, 32)
  }
}
