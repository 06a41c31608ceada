/**
 * Rendering of unsigned numbers as digit strings, the way `std::ostream`
 * prints an unsigned value in decimal (the default) or in hexadecimal
 * (after `std::hex`: lower-case digits, no prefix, no leading zeros).
 */
module Text {

  /** The digit for `d` in bases up to 16. */
  function DigitChar(d: nat): char
    requires d < 16
  {
    if d < 10 then ('0' as int + d) as char else ('a' as int + d - 10) as char
  }

  /** The value of a digit character, or `base` if it is not a digit of `base`. */
  function DigitValue(c: char, base: nat): nat
    requires 2 <= base <= 16
  {
    if '0' <= c <= '9' && (c as int - '0' as int) < base then c as int - '0' as int
    else if 'a' <= c <= 'f' && (c as int - 'a' as int + 10) < base then c as int - 'a' as int + 10
    else base
  }

  predicate IsDigitString(s: string, base: nat)
    requires 2 <= base <= 16
  {
    |s| > 0 && forall i :: 0 <= i < |s| ==> DigitValue(s[i], base) < base
  }

  /** Digits of `n` in `base`, most significant first, without leading zeros. */
  function Render(n: nat, base: nat): (s: string)
    requires 2 <= base <= 16
    ensures IsDigitString(s, base)
    ensures s[0] != '0' || n == 0
    decreases n
  {
    if n < base then
      DigitRoundTrip(n, base);
      [DigitChar(n)]
    else
      DivMod(n, base);
      DigitRoundTrip(n % base, base);
      Render(n / base, base) + [DigitChar(n % base)]
  }

  lemma DivMod(n: nat, base: nat)
    requires 2 <= base <= 16 && n >= base
    ensures 0 < n / base < n && 0 <= n % base < base
    ensures n == (n / base) * base + n % base
  {
  }

  /** The number a digit string denotes. */
  function ValueOf(s: string, base: nat): nat
    requires 2 <= base <= 16
    requires IsDigitString(s, base)
  {
    if |s| == 1 then DigitValue(s[0], base)
    else ValueOf(s[..|s| - 1], base) * base + DigitValue(s[|s| - 1], base)
  }

  lemma DigitRoundTrip(d: nat, base: nat)
    requires 2 <= base <= 16 && d < base
    ensures DigitValue(DigitChar(d), base) == d
  {
  }

  function Decimal(n: nat): string
  {
    Render(n, 10)
  }

  function Hex(n: nat): string
  {
    Render(n, 16)
  }

  /** Printed digits can be read back: rendering loses no information. */
  lemma {:induction false} RenderRoundTrip(n: nat, base: nat)
    requires 2 <= base <= 16
    ensures ValueOf(Render(n, base), base) == n
    decreases n
  {
    if n < base {
      DigitRoundTrip(n, base);
    } else {
      var q, d := n / base, n % base;
      DivMod(n, base);
      RenderRoundTrip(q, base);
      DigitRoundTrip(d, base);
      var p := Render(q, base);
      var s := Render(n, base);
      assert s == p + [DigitChar(d)];
      hide DigitChar, DigitValue, Render;
      assert s[..|s| - 1] == p;
      assert ValueOf(s, base) == ValueOf(p, base) * base + DigitValue(DigitChar(d), base);
    }
  }

  /** Different numbers print differently. */
  lemma RenderInjective(m: nat, n: nat, base: nat)
    requires 2 <= base <= 16
    requires Render(m, base) == Render(n, base)
    ensures m == n
  {
    RenderRoundTrip(m, base);
    RenderRoundTrip(n, base);
  }
}
