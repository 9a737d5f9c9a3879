/** Identifier formatting used by the code generators: `format!("{}{}", ident, i)`
    and friends append the decimal rendering of an index to a base name. */
module Naming {

  /** The character for a decimal digit. */
  function DigitChar(d: nat): (c: char)
    requires d < 10
    ensures '0' <= c <= '9'
  {
    "0123456789"[d]
  }

  function DigitValue(c: char): nat
  {
    if '0' <= c <= '9' then (c - '0') as nat else 0
  }

  /** Rust's `Display` of a `usize`: shortest decimal digits, no sign, no padding. */
  function Decimal(n: nat): (s: string)
    ensures |s| >= 1
    ensures forall k :: 0 <= k < |s| ==> '0' <= s[k] <= '9'
    ensures |s| > 1 ==> s[0] != '0'
  {
    if n < 10 then [DigitChar(n)] else Decimal(n / 10) + [DigitChar(n % 10)]
  }

  /** Reads back a string of decimal digits. */
  function DecimalValue(s: string): nat
  {
    if s == [] then 0 else DecimalValue(s[..|s| - 1]) * 10 + DigitValue(s[|s| - 1])
  }

  lemma DigitRoundTrip(d: nat)
    requires d < 10
    ensures DigitValue(DigitChar(d)) == d
  {
    assert "0123456789"[d] as int - '0' as int == d;
  }

  /** Decimal rendering can be read back, so it is injective. */
  lemma {:induction false} DecimalRoundTrip(n: nat)
    ensures DecimalValue(Decimal(n)) == n
  {
    if n < 10 {
      DigitRoundTrip(n);
      assert Decimal(n)[..0] == [];
    } else {
      var s := Decimal(n);
      assert s[..|s| - 1] == Decimal(n / 10);
      DecimalRoundTrip(n / 10);
      DigitRoundTrip(n % 10);
    }
  }

  lemma DecimalInjective(i: nat, j: nat)
    ensures Decimal(i) == Decimal(j) ==> i == j
  {
    DecimalRoundTrip(i);
    DecimalRoundTrip(j);
  }

  /** `format_ident!("{}{}", base, i)`: a base name followed by a decimal index. */
  function Suffixed(base: string, i: nat): string
  {
    base + Decimal(i)
  }

  /** Two names formed from the same base differ exactly when their indices differ. */
  lemma SuffixedInjective(base: string, i: nat, j: nat)
    ensures Suffixed(base, i) == Suffixed(base, j) <==> i == j
  {
    if Suffixed(base, i) == Suffixed(base, j) {
      assert Decimal(i) == Suffixed(base, i)[|base|..];
      assert Decimal(j) == Suffixed(base, j)[|base|..];
      DecimalInjective(i, j);
    }
  }
}
