/**
 * The provenance prefix of a sandboxed process's messages: "[Pip", the pip's semi-stable hash as
 * sixteen upper-case hexadecimal digits, " -- ", the pip's description, "] ". The hash is a
 * signed 64-bit value; the hexadecimal format prints its two's-complement bit pattern, so a
 * negative hash prints as a number of 2^63 or more. A missing description prints as nothing.
 */
module Provenance {
  import opened Wrappers
  import opened BoundedInts

  const HEX_DIGITS: string := "0123456789ABCDEF"

  /** The bit pattern of a signed 64-bit value, read as unsigned. */
  function Unsigned(h: int64): (u: nat)
    ensures u < TWO_TO_THE_64
  {
    if h < 0 then h as int + TWO_TO_THE_64 else h as nat
  }

  /** The signed 64-bit value with the given bit pattern. */
  function Signed(u: nat): int64
    requires u < TWO_TO_THE_64
  {
    if u < TWO_TO_THE_64 / 2 then u as int64 else (u - TWO_TO_THE_64) as int64
  }

  function Pow16(n: nat): (p: nat)
    ensures p > 0
  {
    if n == 0 then 1 else 16 * Pow16(n - 1)
  }

  /** The `n` lowest hexadecimal digits of `v`, most significant first. */
  function HexDigits(v: nat, n: nat): string {
    if n == 0 then [] else HexDigits(v / 16, n - 1) + [HEX_DIGITS[v % 16]]
  }

  /** The "X16" format of a 64-bit value. */
  function Hex16(h: int64): string {
    HexDigits(Unsigned(h), 16)
  }

  function DigitValue(c: char): Option<nat> {
    if '0' <= c <= '9' then Some(c as int - '0' as int)
    else if 'A' <= c <= 'F' then Some(c as int - 'A' as int + 10)
    else None
  }

  /** The value of a string of upper-case hexadecimal digits. */
  function HexValue(s: string): Option<nat> {
    if |s| == 0 then Some(0)
    else
      var high :- HexValue(s[..|s| - 1]);
      var low :- DigitValue(s[|s| - 1]);
      Some(high * 16 + low)
  }

  function DescriptionText(description: Option<string>): string {
    if description.Some? then description.value else []
  }

  /** The provenance string of a pip. */
  function ProvenanceText(pipSemiStableHash: int64, pipDescription: Option<string>): string {
    "[Pip" + Hex16(pipSemiStableHash) + " -- " + DescriptionText(pipDescription) + "] "
  }

  /** Reads a provenance string back into the hash and the description text. */
  function ParseProvenance(s: string): Option<(int64, string)> {
    if |s| < 26 || s[..4] != "[Pip" || s[20..24] != " -- " || s[|s| - 2..] != "] " then None
    else
      var u :- HexValue(s[4..20]);
      if u < TWO_TO_THE_64 then Some((Signed(u), s[24..|s| - 2])) else None
  }

  // ---------------------------------------------------------------- lemmas

  lemma {:induction false} HexDigitsLength(v: nat, n: nat)
    ensures |HexDigits(v, n)| == n
  {
    if n > 0 {
      HexDigitsLength(v / 16, n - 1);
    }
  }

  /** Every character of the format is an upper-case hexadecimal digit. */
  lemma {:induction false} HexDigitsAreDigits(v: nat, n: nat)
    ensures forall i | 0 <= i < |HexDigits(v, n)| :: HexDigits(v, n)[i] in HEX_DIGITS
  {
    if n > 0 {
      HexDigitsAreDigits(v / 16, n - 1);
      var s := HexDigits(v, n);
      assert s == HexDigits(v / 16, n - 1) + [HEX_DIGITS[v % 16]];
      forall i | 0 <= i < |s| ensures s[i] in HEX_DIGITS {
        if i < |HexDigits(v / 16, n - 1)| {
          assert s[i] == HexDigits(v / 16, n - 1)[i];
        }
      }
    }
  }

  lemma DigitValueOfDigit(d: nat)
    requires d < 16
    ensures DigitValue(HEX_DIGITS[d]) == Some(d)
  {
  }

  /** Reading the digits back gives the value, when it has at most `n` digits. */
  lemma {:induction false} HexValueOfDigits(v: nat, n: nat)
    requires v < Pow16(n)
    ensures HexValue(HexDigits(v, n)) == Some(v)
  {
    if n > 0 {
      var s := HexDigits(v, n);
      HexValueOfDigits(v / 16, n - 1);
      HexDigitsLength(v / 16, n - 1);
      DigitValueOfDigit(v % 16);
      assert s[..|s| - 1] == HexDigits(v / 16, n - 1);
      assert s[|s| - 1] == HEX_DIGITS[v % 16];
    }
  }

  lemma Pow16Of16()
    ensures Pow16(16) == TWO_TO_THE_64
  {
    assert Pow16(4) == 0x1_0000;
    assert Pow16(8) == 0x1_0000_0000 by {
      assert Pow16(5) == 0x10_0000;
      assert Pow16(6) == 0x100_0000;
      assert Pow16(7) == 0x1000_0000;
    }
    assert Pow16(12) == 0x1_0000_0000_0000 by {
      assert Pow16(9) == 0x10_0000_0000;
      assert Pow16(10) == 0x100_0000_0000;
      assert Pow16(11) == 0x1000_0000_0000;
    }
    assert Pow16(13) == 0x10_0000_0000_0000;
    assert Pow16(14) == 0x100_0000_0000_0000;
    assert Pow16(15) == 0x1000_0000_0000_0000;
  }

  /** The format is sixteen upper-case hexadecimal digits that read back as the hash. */
  lemma Hex16RoundTrip(h: int64)
    ensures |Hex16(h)| == 16
    ensures forall i | 0 <= i < 16 :: Hex16(h)[i] in HEX_DIGITS
    ensures HexValue(Hex16(h)).Some? && HexValue(Hex16(h)).value < TWO_TO_THE_64
    ensures Signed(HexValue(Hex16(h)).value) == h
  {
    Pow16Of16();
    HexDigitsLength(Unsigned(h), 16);
    HexDigitsAreDigits(Unsigned(h), 16);
    HexValueOfDigits(Unsigned(h), 16);
  }

  /** A provenance string reads back as the hash and the description; a missing description
      reads back as the empty one, which the format cannot tell apart. */
  lemma ProvenanceRoundTrip(h: int64, description: Option<string>)
    ensures ParseProvenance(ProvenanceText(h, description)) == Some((h, DescriptionText(description)))
  {
    var s := ProvenanceText(h, description);
    var d := DescriptionText(description);
    Hex16RoundTrip(h);
    assert s[..4] == "[Pip";
    assert s[4..20] == Hex16(h);
    assert s[20..24] == " -- ";
    assert s[24..|s| - 2] == d;
    assert s[|s| - 2..] == "] ";
  }
}
