/**
 * Fixed-width hexadecimal rendering, as produced by the stream manipulators
 * `std::uppercase << std::hex << std::setw(16) << std::setfill('0')` applied
 * to a pointer-sized unsigned value, and the decoder that reads such digits back.
 */
module HexFormat {
  import opened Wrappers

  /** 16^n */
  function Pow16(n: nat): (p: nat)
    ensures p >= 1
  {
    if n == 0 then 1 else 16 * Pow16(n - 1)
  }

  /** The characters `std::uppercase << std::hex` can print. */
  predicate IsUpperHexDigit(c: char) {
    '0' <= c <= '9' || 'A' <= c <= 'F'
  }

  /** The uppercase digit for a value below 16. */
  function Digit(d: nat): (c: char)
    requires d < 16
    ensures IsUpperHexDigit(c)
  {
    if d < 10 then '0' + d as char else 'A' + (d - 10) as char
  }

  /** The value of one uppercase hex digit, or None for any other character. */
  function DigitValue(c: char): (r: Option<nat>)
    ensures r.Some? <==> IsUpperHexDigit(c)
    ensures r.Some? ==> r.value < 16
  {
    if '0' <= c <= '9' then Some((c - '0') as nat)
    else if 'A' <= c <= 'F' then Some((c - 'A') as nat + 10)
    else None
  }

  lemma DigitValueOfDigit(d: nat)
    requires d < 16
    ensures DigitValue(Digit(d)) == Some(d)
  {
  }

  /**
   * The low n hex digits of v, most significant first, padded on the left
   * with '0': the width-n field that setw(n)/setfill('0') produces when v
   * has at most n digits.
   */
  function HexDigits(v: nat, n: nat): (s: string)
    ensures |s| == n
    ensures forall i :: 0 <= i < n ==> IsUpperHexDigit(s[i])
  {
    if n == 0 then [] else HexDigits(v / 16, n - 1) + [Digit(v % 16)]
  }

  /** The value of a string of uppercase hex digits, most significant first. */
  function HexValue(s: string): (r: Option<nat>)
    ensures r.Some? <==> forall i :: 0 <= i < |s| ==> IsUpperHexDigit(s[i])
    ensures r.Some? ==> r.value < Pow16(|s|)
  {
    if s == [] then Some(0)
    else
      var high := HexValue(s[..|s| - 1]);
      var low := DigitValue(s[|s| - 1]);
      if high.None? || low.None? then None
      else Some(16 * high.value + low.value)
  }

  /** One more than the largest value of a 64-bit uintptr_t. */
  const UINTPTR_LIMIT: nat := 0x1_0000_0000_0000_0000

  lemma Pow16Of16()
    ensures Pow16(16) == UINTPTR_LIMIT
  {
    assert Pow16(4) == 0x1_0000 by {
      assert Pow16(2) == 0x100;
    }
    assert Pow16(8) == 0x1_0000_0000 by {
      assert Pow16(6) == 0x100_0000;
    }
    assert Pow16(12) == 0x1_0000_0000_0000 by {
      assert Pow16(10) == 0x100_0000_0000;
    }
    assert Pow16(14) == 0x100_0000_0000_0000;
  }

  /** A 64-bit value as the 16-character field the interceptor prints. */
  function Hex16(v: nat): (s: string)
    requires v < UINTPTR_LIMIT
    ensures |s| == 16
    ensures forall i :: 0 <= i < 16 ==> IsUpperHexDigit(s[i])
  {
    HexDigits(v, 16)
  }

  /** Decoding an n-digit field gives back any value that fits in n digits. */
  lemma {:induction false} HexDigitsValue(v: nat, n: nat)
    requires v < Pow16(n)
    ensures HexValue(HexDigits(v, n)) == Some(v)
  {
    if n > 0 {
      var s := HexDigits(v, n);
      HexDigitsValue(v / 16, n - 1);
      assert s[..|s| - 1] == HexDigits(v / 16, n - 1);
      DigitValueOfDigit(v % 16);
    }
  }

  /** Hex16 loses nothing: its 16 digits decode back to the value printed. */
  lemma Hex16RoundTrip(v: nat)
    requires v < UINTPTR_LIMIT
    ensures HexValue(Hex16(v)) == Some(v)
  {
    Pow16Of16();
    HexDigitsValue(v, 16);
  }

  /** Zero prints as sixteen '0' characters. */
  lemma Hex16OfZero()
    ensures Hex16(0) == "0000000000000000"
  {
    HexDigitsLeadingZeros(0, 16, 0);
  }

  /** Zero padding: a value below 16^k has '0' in every position left of its last k digits. */
  lemma {:induction false} HexDigitsLeadingZeros(v: nat, n: nat, k: nat)
    requires k <= n && v < Pow16(k)
    ensures forall i :: 0 <= i < n - k ==> HexDigits(v, n)[i] == '0'
  {
    if n > 0 {
      if k == 0 {
        assert v == 0;
        HexDigitsLeadingZeros(0, n - 1, 0);
      } else {
        assert v / 16 < Pow16(k - 1);
        HexDigitsLeadingZeros(v / 16, n - 1, k - 1);
      }
    }
  }
}
