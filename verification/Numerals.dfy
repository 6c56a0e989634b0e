/** Big-endian integers and lower-case hex: the numerals of every stored name and header. */
module Numerals {
  import opened Volume

  // ------------------------------------------------------------- big-endian

  function Pow256(k: nat): nat {
    if k == 0 then 1 else 256 * Pow256(k - 1)
  }

  /** The last `k` bytes of `n`, most significant first; higher bytes are cut off. */
  function ToBE(n: nat, k: nat): (b: Bytes)
    ensures |b| == k
  {
    if k == 0 then [] else ToBE(n / 256, k - 1) + [(n % 256) as Byte]
  }

  function FromBE(b: Bytes): nat {
    if |b| == 0 then 0 else FromBE(b[..|b| - 1]) * 256 + b[|b| - 1] as nat
  }

  lemma {:induction false} FromToBE(n: nat, k: nat)
    requires n < Pow256(k)
    ensures FromBE(ToBE(n, k)) == n
  {
    if k > 0 {
      assert ToBE(n, k)[..k - 1] == ToBE(n / 256, k - 1);
      FromToBE(n / 256, k - 1);
    }
  }

  lemma {:induction false} ToFromBE(b: Bytes)
    ensures ToBE(FromBE(b), |b|) == b
    ensures FromBE(b) < Pow256(|b|)
  {
    if |b| > 0 {
      ToFromBE(b[..|b| - 1]);
      assert b == b[..|b| - 1] + [b[|b| - 1]];
    }
  }

  lemma Widths()
    ensures Pow256(4) == 0x1_0000_0000 && Pow256(8) == U64
  {
    assert Pow256(2) == 0x1_0000;
    assert Pow256(4) == 0x1_0000_0000;
    assert Pow256(6) == 0x1_0000_0000_0000;
  }

  // -------------------------------------------------------------------- hex

  const HEX := "0123456789abcdef"

  /** One hex digit as `from_str_radix` reads it: either case. */
  function DigitValue(c: char): (v: Option<nat>)
    ensures v.Some? ==> v.value < 16
  {
    if '0' <= c <= '9' then Some((c as int - '0' as int) as nat)
    else if 'a' <= c <= 'f' then Some((c as int - 'a' as int + 10) as nat)
    else if 'A' <= c <= 'F' then Some((c as int - 'A' as int + 10) as nat)
    else None
  }

  predicate LowerHex(c: char) {
    '0' <= c <= '9' || 'a' <= c <= 'f'
  }

  lemma DigitRoundTrip(n: nat)
    requires n < 16
    ensures DigitValue(HEX[n]) == Some(n) && LowerHex(HEX[n])
  {
  }

  lemma DigitCanonical(c: char)
    requires LowerHex(c)
    ensures DigitValue(c).Some? && HEX[DigitValue(c).value] == c
  {
  }

  function HexByte(b: Byte): string {
    [HEX[b as nat / 16], HEX[b as nat % 16]]
  }

  function Hex(b: Bytes): (s: string)
    ensures |s| == 2 * |b|
  {
    if |b| == 0 then [] else Hex(b[..|b| - 1]) + HexByte(b[|b| - 1])
  }

  /** Two digits as a byte. */
  function PairValue(hi: char, lo: char): Option<Byte> {
    var h, l := DigitValue(hi), DigitValue(lo);
    if h.Some? && l.Some? then Some((h.value * 16 + l.value) as Byte) else None
  }

  lemma PairRoundTrip(b: Byte)
    ensures PairValue(HexByte(b)[0], HexByte(b)[1]) == Some(b)
    ensures LowerHex(HexByte(b)[0]) && LowerHex(HexByte(b)[1]) && HexByte(b)[0] != '+'
  {
    DigitRoundTrip(b as nat / 16);
    DigitRoundTrip(b as nat % 16);
  }

  lemma Halves(h: nat, l: nat)
    requires h < 16 && l < 16
    ensures (h * 16 + l) / 16 == h && (h * 16 + l) % 16 == l && h * 16 + l < 256
  {
  }

  lemma PairCanonical(hi: char, lo: char)
    requires LowerHex(hi) && LowerHex(lo)
    ensures PairValue(hi, lo).Some? && HexByte(PairValue(hi, lo).value) == [hi, lo]
  {
    DigitCanonical(hi);
    DigitCanonical(lo);
    var h, l := DigitValue(hi).value, DigitValue(lo).value;
    Halves(h, l);
  }

  /** `u8::from_str_radix` of two characters: a leading plus sign is allowed before one digit. */
  function ParseByte(hi: char, lo: char): Option<Byte> {
    if hi == '+' then PairValue('0', lo) else PairValue(hi, lo)
  }

  /** Pairs of digits as bytes, or nothing if some pair does not parse. */
  function Unhex(s: string, pair: (char, char) -> Option<Byte>): (r: Option<Bytes>)
    requires |s| % 2 == 0
    ensures r.Some? ==> |r.value| * 2 == |s|
  {
    if |s| == 0 then Some([]) else
    var init, last := Unhex(s[..|s| - 2], pair), pair(s[|s| - 2], s[|s| - 1]);
    if init.Some? && last.Some? then Some(init.value + [last.value]) else None
  }

  ghost predicate Canonical(s: string) {
    forall i :: 0 <= i < |s| ==> LowerHex(s[i])
  }

  ghost predicate Reads(pair: (char, char) -> Option<Byte>) {
    forall hi, lo :: LowerHex(hi) ==> pair(hi, lo) == PairValue(hi, lo)
  }

  lemma {:induction false} UnhexHex(b: Bytes, pair: (char, char) -> Option<Byte>)
    requires Reads(pair)
    ensures Unhex(Hex(b), pair) == Some(b) && Canonical(Hex(b))
  {
    if |b| > 0 {
      var s := Hex(b);
      assert s[..|s| - 2] == Hex(b[..|b| - 1]);
      UnhexHex(b[..|b| - 1], pair);
      PairRoundTrip(b[|b| - 1]);
      assert [s[|s| - 2], s[|s| - 1]] == HexByte(b[|b| - 1]);
      assert b == b[..|b| - 1] + [b[|b| - 1]];
    }
  }

  lemma HexMore(b: Bytes, last: Byte)
    ensures Hex(b + [last]) == Hex(b) + HexByte(last)
  {
    assert (b + [last])[..|b|] == b;
  }

  lemma LastPair(s: string, init: string, hi: char, lo: char)
    requires |s| >= 2 && init == s[..|s| - 2] && hi == s[|s| - 2] && lo == s[|s| - 1] && Canonical(s)
    ensures s == init + [hi, lo] && Canonical(init) && LowerHex(hi) && LowerHex(lo)
  {
  }

  /** One more pair of digits. */
  lemma HexUnhexMore(init: string, hi: char, lo: char, pair: (char, char) -> Option<Byte>)
    requires Reads(pair) && LowerHex(hi) && LowerHex(lo) && |init| % 2 == 0
    requires Unhex(init, pair).Some? && Hex(Unhex(init, pair).value) == init
    ensures Unhex(init + [hi, lo], pair).Some? && Hex(Unhex(init + [hi, lo], pair).value) == init + [hi, lo]
  {
    PairCanonical(hi, lo);
    var s := init + [hi, lo];
    assert s[..|s| - 2] == init;
    HexMore(Unhex(init, pair).value, pair(hi, lo).value);
  }

  /** Lower-case digits are the hex of exactly the bytes they read as. */
  lemma {:induction false} HexUnhex(s: string, pair: (char, char) -> Option<Byte>)
    requires Reads(pair) && |s| % 2 == 0 && Canonical(s)
    ensures Unhex(s, pair).Some? && Hex(Unhex(s, pair).value) == s
  {
    if |s| > 0 {
      var init, hi, lo := s[..|s| - 2], s[|s| - 2], s[|s| - 1];
      LastPair(s, init, hi, lo);
      HexUnhex(init, pair);
      HexUnhexMore(init, hi, lo, pair);
    }
  }
}
