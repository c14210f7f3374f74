/** Fixed-width digests and their hexadecimal form. How a digest is mixed is not modelled: hashing enters the ledger as
    uninterpreted functions (see LedgerTypes.Hashes). */
module Digests {
  const DIGEST_BYTES: int := 32
  const HEX_LENGTH: int := 64

  type Digest = s: seq<bv8> | |s| == 32 witness seq(32, _ => 0)

  /** Byte-wise comparison that never stops early: differences accumulate in one byte. */
  method DigestEqual(left: Digest, right: Digest) returns (equal: bool)
    ensures equal <==> left == right
  {
    var diff: bv8 := 0;
    for i := 0 to DIGEST_BYTES
      invariant diff == 0 <==> left[..i] == right[..i]
    {
      assert left[..i + 1] == left[..i] + [left[i]] && right[..i + 1] == right[..i] + [right[i]];
      DifferenceAccumulates(diff, left[i], right[i]);
      diff := diff | (left[i] ^ right[i]);
    }
    assert left[..DIGEST_BYTES] == left && right[..DIGEST_BYTES] == right;
    equal := diff == 0;
  }

  lemma DifferenceAccumulates(diff: bv8, x: bv8, y: bv8)
    ensures diff | (x ^ y) == 0 <==> diff == 0 && x == y
  {
  }

  /** The lookup table "0123456789abcdef", one row per nibble. */
  function HexDigit(n: bv8): char
    requires n < 16
  {
    match n
    case 0 => '0' case 1 => '1' case 2 => '2' case 3 => '3'
    case 4 => '4' case 5 => '5' case 6 => '6' case 7 => '7'
    case 8 => '8' case 9 => '9' case 10 => 'a' case 11 => 'b'
    case 12 => 'c' case 13 => 'd' case 14 => 'e' case _ => 'f'
  }

  function High(b: bv8): (n: bv8)
    ensures n < 16
  {
    (b >> 4) & 0x0f
  }

  function Low(b: bv8): (n: bv8)
    ensures n < 16
  {
    b & 0x0f
  }

  /** Two characters per byte, most significant digit first. */
  function Hex(bytes: seq<bv8>): (text: string)
    ensures |text| == 2 * |bytes|
  {
    if |bytes| == 0 then ""
    else
      var n := |bytes| - 1;
      Hex(bytes[..n]) + [HexDigit(High(bytes[n])), HexDigit(Low(bytes[n]))]
  }

  /** Fills the caller's 65-character buffer in place and terminates it. */
  method DigestToHex(digest: Digest, hex: array<char>)
    requires hex.Length == HEX_LENGTH + 1
    modifies hex
    ensures hex[..HEX_LENGTH] == Hex(digest)
    ensures hex[HEX_LENGTH] == '\0'
  {
    for i := 0 to DIGEST_BYTES
      invariant hex[..2 * i] == Hex(digest[..i])
    {
      hex[i * 2] := HexDigit(High(digest[i]));
      hex[i * 2 + 1] := HexDigit(Low(digest[i]));
      assert digest[..i + 1][..i] == digest[..i];
      assert hex[..2 * (i + 1)] == hex[..2 * i] + [hex[2 * i], hex[2 * i + 1]];
    }
    assert digest[..DIGEST_BYTES] == digest;
    hex[HEX_LENGTH] := '\0';
    assert hex[..HEX_LENGTH] == Hex(digest);
  }

  predicate IsHexDigit(c: char) {
    '0' <= c <= '9' || 'a' <= c <= 'f'
  }

  /** The nibble a lower-case hexadecimal digit stands for. */
  function HexValue(c: char): bv8
    requires IsHexDigit(c)
  {
    match c
    case '0' => 0 case '1' => 1 case '2' => 2 case '3' => 3
    case '4' => 4 case '5' => 5 case '6' => 6 case '7' => 7
    case '8' => 8 case '9' => 9 case 'a' => 10 case 'b' => 11
    case 'c' => 12 case 'd' => 13 case 'e' => 14 case _ => 15
  }

  /** The byte two digits stand for, most significant first. */
  function ByteOf(high: char, low: char): bv8
    requires IsHexDigit(high) && IsHexDigit(low)
  {
    (HexValue(high) << 4) | HexValue(low)
  }

  /** Reads hexadecimal text back, two digits per byte. */
  function Unhex(text: string): seq<bv8>
    requires forall c | c in text :: IsHexDigit(c)
  {
    if |text| < 2 then []
    else
      var n := |text| - 2;
      Unhex(text[..n]) + [ByteOf(text[n], text[n + 1])]
  }

  lemma DigitInverts(n: bv8)
    requires n < 16
    ensures IsHexDigit(HexDigit(n)) && HexValue(HexDigit(n)) == n
  {
  }

  lemma NibblesRebuild(b: bv8)
    ensures (High(b) << 4) | Low(b) == b
  {
  }

  /** The printed form is made of hexadecimal digits only, so it never contains a field separator. */
  lemma {:induction false} HexIsPlain(bytes: seq<bv8>)
    ensures forall c | c in Hex(bytes) :: IsHexDigit(c)
  {
    if |bytes| > 0 {
      var n := |bytes| - 1;
      HexIsPlain(bytes[..n]);
      DigitInverts(High(bytes[n]));
      DigitInverts(Low(bytes[n]));
    }
  }

  /** Reading one printed byte back. */
  lemma ByteRoundTrip(b: bv8)
    ensures IsHexDigit(HexDigit(High(b))) && IsHexDigit(HexDigit(Low(b)))
    ensures ByteOf(HexDigit(High(b)), HexDigit(Low(b))) == b
  {
    DigitInverts(High(b));
    DigitInverts(Low(b));
    NibblesRebuild(b);
    hide HexDigit, HexValue, IsHexDigit, High, Low;
  }

  lemma UnhexStep(front: string, a: char, b: char)
    requires (forall c | c in front :: IsHexDigit(c)) && IsHexDigit(a) && IsHexDigit(b)
    ensures Unhex(front + [a, b]) == Unhex(front) + [ByteOf(a, b)]
  {
    hide ByteOf, IsHexDigit;
    assert (front + [a, b])[..|front|] == front;
  }

  /** The printed form determines the bytes. */
  lemma {:induction false} HexRoundTrip(bytes: seq<bv8>)
    ensures (forall c | c in Hex(bytes) :: IsHexDigit(c)) && Unhex(Hex(bytes)) == bytes
  {
    hide HexDigit, ByteOf, IsHexDigit, High, Low;
    HexIsPlain(bytes);
    if |bytes| == 0 {
      assert Hex(bytes) == "";
    } else {
      var n := |bytes| - 1;
      HexRoundTrip(bytes[..n]);
      ByteRoundTrip(bytes[n]);
      UnhexStep(Hex(bytes[..n]), HexDigit(High(bytes[n])), HexDigit(Low(bytes[n])));
      hide Unhex;
      assert bytes == bytes[..n] + [bytes[n]];
    }
  }
}
