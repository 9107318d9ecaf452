/**
 * System.Guid values, with the "N" text format that .NET's
 * Guid.ToString("N") produces: 32 lower-case hexadecimal digits and no
 * separators. The 16 bytes of a Guid are held in the order of
 * Guid.ToByteArray(); the text shows the first three fields (a 4-byte, a
 * 2-byte and a 2-byte integer, stored little-endian) most significant byte
 * first, and the last 8 bytes in storage order.
 */
module Guids {
  import opened Wrappers
  import opened Bytes

  /** System.Guid, as its 16 bytes. */
  type Guid = s: seq<byte> | |s| == 16 witness [0, 0, 0, 0, 0, 0, 0, 0, 0, 0, 0, 0, 0, 0, 0, 0]

  /** Guid.Empty: all bytes zero. */
  const Empty: Guid := [0, 0, 0, 0, 0, 0, 0, 0, 0, 0, 0, 0, 0, 0, 0, 0]

  predicate IsLowerHexDigit(c: char) {
    '0' <= c <= '9' || 'a' <= c <= 'f'
  }

  function HexDigit(n: nat): (c: char)
    requires n < 16
    ensures IsLowerHexDigit(c)
  {
    if n < 10 then (48 + n) as char else (87 + n) as char
  }

  /** The value of one hexadecimal digit; both letter cases are accepted, as Guid parsing does. */
  function HexValue(c: char): Option<nat> {
    if '0' <= c <= '9' then Some(c as int - 48)
    else if 'a' <= c <= 'f' then Some(c as int - 87)
    else if 'A' <= c <= 'F' then Some(c as int - 55)
    else None
  }

  lemma HexValueOfDigit(n: nat)
    requires n < 16
    ensures HexValue(HexDigit(n)) == Some(n)
  {
  }

  /** Two digits per byte, high nibble first. */
  function HexBytes(bs: seq<byte>): (s: string)
    ensures |s| == 2 * |bs|
    ensures forall i :: 0 <= i < |s| ==> IsLowerHexDigit(s[i])
  {
    if bs == [] then [] else [HexDigit(bs[0] / 16), HexDigit(bs[0] % 16)] + HexBytes(bs[1..])
  }

  function ParseHexBytes(s: string): Option<seq<byte>> {
    if s == [] then Some([])
    else if |s| == 1 then None
    else match (HexValue(s[0]), HexValue(s[1]), ParseHexBytes(s[2..]))
      case (Some(hi), Some(lo), Some(rest)) =>
        if hi < 16 && lo < 16 then Some([16 * hi + lo] + rest) else None
      case _ => None
  }

  lemma {:induction false} ParseHexBytesRoundTrip(bs: seq<byte>)
    ensures ParseHexBytes(HexBytes(bs)) == Some(bs)
  {
    if bs != [] {
      var s := HexBytes(bs);
      assert s[2..] == HexBytes(bs[1..]);
      ParseHexBytesRoundTrip(bs[1..]);
      HexValueOfDigit(bs[0] / 16);
      HexValueOfDigit(bs[0] % 16);
      assert [bs[0]] + bs[1..] == bs;
    }
  }

  /** Where the i-th byte shown by the "N" format is stored; the map is its own inverse. */
  function DisplayIndex(i: nat): (j: nat)
    requires i < 16
    ensures j < 16
  {
    if i < 4 then 3 - i else if i < 6 then 9 - i else if i < 8 then 13 - i else i
  }

  function DisplayOrder(g: seq<byte>): (d: seq<byte>)
    requires |g| == 16
    ensures |d| == 16
  {
    seq(16, i requires 0 <= i < 16 => g[DisplayIndex(i)])
  }

  lemma DisplayOrderInvolution(g: seq<byte>)
    requires |g| == 16
    ensures DisplayOrder(DisplayOrder(g)) == g
  {
    var d := DisplayOrder(DisplayOrder(g));
    forall i | 0 <= i < 16 ensures d[i] == g[i] {
      assert DisplayIndex(DisplayIndex(i)) == i;
    }
  }

  /** Guid.ToString("N"). */
  function FormatN(g: Guid): (s: string)
    ensures |s| == 32
    ensures forall i :: 0 <= i < |s| ==> IsLowerHexDigit(s[i])
  {
    HexBytes(DisplayOrder(g))
  }

  /** The inverse of FormatN: 32 hexadecimal digits of either case, in the "N" field order. */
  function ParseN(s: string): Option<Guid> {
    if |s| != 32 then None
    else match ParseHexBytes(s)
      case Some(bs) => if |bs| == 16 then Some(DisplayOrder(bs)) else None
      case None => None
  }

  lemma FormatNRoundTrip(g: Guid)
    ensures ParseN(FormatN(g)) == Some(g)
  {
    ParseHexBytesRoundTrip(DisplayOrder(g));
    DisplayOrderInvolution(g);
  }

  /** Distinct Guids have distinct "N" renderings. */
  lemma FormatNInjective(g1: Guid, g2: Guid)
    ensures FormatN(g1) == FormatN(g2) ==> g1 == g2
  {
    FormatNRoundTrip(g1);
    FormatNRoundTrip(g2);
  }
}
