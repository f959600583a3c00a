/** Bytes and the little-endian integers the wire and the sound files are made of. */
module Bytes {

  type byte = x: int | 0 <= x < 256

  function UnLe32(bs: seq<byte>): (n: nat)
    requires |bs| == 4
    ensures n < 0x1_0000_0000
  {
    var b0: int, b1: int, b2: int, b3: int := bs[0], bs[1], bs[2], bs[3];
    b0 + 256 * b1 + 65536 * b2 + 16777216 * b3
  }

  /** The four bytes `struct.pack("<I", n)` gives. */
  function Le32(n: nat): (bs: seq<byte>)
    requires n < 0x1_0000_0000
    ensures |bs| == 4 && UnLe32(bs) == n
  {
    var n1 := n / 256;
    var n2 := n1 / 256;
    [n % 256, n1 % 256, n2 % 256, n2 / 256]
  }

  lemma Base256(low: int, high: int)
    requires 0 <= low < 256
    ensures (low + 256 * high) % 256 == low && (low + 256 * high) / 256 == high
  {
  }

  lemma Le32UnLe32(bs: seq<byte>)
    requires |bs| == 4
    ensures Le32(UnLe32(bs)) == bs
  {
    var b0: int, b1: int, b2: int, b3: int := bs[0], bs[1], bs[2], bs[3];
    Base256(b0, b1 + 256 * (b2 + 256 * b3));
    Base256(b1, b2 + 256 * b3);
    Base256(b2, b3);
  }

  lemma HighBytes(low: int, high: int)
    requires 0 <= low < 65536 && 0 <= high
    ensures (low + 65536 * high) / 65536 == high
  {
  }

  lemma TopByte(low: int, high: int)
    requires 0 <= low < 16777216 && 0 <= high
    ensures (low + 16777216 * high) / 16777216 == high
  {
  }

  /** The lowest byte comes first. */
  lemma Le32IsLittleEndian(n: nat)
    requires n < 0x1_0000_0000
    ensures var bs := Le32(n);
            bs[0] == n % 256 && bs[1] == n / 256 % 256 && bs[2] == n / 65536 % 256 && bs[3] == n / 16777216
  {
    var bs := Le32(n);
    var b0: int, b1: int, b2: int, b3: int := bs[0], bs[1], bs[2], bs[3];
    assert n == b0 + 256 * b1 + 65536 * b2 + 16777216 * b3;
    hide Le32;
    Base256(b0, b1 + 256 * (b2 + 256 * b3));
    Base256(b1, b2 + 256 * b3);
    Base256(b2, b3);
    HighBytes(b0 + 256 * b1, b2 + 256 * b3);
    TopByte(b0 + 256 * b1 + 65536 * b2, b3);
  }

  /** A signed 16-bit value. */
  predicate IsInt16(v: int) {
    -32768 <= v <= 32767
  }

  /** The two bytes `struct.pack("<h", v)` gives: two's complement, low byte first. */
  function Le16(v: int): (bs: seq<byte>)
    requires IsInt16(v)
    ensures |bs| == 2
  {
    var u := if v < 0 then v + 65536 else v;
    [u % 256, u / 256]
  }

  function UnLe16(bs: seq<byte>): (v: int)
    requires |bs| == 2
    ensures IsInt16(v) && Le16(v) == bs
  {
    var b0: int, b1: int := bs[0], bs[1];
    var u := b0 + 256 * b1;
    if u < 32768 then u else u - 65536
  }

  lemma Le16RoundTrip(v: int)
    requires IsInt16(v)
    ensures UnLe16(Le16(v)) == v
  {
  }

  /** Two's complement, the lower byte first. */
  lemma Le16IsLittleEndian(v: int)
    requires IsInt16(v)
    ensures Le16(v)[0] == v % 256 && Le16(v)[1] == v / 256 % 256
  {
  }

  lemma UnLe16IsLittleEndian(bs: seq<byte>)
    requires |bs| == 2
    ensures UnLe16(bs) == bs[0] as int + 256 * bs[1] as int - if bs[1] >= 128 then 65536 else 0
  {
  }
}
