/**
 * Bytes and PHP's `pack('N', …)`: an unsigned 32-bit integer in network
 * (big-endian) byte order. `pack` keeps only the low 32 bits of its argument,
 * and that truncation is written out here.
 */
module Pack {
  newtype uint8 = x: int | 0 <= x < 0x100

  const TWO_32: int := 0x1_0000_0000

  /** `pack('N', x)`: the low 32 bits of `x`, most significant byte first. */
  function PackN(x: int): (r: seq<uint8>)
    ensures |r| == 4
  {
    var w := x % TWO_32;
    var w1 := w / 0x100;
    var w2 := w1 / 0x100;
    [(w2 / 0x100) as uint8, (w2 % 0x100) as uint8, (w1 % 0x100) as uint8, (w % 0x100) as uint8]
  }

  /** `unpack('N', b)`: the big-endian value of four bytes. */
  function UnpackN(b: seq<uint8>): (x: int)
    requires |b| == 4
    ensures 0 <= x < TWO_32
  {
    ((b[0] as int * 0x100 + b[1] as int) * 0x100 + b[2] as int) * 0x100 + b[3] as int
  }

  /** Unpacking recovers every value that fits in 32 bits. */
  lemma UnpackPackN(x: int)
    requires 0 <= x < TWO_32
    ensures UnpackN(PackN(x)) == x
  {
    var w1 := x / 0x100;
    var w2 := w1 / 0x100;
    var b := PackN(x);
    assert x % TWO_32 == x;
    assert b[0] as int == w2 / 0x100 && b[1] as int == w2 % 0x100;
    assert b[2] as int == w1 % 0x100 && b[3] as int == x % 0x100;
    calc {
      UnpackN(b);
      ((b[0] as int * 0x100 + b[1] as int) * 0x100 + b[2] as int) * 0x100 + b[3] as int;
      { assert b[0] as int * 0x100 + b[1] as int == w2; }
      (w2 * 0x100 + b[2] as int) * 0x100 + b[3] as int;
      { assert w2 * 0x100 + b[2] as int == w1; }
      w1 * 0x100 + b[3] as int;
      x;
    }
  }

  /** Packing the unpacked value gives the same four bytes back. */
  lemma PackUnpackN(b: seq<uint8>)
    requires |b| == 4
    ensures PackN(UnpackN(b)) == b
  {
    var x := UnpackN(b);
    var w2 := b[0] as int * 0x100 + b[1] as int;
    var w1 := w2 * 0x100 + b[2] as int;
    assert x == w1 * 0x100 + b[3] as int;
    assert x % TWO_32 == x;
    assert x / 0x100 == w1 && x % 0x100 == b[3] as int;
    assert w1 / 0x100 == w2 && w1 % 0x100 == b[2] as int;
    assert w2 / 0x100 == b[0] as int && w2 % 0x100 == b[1] as int;
  }

  /** `pack('N', …)` is blind to everything above bit 31. */
  lemma PackNTruncates(x: int, k: int)
    ensures PackN(x + k * TWO_32) == PackN(x)
  {
    assert (x + k * TWO_32) % TWO_32 == x % TWO_32;
  }
}
