/**
 * Fixed-width integer encodings as written and read by the browser's
 * `DataView` (`setUint16`, `setUint32`, `setInt16` and their getters).
 * A setter first converts its number to the field width the way the
 * ECMAScript ToUint16 / ToUint32 / ToInt16 conversions do (reduction
 * modulo 2^16 or 2^32), then lays the bytes out in the requested order.
 */
module ByteCodec {

  type Byte = b: int | 0 <= b < 0x100
  type Int16 = x: int | -0x8000 <= x < 0x8000

  const TwoTo16: int := 0x1_0000
  const TwoTo32: int := 0x1_0000_0000

  // ---------------------------------------------------------------------
  // Arithmetic on Euclidean division
  // ---------------------------------------------------------------------

  /** Division with remainder has a unique answer. */
  lemma DivModUnique(v: int, d: int, q: int, m: int)
    requires d > 0 && v == d * q + m && 0 <= m < d
    ensures v / d == q && v % d == m
  {
    var q', m' := v / d, v % d;
    assert d * (q - q') == m' - m;
    MulAwayFromZero(d, q - q');
  }

  lemma MulAwayFromZero(d: int, e: int)
    requires d > 0
    ensures e >= 1 ==> d * e >= d
    ensures e <= -1 ==> d * e <= -d
  {
    if e >= 1 {
      assert d * e == d * (e - 1) + d;
      assert d * (e - 1) >= 0;
    } else if e <= -1 {
      assert d * e == d * (e + 1) - d;
      assert d * (e + 1) <= 0;
    }
  }

  /** Reducing modulo a*b is reducing modulo a, then the quotient modulo b. */
  lemma DivModSplit(v: int, a: int, b: int)
    requires a > 0 && b > 0
    ensures v % (a * b) == v % a + a * ((v / a) % b)
  {
    var q, r := v / a, v % a;
    var q2, r2 := q / b, q % b;
    assert v == (a * b) * q2 + (a * r2 + r) by {
      assert v == a * q + r;
      assert q == b * q2 + r2;
      assert a * q == a * (b * q2) + a * r2;
    }
    assert a * r2 <= a * (b - 1);
    DivModUnique(v, a * b, q2, a * r2 + r);
  }

  // ---------------------------------------------------------------------
  // Encoders (what a DataView setter writes)
  // ---------------------------------------------------------------------

  /** `setUint16(offset, v, true)`: the low 16 bits of `v`, low byte first. */
  function Uint16LE(v: int): (r: seq<Byte>)
    ensures |r| == 2
  {
    [v % 0x100, (v / 0x100) % 0x100]
  }

  /** `setUint32(offset, v, true)`: the low 32 bits of `v`, low byte first. */
  function Uint32LE(v: int): (r: seq<Byte>)
    ensures |r| == 4
  {
    Uint16LE(v) + Uint16LE(v / TwoTo16)
  }

  /** `setUint32(offset, v, false)`: the low 32 bits of `v`, high byte first. */
  function Uint32BE(v: int): (r: seq<Byte>)
    ensures |r| == 4
  {
    [(v / 0x100_0000) % 0x100, (v / TwoTo16) % 0x100, (v / 0x100) % 0x100, v % 0x100]
  }

  /** `setInt16(offset, v, true)`: the 16-bit two's complement of `v`, low
      byte first (the same bytes as the unsigned setter on `v`). */
  function Int16LE(v: Int16): (r: seq<Byte>)
    ensures |r| == 2
  {
    Uint16LE(v)
  }

  // ---------------------------------------------------------------------
  // Decoders (what a DataView getter reads)
  // ---------------------------------------------------------------------

  /** `getUint16(off, true)` */
  function GetUint16(s: seq<Byte>, off: nat): (r: int)
    requires off + 2 <= |s|
    ensures 0 <= r < TwoTo16
  {
    s[off] as int + 0x100 * (s[off + 1] as int)
  }

  /** `getUint32(off, true)` */
  function GetUint32(s: seq<Byte>, off: nat): (r: int)
    requires off + 4 <= |s|
    ensures 0 <= r < TwoTo32
  {
    GetUint16(s, off) + TwoTo16 * GetUint16(s, off + 2)
  }

  /** `getUint32(off, false)` */
  function GetUint32BE(s: seq<Byte>, off: nat): (r: int)
    requires off + 4 <= |s|
    ensures 0 <= r < TwoTo32
  {
    TwoTo16 * (0x100 * (s[off] as int) + s[off + 1]) + (0x100 * (s[off + 2] as int) + s[off + 3])
  }

  /** `getInt16(off, true)`: the unsigned value read back as two's complement. */
  function GetInt16(s: seq<Byte>, off: nat): (r: Int16)
    requires off + 2 <= |s|
  {
    var u := GetUint16(s, off);
    if u < 0x8000 then u else u - TwoTo16
  }

  // ---------------------------------------------------------------------
  // Round trips
  // ---------------------------------------------------------------------

  lemma Uint16RoundTrip(v: int)
    ensures GetUint16(Uint16LE(v), 0) == v % TwoTo16
  {
    DivModSplit(v, 0x100, 0x100);
  }

  lemma Uint32RoundTrip(v: int)
    ensures GetUint32(Uint32LE(v), 0) == v % TwoTo32
  {
    var r := Uint32LE(v);
    assert r[2..] == Uint16LE(v / TwoTo16);
    Uint16RoundTrip(v);
    Uint16RoundTrip(v / TwoTo16);
    DivModSplit(v, TwoTo16, TwoTo16);
  }

  lemma Uint32BERoundTrip(v: int)
    ensures GetUint32BE(Uint32BE(v), 0) == v % TwoTo32
  {
    DivModSplit(v, 0x100, 0x100);
    DivModSplit(v / TwoTo16, 0x100, 0x100);
    assert (v / TwoTo16) / 0x100 == v / 0x100_0000 by {
      DivModUnique(v, 0x100_0000, (v / TwoTo16) / 0x100,
                   v % TwoTo16 + TwoTo16 * ((v / TwoTo16) % 0x100));
    }
    DivModSplit(v, TwoTo16, TwoTo16);
  }

  /** The other direction: writing back a big-endian value just read
      gives the same four bytes. */
  lemma BytesOfUint32BE(s: seq<Byte>, off: nat)
    requires off + 4 <= |s|
    ensures Uint32BE(GetUint32BE(s, off)) == s[off..off + 4]
  {
    var b0, b1, b2, b3 := s[off] as int, s[off + 1] as int, s[off + 2] as int, s[off + 3] as int;
    var v := GetUint32BE(s, off);
    assert v == 0x100_0000 * b0 + TwoTo16 * b1 + 0x100 * b2 + b3;
    DivModUnique(v, 0x100, TwoTo16 * b0 + 0x100 * b1 + b2, b3);
    DivModUnique(v, TwoTo16, 0x100 * b0 + b1, 0x100 * b2 + b3);
    DivModUnique(v, 0x100_0000, b0, TwoTo16 * b1 + 0x100 * b2 + b3);
    DivModUnique(TwoTo16 * b0 + 0x100 * b1 + b2, 0x100, 0x100 * b0 + b1, b2);
    DivModUnique(0x100 * b0 + b1, 0x100, b0, b1);
    DivModUnique(b0, 0x100, 0, b0);
  }

  /** Every 16-bit signed value survives a write and a read. */
  lemma Int16RoundTrip(v: Int16)
    ensures GetInt16(Int16LE(v), 0) == v
  {
    Uint16RoundTrip(v);
    if v < 0 {
      DivModUnique(v, TwoTo16, -1, v + TwoTo16);
    } else {
      DivModUnique(v, TwoTo16, 0, v);
    }
  }

  // ---------------------------------------------------------------------
  // Reading a field back at its offset
  // ---------------------------------------------------------------------

  lemma ReadUint16At(s: seq<Byte>, off: nat, v: int)
    requires off + 2 <= |s| && s[off..off + 2] == Uint16LE(v)
    ensures GetUint16(s, off) == v % TwoTo16
  {
    assert s[off] == s[off..off + 2][0] && s[off + 1] == s[off..off + 2][1];
    Uint16RoundTrip(v);
  }

  lemma ReadUint32At(s: seq<Byte>, off: nat, v: int)
    requires off + 4 <= |s| && s[off..off + 4] == Uint32LE(v)
    ensures GetUint32(s, off) == v % TwoTo32
  {
    var w := s[off..off + 4];
    assert s[off] == w[0] && s[off + 1] == w[1] && s[off + 2] == w[2] && s[off + 3] == w[3];
    Uint32RoundTrip(v);
  }

  lemma ReadUint32BEAt(s: seq<Byte>, off: nat, v: int)
    requires off + 4 <= |s| && s[off..off + 4] == Uint32BE(v)
    ensures GetUint32BE(s, off) == v % TwoTo32
  {
    var w := s[off..off + 4];
    assert s[off] == w[0] && s[off + 1] == w[1] && s[off + 2] == w[2] && s[off + 3] == w[3];
    Uint32BERoundTrip(v);
  }

  lemma ReadInt16At(s: seq<Byte>, off: nat, v: Int16)
    requires off + 2 <= |s| && s[off..off + 2] == Int16LE(v)
    ensures GetInt16(s, off) == v
  {
    assert s[off] == s[off..off + 2][0] && s[off + 1] == s[off..off + 2][1];
    Int16RoundTrip(v);
  }
}
