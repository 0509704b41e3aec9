/** The cursor reader used for every variable-length structure of an image
    (`ByteStream`, DllReader.cs).

    Each read is first defined as a pure function of the bytes and a start
    offset, returning the value and the offset just past it; the `ByteStream`
    class then advances a cursor field through those functions. A read that
    leaves the file is an `OutOfRange` failure and leaves the cursor where it
    was. */
module Streams {
  import opened Wrappers
  import opened Bytes

  // ---------------------------------------------------------------------
  // Reads as functions of (bytes, offset)

  /** `ReadByte`, `ReadUInt16`, `ReadUInt32` and `ReadUInt64` as functions:
      a little-endian unsigned integer of 1, 2, 4 or 8 bytes, and the offset
      just past it. */
  function ByteAt(data: seq<Byte>, off: nat): (r: Result<Parsed<nat>>)
    ensures r.Ok? <==> off + 1 <= |data|
    ensures r.Ok? ==> r.value.next == off + 1 && r.value.value == data[off] < 0x100
  {
    var v :- U8(data, off);
    Ok(Parsed(v, off + 1))
  }

  function UInt16At(data: seq<Byte>, off: nat): (r: Result<Parsed<nat>>)
    ensures r.Ok? <==> off + 2 <= |data|
    ensures r.Ok? ==> r.value.next == off + 2 && r.value.value == Word(data, off) < 0x1_0000
  {
    var v :- U16(data, off);
    Ok(Parsed(v, off + 2))
  }

  function UInt32At(data: seq<Byte>, off: nat): (r: Result<Parsed<nat>>)
    ensures r.Ok? <==> off + 4 <= |data|
    ensures r.Ok? ==> r.value.next == off + 4 && r.value.value == DWord(data, off) < TWO_32
  {
    var v :- U32(data, off);
    Ok(Parsed(v, off + 4))
  }

  function UInt64At(data: seq<Byte>, off: nat): (r: Result<Parsed<nat>>)
    ensures r.Ok? <==> off + 8 <= |data|
    ensures r.Ok? ==> r.value.next == off + 8 && r.value.value == QWord(data, off) < TWO_32 * TWO_32
  {
    var v :- U64(data, off);
    Ok(Parsed(v, off + 8))
  }

  lemma Pow2Add(a: nat, b: nat)
    ensures Pow2(a + b) == Pow2(a) * Pow2(b)
  {
    if a > 0 {
      Pow2Add(a - 1, b);
    }
  }

  lemma Pow2Values()
    ensures Pow2(8) == 0x100 && Pow2(16) == 0x1_0000 && Pow2(24) == 0x100_0000
    ensures Pow2(32) == TWO_32
  {
    assert Pow2(4) == 16;
    Pow2Add(4, 4);
    Pow2Add(8, 8);
    Pow2Add(8, 16);
    Pow2Add(16, 16);
  }

  /** `ReadStringWithLen`: a u32 length, then the zero-terminated byte string
      that starts right after it; the cursor moves by the stated length,
      whatever the string's own length is. */
  function StringWithLenAt(data: seq<Byte>, off: nat): (r: Result<Parsed<NetString>>)
    ensures r.Ok? ==> off + 4 <= |data| && r.value.next == off + 4 + DWord(data, off)
    ensures r.Ok? ==> CString(data, off + 4) == Ok(r.value.value)
  {
    var len :- U32(data, off);
    var s :- CString(data, off + 4);
    Ok(Parsed(s, off + 4 + len))
  }

  /** `ReadUnicodeString`: a zero-terminated UTF-16 string, terminator consumed. */
  function UnicodeStringAt(data: seq<Byte>, off: nat): (r: Result<Parsed<NetString>>)
    ensures r.Ok? ==> r.value.next == off + 2 * (|r.value.value| + 1) <= |data|
    ensures r.Ok? ==> WString(data, off) == Ok(r.value.value)
    ensures r.Err? <==> WString(data, off).Err?
  {
    var s :- WString(data, off);
    Ok(Parsed(s, off + 2 * (|s| + 1)))
  }

  /** `ReadString(aligned)`: a zero-terminated byte string; with `aligned`
      the consumed length (terminator included) is rounded up to a multiple
      of four. */
  function ByteStringAt(data: seq<Byte>, off: nat, aligned: bool): (r: Result<Parsed<NetString>>)
    ensures r.Ok? ==> CString(data, off) == Ok(r.value.value)
    ensures r.Err? <==> CString(data, off).Err?
    ensures r.Ok? && !aligned ==> r.value.next == off + |r.value.value| + 1
    ensures r.Ok? && aligned ==> r.value.next == off + Align4(|r.value.value| + 1)
  {
    var s :- CString(data, off);
    Ok(Parsed(s, off + if aligned then Align4(|s| + 1) else |s| + 1))
  }

  /** `ReadBytes(len)`: the next `len` bytes. */
  function BytesAt(data: seq<Byte>, off: nat, len: nat): (r: Result<Parsed<seq<Byte>>>)
    ensures r.Ok? <==> off + len <= |data|
    ensures r.Ok? ==> r.value.next == off + len && |r.value.value| == len
    ensures r.Ok? ==> forall i :: 0 <= i < len ==> r.value.value[i] == data[off + i]
  {
    if off + len <= |data| then Ok(Parsed(data[off..off + len], off + len)) else Err(OutOfRange)
  }

  // ---------------------------------------------------------------------
  // Compressed unsigned integers (ECMA-335 Partition II, section II.23.2)

  /** `DecodeInt32`: the first byte selects a 1-, 2- or 4-byte form. Its top
      bit clear: the byte itself. Top bits `10`: its low six bits, then one
      more byte. Otherwise its low six bits, then three more bytes, most
      significant first. The fields occupy disjoint bit ranges, so the
      bitwise ORs of `DecodeInt32` are additions here. */
  function CompressedIntAt(data: seq<Byte>, off: nat): (r: Result<Parsed<nat>>)
    ensures r.Ok? ==> r.value.value < 0x4000_0000 && off < |data|
    ensures r.Ok? ==> (data[off] < 0x80 ==> r.value.next == off + 1 && r.value.value == data[off])
    ensures r.Ok? ==> (0x80 <= data[off] < 0xC0 ==> r.value.next == off + 2)
    ensures r.Ok? ==> (0xC0 <= data[off] ==> r.value.next == off + 4)
    ensures r.Err? <==> off >= |data|
                        || (0x80 <= data[off] < 0xC0 && off + 2 > |data|)
                        || (0xC0 <= data[off] && off + 4 > |data|)
  {
    var b0 :- U8(data, off);
    if b0 < 0x80 then Ok(Parsed(b0, off + 1))
    else if b0 / 0x40 == 2 then
      var b1 :- U8(data, off + 1);
      Ok(Parsed((b0 % 0x40) * 0x100 + b1, off + 2))
    else
      var b1 :- U8(data, off + 1);
      var b2 :- U8(data, off + 2);
      var b3 :- U8(data, off + 3);
      Ok(Parsed((b0 % 0x40) * 0x100_0000 + b1 * 0x1_0000 + b2 * 0x100 + b3, off + 4))
  }

  /** The shortest encoding of `v` that ECMA-335 section II.23.2 defines
      (values below 2^29). */
  function EncodeCompressed(v: nat): (r: seq<Byte>)
    requires v < 0x2000_0000
    ensures |r| == 1 || |r| == 2 || |r| == 4
  {
    if v < 0x80 then [v]
    else if v < 0x4000 then [0x80 + v / 0x100, v % 0x100]
    else [0xC0 + v / 0x100_0000, (v / 0x1_0000) % 0x100, (v / 0x100) % 0x100, v % 0x100]
  }

  /** Decoding an encoded value gives it back and consumes exactly its
      encoding, whatever follows it. */
  lemma CompressedRoundTrip(v: nat, rest: seq<Byte>)
    requires v < 0x2000_0000
    ensures CompressedIntAt(EncodeCompressed(v) + rest, 0) == Ok(Parsed(v, |EncodeCompressed(v)|))
  {
    var e := EncodeCompressed(v);
    var d := e + rest;
    assert d[0] == e[0];
    if v < 0x80 {
    } else if v < 0x4000 {
      assert d[1] == e[1];
      assert (0x80 + v / 0x100) % 0x40 == v / 0x100;
    } else {
      assert d[1] == e[1] && d[2] == e[2] && d[3] == e[3];
      assert (0xC0 + v / 0x100_0000) % 0x40 == v / 0x100_0000;
      BigEndianDigits(v);
    }
  }

  /** A value below 2^30 is its four base-256 digits. */
  lemma BigEndianDigits(v: nat)
    requires v < 0x4000_0000
    ensures v == (v / 0x100_0000) * 0x100_0000 + ((v / 0x1_0000) % 0x100) * 0x1_0000
                 + ((v / 0x100) % 0x100) * 0x100 + v % 0x100
  {
    var q1 := v / 0x100;
    var q2 := q1 / 0x100;
    var q3 := q2 / 0x100;
    assert v == q1 * 0x100 + v % 0x100;
    assert q1 == q2 * 0x100 + q1 % 0x100;
    assert q2 == q3 * 0x100 + q2 % 0x100;
    assert q2 == v / 0x1_0000;
    assert q3 == v / 0x100_0000;
  }

  // ---------------------------------------------------------------------
  // The cursor

  /** Where a cursor stands after a read: past the value on success, and
      unmoved on failure. */
  function NextOr<T>(r: Result<Parsed<T>>, p: nat): nat {
    if r.Ok? then r.value.next else p
  }

  class ByteStream {
    const data: seq<Byte>
    var p: nat

    constructor (data: seq<Byte>, p: nat)
      ensures this.data == data && this.p == p
    {
      this.data := data;
      this.p := p;
    }

    method ReadByte() returns (r: Result<nat>)
      modifies this
      ensures r == Value(ByteAt(data, old(p))) && p == NextOr(ByteAt(data, old(p)), old(p))
    {
      var s := ByteAt(data, p);
      if s.Ok? {
        r := Ok(s.value.value);
        p := s.value.next;
      } else {
        r := Err(s.error);
      }
    }

    method ReadUInt16() returns (r: Result<nat>)
      modifies this
      ensures r == Value(UInt16At(data, old(p))) && p == NextOr(UInt16At(data, old(p)), old(p))
    {
      var s := UInt16At(data, p);
      if s.Ok? {
        r := Ok(s.value.value);
        p := s.value.next;
      } else {
        r := Err(s.error);
      }
    }

    method ReadUInt32() returns (r: Result<nat>)
      modifies this
      ensures r == Value(UInt32At(data, old(p))) && p == NextOr(UInt32At(data, old(p)), old(p))
    {
      var s := UInt32At(data, p);
      if s.Ok? {
        r := Ok(s.value.value);
        p := s.value.next;
      } else {
        r := Err(s.error);
      }
    }

    method ReadUInt64() returns (r: Result<nat>)
      modifies this
      ensures r == Value(UInt64At(data, old(p))) && p == NextOr(UInt64At(data, old(p)), old(p))
    {
      var s := UInt64At(data, p);
      if s.Ok? {
        r := Ok(s.value.value);
        p := s.value.next;
      } else {
        r := Err(s.error);
      }
    }

    /** Moves the cursor without reading; returns where it stood. */
    method Advance(nb: nat) returns (start: nat)
      modifies this
      ensures start == old(p) && p == old(p) + nb
    {
      start := p;
      p := p + nb;
    }

    /** `Align(4)`: up to the next multiple of four. */
    method Align()
      modifies this
      ensures p == Align4(old(p))
    {
      p := Align4(p);
    }

    method ReadStringWithLen() returns (r: Result<NetString>)
      modifies this
      ensures r == Value(StringWithLenAt(data, old(p))) && p == NextOr(StringWithLenAt(data, old(p)), old(p))
    {
      var start := p;
      var len := ReadUInt32();
      if len.Err? {
        return Err(len.error);
      }
      var s := CString(data, p);
      if s.Err? {
        p := start;
        return Err(s.error);
      }
      var _ := Advance(len.value);
      r := s;
    }

    method ReadUnicodeString() returns (r: Result<NetString>)
      modifies this
      ensures r == Value(UnicodeStringAt(data, old(p))) && p == NextOr(UnicodeStringAt(data, old(p)), old(p))
    {
      r := WString(data, p);
      if r.Ok? {
        p := p + 2 * (|r.value| + 1);
      }
    }

    method ReadString(aligned: bool) returns (r: Result<NetString>)
      modifies this
      ensures r == Value(ByteStringAt(data, old(p), aligned)) && p == NextOr(ByteStringAt(data, old(p), aligned), old(p))
    {
      r := CString(data, p);
      if r.Ok? {
        var len := |r.value| + 1;
        p := p + if aligned then Align4(len) else len;
      }
    }

    method DecodeInt32() returns (r: Result<nat>)
      modifies this
      ensures r == Value(CompressedIntAt(data, old(p))) && p == NextOr(CompressedIntAt(data, old(p)), old(p))
    {
      var start := p;
      var length :- ReadByte();
      if length < 0x80 {
        return Ok(length);
      }
      if length / 0x40 == 2 {
        var b1 := ReadByte();
        if b1.Err? {
          p := start;
          return Err(b1.error);
        }
        return Ok((length % 0x40) * 0x100 + b1.value);
      }
      var b1 := ReadByte();
      var b2 := ReadByte();
      var b3 := ReadByte();
      if b1.Err? || b2.Err? || b3.Err? {
        p := start;
        return Err(OutOfRange);
      }
      r := Ok((length % 0x40) * 0x100_0000 + b1.value * 0x1_0000 + b2.value * 0x100 + b3.value);
    }

    method ReadBytes(len: nat) returns (r: Result<seq<Byte>>)
      modifies this
      ensures r == Value(BytesAt(data, old(p), len)) && p == NextOr(BytesAt(data, old(p), len), old(p))
    {
      if p + len <= |data| {
        var start := Advance(len);
        r := Ok(data[start..start + len]);
      } else {
        r := Err(OutOfRange);
      }
    }
  }
}
