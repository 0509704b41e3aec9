/** Little-endian access to an image's bytes, the strings stored in it and the
    bit-level operations the reader performs on the integers it decodes.

    The reader maps each file into memory and dereferences raw pointers
    without bounds checks; here a file is an immutable byte sequence and a
    read past its end is an `OutOfRange` failure. */
module Bytes {
  import opened Wrappers

  type Byte = b: int | 0 <= b < 0x100

  /** One UTF-16 code unit: the element type of a .NET string. */
  type CodeUnit = c: int | 0 <= c < 0x1_0000

  /** A .NET string: a sequence of UTF-16 code units. A zero-terminated byte
      string read from the image contributes one code unit per byte. */
  type NetString = seq<CodeUnit>

  const TWO_31: nat := 0x8000_0000
  const TWO_32: nat := 0x1_0000_0000

  /** A string literal of the reader as a .NET string (all of them are ASCII). */
  function S(s: string): NetString {
    seq(|s|, i requires 0 <= i < |s| => if s[i] as int < 0x1_0000 then s[i] as int else 0xFFFD)
  }

  // ---------------------------------------------------------------------
  // Fixed-width little-endian integers

  function Word(data: seq<Byte>, off: nat): (r: nat)
    requires off + 2 <= |data|
    ensures r < 0x1_0000
  {
    data[off] as nat + 0x100 * data[off + 1] as nat
  }

  function DWord(data: seq<Byte>, off: nat): (r: nat)
    requires off + 4 <= |data|
    ensures r < TWO_32
  {
    Word(data, off) + 0x1_0000 * Word(data, off + 2)
  }

  function QWord(data: seq<Byte>, off: nat): (r: nat)
    requires off + 8 <= |data|
    ensures r < TWO_32 * TWO_32
  {
    DWord(data, off) + TWO_32 * DWord(data, off + 4)
  }

  /** Reads of a BYTE, WORD, DWORD and ULONGLONG field at a file offset. */
  function U8(data: seq<Byte>, off: nat): (r: Result<nat>)
    ensures r.Ok? <==> off < |data|
    ensures r.Ok? ==> r.value < 0x100
  {
    if off < |data| then Ok(data[off]) else Err(OutOfRange)
  }

  function U16(data: seq<Byte>, off: nat): (r: Result<nat>)
    ensures r.Ok? <==> off + 2 <= |data|
    ensures r.Ok? ==> r.value < 0x1_0000
  {
    if off + 2 <= |data| then Ok(Word(data, off)) else Err(OutOfRange)
  }

  function U32(data: seq<Byte>, off: nat): (r: Result<nat>)
    ensures r.Ok? <==> off + 4 <= |data|
    ensures r.Ok? ==> r.value < TWO_32
  {
    if off + 4 <= |data| then Ok(DWord(data, off)) else Err(OutOfRange)
  }

  function U64(data: seq<Byte>, off: nat): (r: Result<nat>)
    ensures r.Ok? <==> off + 8 <= |data|
    ensures r.Ok? ==> r.value < TWO_32 * TWO_32
  {
    if off + 8 <= |data| then Ok(QWord(data, off)) else Err(OutOfRange)
  }

  /** The little-endian layout of a 16- and a 32-bit value. */
  function EncodeWord(v: nat): (r: seq<Byte>)
    requires v < 0x1_0000
    ensures |r| == 2
  {
    [v % 0x100, v / 0x100]
  }

  function EncodeDWord(v: nat): (r: seq<Byte>)
    requires v < TWO_32
    ensures |r| == 4
  {
    EncodeWord(v % 0x1_0000) + EncodeWord(v / 0x1_0000)
  }

  lemma WordRoundTrip(v: nat, rest: seq<Byte>)
    requires v < 0x1_0000
    ensures U16(EncodeWord(v) + rest, 0) == Ok(v)
  {
    var d := EncodeWord(v) + rest;
    assert d[0] == v % 0x100 && d[1] == v / 0x100;
  }

  lemma DWordRoundTrip(v: nat, rest: seq<Byte>)
    requires v < TWO_32
    ensures U32(EncodeDWord(v) + rest, 0) == Ok(v)
  {
    var lo, hi := v % 0x1_0000, v / 0x1_0000;
    var d := EncodeDWord(v) + rest;
    assert d == EncodeWord(lo) + (EncodeWord(hi) + rest);
    WordRoundTrip(lo, EncodeWord(hi) + rest);
    assert d[2..] == EncodeWord(hi) + rest;
    WordRoundTrip(hi, rest);
    assert Word(d, 2) == Word(d[2..], 0);
  }

  // ---------------------------------------------------------------------
  // Zero-terminated strings

  /** `new string((sbyte*)p)`: the bytes from `off` up to the first zero byte. */
  function CString(data: seq<Byte>, off: nat): (r: Result<NetString>)
    decreases |data| - off
    ensures r.Ok? ==> off + |r.value| < |data| && data[off + |r.value|] == 0
    ensures r.Ok? ==> forall i :: 0 <= i < |r.value| ==> r.value[i] == data[off + i] && r.value[i] != 0
    ensures r.Err? <==> forall j :: off <= j < |data| ==> data[j] != 0
  {
    if off >= |data| then Err(OutOfRange)
    else if data[off] == 0 then Ok([])
    else
      var rest :- CString(data, off + 1);
      Ok([data[off]] + rest)
  }

  /** `new string((char*)p)`: the UTF-16 code units from `off` up to the first
      zero code unit. */
  function WString(data: seq<Byte>, off: nat): (r: Result<NetString>)
    decreases |data| - off
    ensures r.Ok? ==> off + 2 * |r.value| + 2 <= |data| && Word(data, off + 2 * |r.value|) == 0
    ensures r.Ok? ==> forall i :: 0 <= i < |r.value| ==> r.value[i] == Word(data, off + 2 * i) && r.value[i] != 0
  {
    if off + 2 > |data| then Err(OutOfRange)
    else if Word(data, off) == 0 then Ok([])
    else
      var rest :- WString(data, off + 2);
      Ok([Word(data, off)] + rest)
  }

  /** `WString` fails exactly when no zero code unit follows `off`, at an
      even distance, inside the data. */
  lemma {:induction false} WStringFails(data: seq<Byte>, off: nat)
    decreases |data| - off
    ensures WString(data, off).Err? <==>
            forall j :: off <= j && j + 2 <= |data| && (j - off) % 2 == 0 ==> Word(data, j) != 0
  {
    if off + 2 <= |data| && Word(data, off) != 0 {
      WStringFails(data, off + 2);
      assert forall j {:trigger Word(data, j)} :: off + 2 <= j ==> ((j - off) % 2 == 0 <==> (j - (off + 2)) % 2 == 0);
    }
  }

  // ---------------------------------------------------------------------
  // Laying out strings, as a writer of the image does

  /** A string without a zero code unit, which `WString` reads back whole. */
  predicate NoZero(s: NetString) {
    forall i :: 0 <= i < |s| ==> s[i] != 0
  }

  /** The bytes of a UTF-16 string: each code unit little-endian, then a
      zero code unit. */
  function EncodeWString(s: NetString): (r: seq<Byte>)
    ensures |r| == 2 * |s| + 2
  {
    if s == [] then [0, 0] else EncodeWord(s[0]) + EncodeWString(s[1..])
  }

  function Zeros(n: nat): (r: seq<Byte>)
    ensures |r| == n && forall i :: 0 <= i < n ==> r[i] == 0
  {
    seq(n, _ => 0)
  }

  /** The bytes `e` are found in `data` at offset `off`. */
  predicate Embedded(data: seq<Byte>, off: nat, e: seq<Byte>) {
    off + |e| <= |data| && forall i {:trigger e[i]} :: 0 <= i < |e| ==> data[off + i] == e[i]
  }

  lemma EmbeddedSplit(data: seq<Byte>, off: nat, a: seq<Byte>, b: seq<Byte>)
    requires Embedded(data, off, a + b)
    ensures Embedded(data, off, a) && Embedded(data, off + |a|, b)
  {
    forall i | 0 <= i < |a| ensures data[off + i] == a[i] {
      assert (a + b)[i] == a[i];
    }
    forall i | 0 <= i < |b| ensures data[off + |a| + i] == b[i] {
      assert (a + b)[|a| + i] == b[i];
    }
  }

  lemma EmbeddedSplit3(data: seq<Byte>, off: nat, a: seq<Byte>, b: seq<Byte>, c: seq<Byte>)
    requires Embedded(data, off, a + b + c)
    ensures Embedded(data, off, a) && Embedded(data, off + |a|, b) && Embedded(data, off + |a| + |b|, c)
  {
    EmbeddedSplit(data, off, a + b, c);
    EmbeddedSplit(data, off, a, b);
  }

  /** A 16-bit value laid out at `off` reads back. */
  lemma EmbeddedWord(data: seq<Byte>, off: nat, v: nat)
    requires v < 0x1_0000 && Embedded(data, off, EncodeWord(v))
    ensures U16(data, off) == Ok(v)
  {
    assert data[off + 0] == EncodeWord(v)[0] && data[off + 1] == EncodeWord(v)[1];
  }

  /** A string laid out at `off` reads back, as long as it holds no zero
      code unit. */
  lemma {:induction false} WStringRoundTrip(data: seq<Byte>, off: nat, s: NetString)
    requires NoZero(s) && Embedded(data, off, EncodeWString(s))
    decreases |s|
    ensures WString(data, off) == Ok(s)
  {
    if s == [] {
      assert data[off + 0] == EncodeWString(s)[0] && data[off + 1] == EncodeWString(s)[1];
    } else {
      EmbeddedSplit(data, off, EncodeWord(s[0]), EncodeWString(s[1..]));
      EmbeddedWord(data, off, s[0]);
      WStringRoundTrip(data, off + 2, s[1..]);
      assert s == [s[0]] + s[1..];
    }
  }

  // ---------------------------------------------------------------------
  // Bits

  function Pow2(k: nat): (r: nat)
    ensures r >= 1
  {
    if k == 0 then 1 else 2 * Pow2(k - 1)
  }

  /** `(x & mask) != 0` for a single-bit mask. */
  predicate HasBit(x: nat, mask: nat)
    requires mask > 0
  {
    (x / mask) % 2 == 1
  }

  /** Bitwise OR of two naturals, one bit at a time. */
  function BitOr(a: nat, b: nat): nat
    decreases a + b
  {
    if a == 0 then b
    else if b == 0 then a
    else (if a % 2 == 1 || b % 2 == 1 then 1 else 0) + 2 * BitOr(a / 2, b / 2)
  }

  /** OR-ing a value into the zero low bits of a shifted one is an addition:
      `(a << k) | b == (a << k) + b` when `b < 2^k`. */
  lemma {:induction false} BitOrDisjoint(a: nat, b: nat, k: nat)
    requires b < Pow2(k)
    ensures BitOr(a * Pow2(k), b) == a * Pow2(k) + b
  {
    if k == 0 {
      assert b == 0;
    } else if a == 0 || b == 0 {
    } else {
      var m := a * Pow2(k - 1);
      assert a * Pow2(k) == 2 * m;
      assert m > 0;
      BitOrDisjoint(a, b / 2, k - 1);
      calc {
        BitOr(2 * m, b);
        (if (2 * m) % 2 == 1 || b % 2 == 1 then 1 else 0) + 2 * BitOr(2 * m / 2, b / 2);
        { assert 2 * m / 2 == m; }
        b % 2 + 2 * BitOr(m, b / 2);
        b % 2 + 2 * (m + b / 2);
      }
    }
  }

  /** `ByteStream.Align(4)` on a file offset: the next multiple of four. */
  function Align4(x: nat): (r: nat)
    ensures r % 4 == 0 && x <= r < x + 4
  {
    (x + 3) - (x + 3) % 4
  }

  /** The multiple of four in [x, x + 4) is `Align4(x)`; in particular a
      shift by a multiple of four commutes with alignment. */
  lemma Align4Unique(x: nat, r: nat)
    requires r % 4 == 0 && x <= r < x + 4
    ensures Align4(x) == r
  {
    var a := Align4(x);
    assert (r - a) % 4 == 0 && -4 < r - a < 4;
  }

  lemma Align4Shift(p: nat, n: nat)
    requires p % 4 == 0
    ensures Align4(p + n) == p + Align4(n)
  {
    Aligned4Sum(p, Align4(n));
    Align4Unique(p + n, p + Align4(n));
  }

  lemma Aligned4Sum(a: int, b: int)
    requires a % 4 == 0 && b % 4 == 0
    ensures (a + b) % 4 == 0
  {
  }

  // ---------------------------------------------------------------------
  // Case-insensitive comparison (ordinal, ASCII letters folded)

  function ToLowerAscii(c: CodeUnit): CodeUnit {
    if 0x41 <= c <= 0x5A then c + 0x20 else c
  }

  /** `string.Equals(a, b, StringComparison.OrdinalIgnoreCase)`. */
  predicate EqualsIgnoreCase(a: NetString, b: NetString) {
    |a| == |b| && forall i :: 0 <= i < |a| ==> ToLowerAscii(a[i]) == ToLowerAscii(b[i])
  }

  /** `s.EndsWith(suffix, ...IgnoreCase)`. */
  predicate EndsWithIgnoreCase(s: NetString, suffix: NetString) {
    |suffix| <= |s| && EqualsIgnoreCase(s[|s| - |suffix|..], suffix)
  }
}
