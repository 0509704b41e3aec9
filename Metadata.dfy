/** The CLI metadata root and its streams (`MetaDataHeaders`,
    `StorageSigAndHeader`, `MDStreamHeader`, `MetaDataTableHeader`,
    DllReader.cs), following ECMA-335 Partition II: section II.24.2.1 (the
    metadata root), II.24.2.2 (stream headers) and II.24.2.6 (the header of
    the `#~` stream).

    Every offset here is a file offset; the metadata root is where the CLI
    header's MetaData directory points. Aligning the cursor aligns the file
    offset, as the mapped view starts on a page boundary. */
module Metadata {
  import opened Wrappers
  import opened Bytes
  import opened Streams

  const METADATA_SIGNATURE: nat := 0x424A_5342   // "BSJB"

  // ---------------------------------------------------------------------
  // Storage signature and header

  datatype StorageSigAndHeader = StorageSigAndHeader(
    majorVersion: nat, minorVersion: nat, versionString: NetString, numOfStreams: nat)

  /** The signature, the versions, the unused reserved word, the
      length-prefixed version string, alignment to four, the unused flags
      and padding bytes, and the number of streams. */
  function StorageSigAndHeaderAt(data: seq<Byte>, off: nat): (r: Result<Parsed<StorageSigAndHeader>>)
    ensures U32(data, off).Ok? && U32(data, off).value != METADATA_SIGNATURE ==> r == Err(BadSignature)
    ensures r.Ok? ==> off + 4 <= |data| && DWord(data, off) == METADATA_SIGNATURE
    ensures r.Ok? ==> r.value.next % 4 == 0 && off + 16 <= r.value.next
  {
    var magic :- UInt32At(data, off);
    if magic.value != METADATA_SIGNATURE then Err(BadSignature)
    else
      var version :- VersionAt(data, magic.next);
      var streams :- StreamCountAt(data, Align4(version.next));
      Ok(Parsed(version.value.(numOfStreams := streams.value), streams.next))
  }

  /** The versions, the reserved word and the version string that follow
      the signature. */
  function VersionAt(data: seq<Byte>, off: nat): (r: Result<Parsed<StorageSigAndHeader>>)
    ensures r.Ok? ==> off + 12 <= r.value.next
  {
    var major :- UInt16At(data, off);
    var minor :- UInt16At(data, major.next);
    var extra :- UInt32At(data, minor.next);
    var version :- StringWithLenAt(data, extra.next);
    Ok(Parsed(StorageSigAndHeader(major.value, minor.value, version.value, 0), version.next))
  }

  /** The flags and padding bytes, then the number of streams, at an
      aligned offset. */
  function StreamCountAt(data: seq<Byte>, off: nat): (r: Result<Parsed<nat>>)
    requires off % 4 == 0
    ensures r.Ok? ==> r.value.next == off + 4 && r.value.next % 4 == 0
  {
    var flags :- ByteAt(data, off);
    var padding :- ByteAt(data, flags.next);
    UInt16At(data, padding.next)
  }

  method ReadStorageSigAndHeader(bs: ByteStream) returns (r: Result<StorageSigAndHeader>)
    modifies bs
    ensures r == Value(StorageSigAndHeaderAt(bs.data, old(bs.p)))
    ensures r.Ok? ==> bs.p == StorageSigAndHeaderAt(bs.data, old(bs.p)).value.next
  {
    var magic :- bs.ReadUInt32();
    if magic != METADATA_SIGNATURE {
      return Err(BadSignature);
    }
    var major :- bs.ReadUInt16();
    var minor :- bs.ReadUInt16();
    var _ :- bs.ReadUInt32();
    var version :- bs.ReadStringWithLen();
    bs.Align();
    var _ :- bs.ReadByte();
    var _ :- bs.ReadByte();
    var n :- bs.ReadUInt16();
    r := Ok(StorageSigAndHeader(major, minor, version, n));
  }

  // ---------------------------------------------------------------------
  // Stream headers

  datatype MDStreamHeader = MDStreamHeader(offset: nat, size: nat, name: NetString)

  /** A stream header: offset and size relative to the metadata root, then
      the name, zero-terminated and padded to a multiple of four. */
  function MDStreamHeaderAt(data: seq<Byte>, off: nat): (r: Result<Parsed<MDStreamHeader>>)
    ensures r.Ok? ==> off + 8 <= |data| && r.value.value.offset == DWord(data, off)
                      && r.value.value.size == DWord(data, off + 4)
                      && CString(data, off + 8) == Ok(r.value.value.name)
                      && r.value.next == off + 8 + Align4(|r.value.value.name| + 1)
  {
    var offset :- UInt32At(data, off);
    var size :- UInt32At(data, offset.next);
    var name :- ByteStringAt(data, size.next, true);
    Ok(Parsed(MDStreamHeader(offset.value, size.value, name.value), name.next))
  }

  method ReadMDStreamHeader(bs: ByteStream) returns (r: Result<MDStreamHeader>)
    modifies bs
    ensures r == Value(MDStreamHeaderAt(bs.data, old(bs.p)))
    ensures r.Ok? ==> bs.p == MDStreamHeaderAt(bs.data, old(bs.p)).value.next
  {
    var offset :- bs.ReadUInt32();
    var size :- bs.ReadUInt32();
    var name :- bs.ReadString(true);
    r := Ok(MDStreamHeader(offset, size, name));
  }

  /** The five streams the reader knows, each slot holding the last header
      of that name. */
  datatype StreamSlots = StreamSlots(
    tables: Option<MDStreamHeader>,    // "#~"
    strings: Option<MDStreamHeader>,   // "#Strings"
    us: Option<MDStreamHeader>,        // "#US"
    guid: Option<MDStreamHeader>,      // "#GUID"
    blob: Option<MDStreamHeader>)      // "#Blob"
  {
    /** Every filled slot holds a header bearing that slot's name. */
    predicate Named() {
      && (tables.Some? ==> tables.value.name == S("#~"))
      && (strings.Some? ==> strings.value.name == S("#Strings"))
      && (us.Some? ==> us.value.name == S("#US"))
      && (guid.Some? ==> guid.value.name == S("#GUID"))
      && (blob.Some? ==> blob.value.name == S("#Blob"))
    }
  }

  const NO_STREAMS := StreamSlots(None, None, None, None, None)

  predicate KnownStreamName(name: NetString) {
    name == S("#~") || name == S("#Strings") || name == S("#US") || name == S("#GUID") || name == S("#Blob")
  }

  /** The five stream names differ from one another. */
  lemma StreamNamesDistinct()
    ensures S("#~") != S("#Strings") && S("#~") != S("#US") && S("#~") != S("#GUID") && S("#~") != S("#Blob")
    ensures S("#Strings") != S("#US") && S("#Strings") != S("#GUID") && S("#Strings") != S("#Blob")
    ensures S("#US") != S("#GUID") && S("#US") != S("#Blob")
    ensures S("#GUID") != S("#Blob")
  {
    assert |S("#~")| == 2 && |S("#US")| == 3 && |S("#Strings")| == 8;
    assert |S("#GUID")| == 5 && |S("#Blob")| == 5;
    assert S("#GUID")[1] != S("#Blob")[1];
  }

  /** One header into its slot; an unknown name fails. */
  function Assign(slots: StreamSlots, mds: MDStreamHeader): (r: Result<StreamSlots>)
    ensures r.Ok? <==> KnownStreamName(mds.name)
    ensures r.Ok? && slots.Named() ==> r.value.Named()
  {
    if mds.name == S("#~") then Ok(slots.(tables := Some(mds)))
    else if mds.name == S("#Strings") then Ok(slots.(strings := Some(mds)))
    else if mds.name == S("#US") then Ok(slots.(us := Some(mds)))
    else if mds.name == S("#GUID") then Ok(slots.(guid := Some(mds)))
    else if mds.name == S("#Blob") then Ok(slots.(blob := Some(mds)))
    else Err(UnknownStream)
  }

  /** `Assign` files the header into the slot of its name; the other slots
      keep what they held. */
  lemma AssignFiles(slots: StreamSlots, mds: MDStreamHeader)
    requires KnownStreamName(mds.name)
    ensures Assign(slots, mds).Ok?
    ensures Assign(slots, mds).value.tables == (if mds.name == S("#~") then Some(mds) else slots.tables)
    ensures Assign(slots, mds).value.strings == (if mds.name == S("#Strings") then Some(mds) else slots.strings)
    ensures Assign(slots, mds).value.us == (if mds.name == S("#US") then Some(mds) else slots.us)
    ensures Assign(slots, mds).value.guid == (if mds.name == S("#GUID") then Some(mds) else slots.guid)
    ensures Assign(slots, mds).value.blob == (if mds.name == S("#Blob") then Some(mds) else slots.blob)
  {
    StreamNamesDistinct();
  }

  /** The stream headers that follow the storage header: `remaining` of
      them, read one after the other, each assigned as soon as it is read. */
  function StreamHeadersAt(data: seq<Byte>, off: nat, remaining: nat, slots: StreamSlots): (r: Result<Parsed<StreamSlots>>)
    decreases remaining
    ensures r.Ok? ==> r.value.next >= off
  {
    if remaining == 0 then Ok(Parsed(slots, off))
    else
      var mds :- MDStreamHeaderAt(data, off);
      var slots' :- Assign(slots, mds.value);
      StreamHeadersAt(data, mds.next, remaining - 1, slots')
  }

  /** One header read and assigned leaves the rest to read; a header that
      cannot be read, or is not one of the five, ends the loop with its
      error. */
  lemma StreamHeadersStep(data: seq<Byte>, off: nat, remaining: nat, slots: StreamSlots)
    requires remaining > 0
    ensures MDStreamHeaderAt(data, off).Err? ==>
              StreamHeadersAt(data, off, remaining, slots) == Err(MDStreamHeaderAt(data, off).error)
    ensures MDStreamHeaderAt(data, off).Ok? && Assign(slots, MDStreamHeaderAt(data, off).value.value).Err? ==>
              StreamHeadersAt(data, off, remaining, slots) == Err(UnknownStream)
    ensures MDStreamHeaderAt(data, off).Ok? && Assign(slots, MDStreamHeaderAt(data, off).value.value).Ok? ==>
              StreamHeadersAt(data, off, remaining, slots)
              == StreamHeadersAt(data, MDStreamHeaderAt(data, off).value.next, remaining - 1,
                                 Assign(slots, MDStreamHeaderAt(data, off).value.value).value)
  {
  }

  /** Every slot the header loop fills holds a header of that slot's name. */
  lemma {:induction false} StreamHeadersNamed(data: seq<Byte>, off: nat, remaining: nat, slots: StreamSlots)
    requires slots.Named()
    ensures StreamHeadersAt(data, off, remaining, slots).Ok? ==> StreamHeadersAt(data, off, remaining, slots).value.value.Named()
    decreases remaining
  {
    if remaining > 0 {
      var mds := MDStreamHeaderAt(data, off);
      if mds.Ok? && Assign(slots, mds.value.value).Ok? {
        StreamHeadersNamed(data, mds.value.next, remaining - 1, Assign(slots, mds.value.value).value);
      }
    }
  }

  /** `slot` holds the last header in `hs` named `name`, or still holds
      `init` when no header in `hs` bears that name. */
  predicate HoldsLast(slot: Option<MDStreamHeader>, hs: seq<MDStreamHeader>, name: NetString, init: Option<MDStreamHeader>) {
    if exists k :: 0 <= k < |hs| && hs[k].name == name then
      exists k :: 0 <= k < |hs| && hs[k].name == name && slot == Some(hs[k])
                  && forall j :: k < j < |hs| ==> hs[j].name != name
    else slot == init
  }

  /** Each of the five slots holds the last header of its name. */
  predicate SlotsHoldLast(r: StreamSlots, hs: seq<MDStreamHeader>, init: StreamSlots) {
    && HoldsLast(r.tables, hs, S("#~"), init.tables)
    && HoldsLast(r.strings, hs, S("#Strings"), init.strings)
    && HoldsLast(r.us, hs, S("#US"), init.us)
    && HoldsLast(r.guid, hs, S("#GUID"), init.guid)
    && HoldsLast(r.blob, hs, S("#Blob"), init.blob)
  }

  /** A header read before `hs` only counts when no later one bears its name. */
  lemma HoldsLastCons(slot: Option<MDStreamHeader>, h: MDStreamHeader, hs: seq<MDStreamHeader>, name: NetString,
                      init: Option<MDStreamHeader>)
    requires HoldsLast(slot, hs, name, if h.name == name then Some(h) else init)
    ensures HoldsLast(slot, [h] + hs, name, init)
  {
    var hs' := [h] + hs;
    if exists k :: 0 <= k < |hs| && hs[k].name == name {
      var k :| 0 <= k < |hs| && hs[k].name == name && slot == Some(hs[k])
               && forall j :: k < j < |hs| ==> hs[j].name != name;
      assert hs'[k + 1] == hs[k];
      assert forall j :: k + 1 < j < |hs'| ==> hs'[j] == hs[j - 1];
    } else if h.name == name {
      assert hs'[0] == h;
      assert forall j :: 0 < j < |hs'| ==> hs'[j] == hs[j - 1];
    } else {
      assert forall k :: 0 < k < |hs'| ==> hs'[k] == hs[k - 1];
    }
  }

  /** The same, for the five slots at once, as `Assign` files `h`. */
  lemma SlotsHoldLastCons(r: StreamSlots, h: MDStreamHeader, hs: seq<MDStreamHeader>, init: StreamSlots)
    requires Assign(init, h).Ok? && SlotsHoldLast(r, hs, Assign(init, h).value)
    ensures SlotsHoldLast(r, [h] + hs, init)
  {
    AssignFiles(init, h);
    HoldsLastCons(r.tables, h, hs, S("#~"), init.tables);
    HoldsLastCons(r.strings, h, hs, S("#Strings"), init.strings);
    HoldsLastCons(r.us, h, hs, S("#US"), init.us);
    HoldsLastCons(r.guid, h, hs, S("#GUID"), init.guid);
    HoldsLastCons(r.blob, h, hs, S("#Blob"), init.blob);
  }

  /** After the header loop each slot holds the last header of its name that
      was read, and keeps what it held when none was. */
  lemma {:induction false} StreamHeadersLast(data: seq<Byte>, off: nat, remaining: nat, slots: StreamSlots)
    ensures StreamHeadersAt(data, off, remaining, slots).Ok? ==>
              && StreamHeaderList(data, off, remaining).Ok?
              && SlotsHoldLast(StreamHeadersAt(data, off, remaining, slots).value.value,
                               StreamHeaderList(data, off, remaining).value, slots)
    decreases remaining
  {
    if remaining > 0 {
      var mds := MDStreamHeaderAt(data, off);
      if mds.Ok? && Assign(slots, mds.value.value).Ok? {
        var h := mds.value.value;
        var slots' := Assign(slots, h).value;
        StreamHeadersLast(data, mds.value.next, remaining - 1, slots');
        StreamHeadersStep(data, off, remaining, slots);
        var r := StreamHeadersAt(data, off, remaining, slots);
        if r.Ok? {
          StreamHeaderListCons(data, off, remaining);
          SlotsHoldLastCons(r.value.value, h, StreamHeaderList(data, mds.value.next, remaining - 1).value, slots);
        }
      }
    } else {
      assert StreamHeaderList(data, off, remaining).value == [];
    }
  }

  /** The headers themselves, without assigning them. */
  function StreamHeaderList(data: seq<Byte>, off: nat, remaining: nat): Result<seq<MDStreamHeader>>
    decreases remaining
  {
    if remaining == 0 then Ok([])
    else
      var mds :- MDStreamHeaderAt(data, off);
      var rest :- StreamHeaderList(data, mds.next, remaining - 1);
      Ok([mds.value] + rest)
  }

  /** A list of headers read starts with the first header. */
  lemma StreamHeaderListCons(data: seq<Byte>, off: nat, remaining: nat)
    requires remaining > 0 && StreamHeaderList(data, off, remaining).Ok?
    ensures MDStreamHeaderAt(data, off).Ok?
    ensures var mds := MDStreamHeaderAt(data, off).value;
            && StreamHeaderList(data, mds.next, remaining - 1).Ok?
            && StreamHeaderList(data, off, remaining).value
               == [mds.value] + StreamHeaderList(data, mds.next, remaining - 1).value
  {
  }

  /** Every header bears one of the five known names. */
  predicate AllKnown(hs: seq<MDStreamHeader>) {
    forall h :: h in hs ==> KnownStreamName(h.name)
  }

  /** Reading the stream headers succeeds exactly when every header can be
      read and bears one of the five known names. */
  lemma {:induction false} StreamHeadersKnownNames(data: seq<Byte>, off: nat, remaining: nat, slots: StreamSlots)
    ensures StreamHeadersAt(data, off, remaining, slots).Ok? <==>
              StreamHeaderList(data, off, remaining).Ok? && AllKnown(StreamHeaderList(data, off, remaining).value)
    decreases remaining
  {
    if remaining > 0 {
      var mds := MDStreamHeaderAt(data, off);
      if mds.Ok? {
        var a := Assign(slots, mds.value.value);
        if a.Ok? {
          StreamHeadersKnownNames(data, mds.value.next, remaining - 1, a.value);
          KnownNameStep(data, off, remaining, slots);
        } else {
          UnknownNameStep(data, off, remaining, slots);
        }
      }
    }
  }

  /** A header with a known name passes the question on to the headers after it. */
  lemma KnownNameStep(data: seq<Byte>, off: nat, remaining: nat, slots: StreamSlots)
    requires remaining > 0 && MDStreamHeaderAt(data, off).Ok?
    requires Assign(slots, MDStreamHeaderAt(data, off).value.value).Ok?
    requires var next := MDStreamHeaderAt(data, off).value.next;
             StreamHeadersAt(data, next, remaining - 1, Assign(slots, MDStreamHeaderAt(data, off).value.value).value).Ok? <==>
               StreamHeaderList(data, next, remaining - 1).Ok? && AllKnown(StreamHeaderList(data, next, remaining - 1).value)
    ensures StreamHeadersAt(data, off, remaining, slots).Ok? <==>
              StreamHeaderList(data, off, remaining).Ok? && AllKnown(StreamHeaderList(data, off, remaining).value)
  {
    var mds := MDStreamHeaderAt(data, off).value;
    var list := StreamHeaderList(data, off, remaining);
    var rest := StreamHeaderList(data, mds.next, remaining - 1);
    if rest.Ok? {
      assert list.value == [mds.value] + rest.value;
      assert AllKnown(list.value) <==> AllKnown(rest.value);
    }
  }

  /** A header with an unknown name fails both the read and the name test. */
  lemma UnknownNameStep(data: seq<Byte>, off: nat, remaining: nat, slots: StreamSlots)
    requires remaining > 0 && MDStreamHeaderAt(data, off).Ok?
    requires Assign(slots, MDStreamHeaderAt(data, off).value.value).Err?
    ensures !StreamHeadersAt(data, off, remaining, slots).Ok?
    ensures StreamHeaderList(data, off, remaining).Ok? ==> !AllKnown(StreamHeaderList(data, off, remaining).value)
  {
    var list := StreamHeaderList(data, off, remaining);
    if list.Ok? {
      assert MDStreamHeaderAt(data, off).value.value in list.value;
    }
  }

  // ---------------------------------------------------------------------
  // The metadata root and its heaps

  /** What `MetaDataHeaders` knows once constructed: where the root is and
      where its streams are. */
  datatype MetaData = MetaData(data: seq<Byte>, root: nat, storage: StorageSigAndHeader, streams: StreamSlots)
  {
    /** `ReadString(off)`: a string in the `#Strings` heap. The offset is the
        signed 32-bit value read from a table cell; one outside [0, Size] fails. */
    function ReadString(off: int): (r: Result<NetString>)
      ensures off < 0 ==> r == Err(HeapOffsetOutOfRange)
      ensures off >= 0 && streams.strings.Some? && off > streams.strings.value.size ==> r == Err(HeapOffsetOutOfRange)
      ensures r.Ok? ==> streams.strings.Some? && 0 <= off <= streams.strings.value.size
                        && CString(data, root + streams.strings.value.offset + off) == r
    {
      if off < 0 then Err(HeapOffsetOutOfRange)
      else if streams.strings.None? then Err(NullReference)
      else if off > streams.strings.value.size then Err(HeapOffsetOutOfRange)
      else CString(data, root + streams.strings.value.offset + off)
    }

    /** `ReadBlob(off)`: a blob in the `#Blob` heap, a compressed length
        followed by that many bytes. */
    function ReadBlob(off: int): (r: Result<seq<Byte>>)
      ensures off < 0 ==> r == Err(HeapOffsetOutOfRange)
      ensures off >= 0 && streams.blob.Some? && off > streams.blob.value.size ==> r == Err(HeapOffsetOutOfRange)
      ensures r.Ok? ==> streams.blob.Some? && 0 <= off <= streams.blob.value.size
                        && var at := root + streams.blob.value.offset + off;
                           && CompressedIntAt(data, at).Ok?
                           && |r.value| == CompressedIntAt(data, at).value.value
                           && var start := CompressedIntAt(data, at).value.next;
                              start + |r.value| <= |data| && r.value == data[start..start + |r.value|]
    {
      if off < 0 then Err(HeapOffsetOutOfRange)
      else if streams.blob.None? then Err(NullReference)
      else if off > streams.blob.value.size then Err(HeapOffsetOutOfRange)
      else
        var length :- CompressedIntAt(data, root + streams.blob.value.offset + off);
        var bytes :- BytesAt(data, length.next, length.value);
        Ok(bytes.value)
    }

    /** `ReadGuid(off)`: index 0 is the empty GUID; otherwise an index in
        [1, Size / 16] selects 16 bytes starting `off - 1` bytes into the
        `#GUID` heap (a byte offset, as written, not `(off - 1) * 16`). */
    function ReadGuid(off: int): (r: Result<Option<seq<Byte>>>)
      ensures off == 0 ==> r == Ok(None)
      ensures off < 0 ==> r == Err(HeapOffsetOutOfRange)
      ensures off >= 1 && streams.guid.Some? && off > streams.guid.value.size / 16 ==> r == Err(HeapOffsetOutOfRange)
      ensures r.Ok? && off != 0 ==>
                && streams.guid.Some? && 1 <= off <= streams.guid.value.size / 16
                && r.value.Some? && |r.value.value| == 16
                && BytesAt(data, root + streams.guid.value.offset + off - 1, 16).Ok?
                && r.value.value == BytesAt(data, root + streams.guid.value.offset + off - 1, 16).value.value
    {
      if off == 0 then Ok(None)
      else if off < 1 then Err(HeapOffsetOutOfRange)
      else if streams.guid.None? then Err(NullReference)
      else if off > streams.guid.value.size / 16 then Err(HeapOffsetOutOfRange)
      else
        var bytes :- BytesAt(data, root + streams.guid.value.offset + off - 1, 16);
        Ok(Some(bytes.value))
    }
  }

  /** The `MetaDataHeaders` constructor: the storage header, then every
      stream header, at the metadata root `root`. */
  function MetaDataAt(data: seq<Byte>, root: nat): (r: Result<MetaData>)
    ensures r.Ok? ==> r.value.data == data && r.value.root == root && r.value.streams.Named()
    // the storage header read at the root, and each slot holding the last
    // stream header of its name, or nothing when no header bears that name
    ensures r.Ok? ==>
              && StorageSigAndHeaderAt(data, root).Ok?
              && var st := StorageSigAndHeaderAt(data, root).value;
                 && r.value.storage == st.value
                 && StreamHeaderList(data, st.next, st.value.numOfStreams).Ok?
                 && SlotsHoldLast(r.value.streams, StreamHeaderList(data, st.next, st.value.numOfStreams).value, NO_STREAMS)
    // success exactly when the storage header and every stream header can be
    // read and each stream header bears a known name
    ensures r.Ok? <==>
              && StorageSigAndHeaderAt(data, root).Ok?
              && var st := StorageSigAndHeaderAt(data, root).value;
                 && StreamHeaderList(data, st.next, st.value.numOfStreams).Ok?
                 && AllKnown(StreamHeaderList(data, st.next, st.value.numOfStreams).value)
  {
    var storage :- StorageSigAndHeaderAt(data, root);
    StreamHeadersKnownNames(data, storage.next, storage.value.numOfStreams, NO_STREAMS);
    var streams :- StreamHeadersAt(data, storage.next, storage.value.numOfStreams, NO_STREAMS);
    StreamHeadersNamed(data, storage.next, storage.value.numOfStreams, NO_STREAMS);
    StreamHeadersLast(data, storage.next, storage.value.numOfStreams, NO_STREAMS);
    Ok(MetaData(data, root, storage.value, streams.value))
  }

  method ReadMetaData(data: seq<Byte>, root: nat) returns (r: Result<MetaData>)
    ensures r == MetaDataAt(data, root)
  {
    var bs := new ByteStream(data, root);
    var storage :- ReadStorageSigAndHeader(bs);
    var slots :- ReadStreamHeaders(bs, storage.numOfStreams);
    r := Ok(MetaData(data, root, storage, slots));
  }

  /** The constructor's loop over the stream headers. */
  method ReadStreamHeaders(bs: ByteStream, n: nat) returns (r: Result<StreamSlots>)
    modifies bs
    ensures r == Value(StreamHeadersAt(bs.data, old(bs.p), n, NO_STREAMS))
  {
    ghost var target := StreamHeadersAt(bs.data, bs.p, n, NO_STREAMS);
    var slots := NO_STREAMS;
    var i := 0;
    while i < n
      invariant 0 <= i <= n
      invariant StreamHeadersAt(bs.data, bs.p, n - i, slots) == target
    {
      ghost var p := bs.p;
      StreamHeadersStep(bs.data, p, n - i, slots);
      var mds :- ReadMDStreamHeader(bs);
      ghost var before := slots;
      slots :- Assign(slots, mds);
      assert StreamHeadersAt(bs.data, p, n - i, before) == StreamHeadersAt(bs.data, bs.p, n - (i + 1), slots);
      i := i + 1;
    }
    r := Ok(slots);
  }

  // ---------------------------------------------------------------------
  // The #~ stream header

  datatype MetaDataTableHeader = MetaDataTableHeader(
    reserved: nat, majorVersion: nat, minorVersion: nat,
    heapOffsetSizes: nat, ridPlaceholder: nat,
    maskValid: nat, maskSorted: nat,
    tableLengths: seq<nat>)

  /** Bit `i` of `mask`: `((mask >> i) & 1) != 0`. */
  predicate Bit(mask: nat, i: nat) {
    if i == 0 then mask % 2 == 1 else Bit(mask / 2, i - 1)
  }

  /** The number of set bits of `mask` among bits `i` up to (excluding) `j`. */
  function SetBits(mask: nat, i: nat, j: nat): (n: nat)
    requires i <= j
    decreases j - i
    ensures n <= j - i
  {
    if i == j then 0 else (if Bit(mask, i) then 1 else 0) + SetBits(mask, i + 1, j)
  }

  /** The loop filling `TableLengths` from bit `i` on, appending to
      `lengths`: a u32 per set bit of `maskValid`, zero per clear bit. */
  function TableLengthsFrom(data: seq<Byte>, off: nat, mask: nat, i: nat, lengths: seq<nat>): (r: Result<Parsed<seq<nat>>>)
    requires i <= 64
    decreases 64 - i
    ensures r.Ok? ==> |r.value.value| == |lengths| + 64 - i
  {
    if i == 64 then Ok(Parsed(lengths, off))
    else if !Bit(mask, i) then TableLengthsFrom(data, off, mask, i + 1, lengths + [0])
    else
      var len :- U32(data, off);
      TableLengthsFrom(data, off + 4, mask, i + 1, lengths + [len])
  }

  /** Where the loop started at bit `i` and offset `off` reads the length of
      table `j`: past one u32 per set bit below `j`. */
  function LengthOffset(off: nat, mask: nat, i: nat, j: nat): nat
    requires i <= j
  {
    off + 4 * SetBits(mask, i, j)
  }

  /** The lengths loop reads one u32 per set bit: it fails exactly when
      there is a u32 to read and the file ends before the last one, and it
      keeps what was recorded before and adds one length per remaining bit. */
  lemma {:induction false} TableLengthsLayout(data: seq<Byte>, off: nat, mask: nat, i: nat, lengths: seq<nat>)
    requires i <= 64
    decreases 64 - i
    ensures var r := TableLengthsFrom(data, off, mask, i, lengths);
      && (r.Ok? <==> SetBits(mask, i, 64) == 0 || off + 4 * SetBits(mask, i, 64) <= |data|)
      && (r.Ok? ==>
            && r.value.next == off + 4 * SetBits(mask, i, 64)
            && |r.value.value| == |lengths| + 64 - i
            && r.value.value[..|lengths|] == lengths)
  {
    if i < 64 {
      var b := Bit(mask, i);
      var off' := if b then off + 4 else off;
      var lengths' := lengths + [if b && off + 4 <= |data| then DWord(data, off) else 0];
      if !b || off + 4 <= |data| {
        TableLengthsLayout(data, off', mask, i + 1, lengths');
        assert off + 4 * SetBits(mask, i, 64) == off' + 4 * SetBits(mask, i + 1, 64);
        var r := TableLengthsFrom(data, off, mask, i, lengths);
        assert r == TableLengthsFrom(data, off', mask, i + 1, lengths');
        if r.Ok? {
          assert r.value.value[..|lengths'|] == lengths';
          assert r.value.value[..|lengths|] == lengths'[..|lengths|];
        }
      } else {
        assert SetBits(mask, i, 64) == 1 + SetBits(mask, i + 1, 64);
        assert TableLengthsFrom(data, off, mask, i, lengths).Err?;
      }
    } else {
      assert SetBits(mask, i, 64) == 0;
      assert TableLengthsFrom(data, off, mask, i, lengths) == Ok(Parsed(lengths, off));
    }
  }

  /** The length recorded for bit `j` is zero when the bit is clear, and the
      u32 read past one u32 per lower set bit when it is set. */
  lemma {:induction false} TableLengthsValues(data: seq<Byte>, off: nat, mask: nat, i: nat, lengths: seq<nat>)
    requires i <= 64
    decreases 64 - i
    ensures var r := TableLengthsFrom(data, off, mask, i, lengths);
      r.Ok? ==>
        forall j :: i <= j < 64 ==>
          |lengths| + j - i < |r.value.value|
          && (!Bit(mask, j) ==> r.value.value[|lengths| + j - i] == 0)
          && (Bit(mask, j) ==> LengthOffset(off, mask, i, j) + 4 <= |data|
                               && r.value.value[|lengths| + j - i] == DWord(data, LengthOffset(off, mask, i, j)))
  {
    var r := TableLengthsFrom(data, off, mask, i, lengths);
    if i < 64 && r.Ok? {
      var b := Bit(mask, i);
      var off' := if b then off + 4 else off;
      var lengths' := lengths + [if b then DWord(data, off) else 0];
      assert r == TableLengthsFrom(data, off', mask, i + 1, lengths');
      TableLengthsValues(data, off', mask, i + 1, lengths');
      TableLengthsLayout(data, off', mask, i + 1, lengths');
      forall j | i <= j < 64
        ensures |lengths| + j - i < |r.value.value|
        ensures !Bit(mask, j) ==> r.value.value[|lengths| + j - i] == 0
        ensures Bit(mask, j) ==> LengthOffset(off, mask, i, j) + 4 <= |data|
                                 && r.value.value[|lengths| + j - i] == DWord(data, LengthOffset(off, mask, i, j))
      {
        if j == i {
          assert r.value.value[..|lengths'|] == lengths';
          assert r.value.value[|lengths|] == lengths'[|lengths|];
        } else {
          assert |lengths| + j - i == |lengths'| + j - (i + 1);
          assert LengthOffset(off, mask, i, j) == LengthOffset(off', mask, i + 1, j);
        }
      }
    }
  }

  /** The fixed 24-byte header of the `#~` stream, before the row counts. */
  function FixedTableHeaderAt(data: seq<Byte>, off: nat): (r: Result<Parsed<MetaDataTableHeader>>)
    ensures r.Ok? <==> off + 24 <= |data|
    ensures r.Ok? ==> r.value.next == off + 24 && r.value.value.heapOffsetSizes < 0x100
  {
    var reserved :- UInt32At(data, off);
    var major :- ByteAt(data, off + 4);
    var minor :- ByteAt(data, off + 5);
    var heapSizes :- ByteAt(data, off + 6);
    var rid :- ByteAt(data, off + 7);
    var valid :- UInt64At(data, off + 8);
    var sorted :- UInt64At(data, off + 16);
    Ok(Parsed(MetaDataTableHeader(reserved.value, major.value, minor.value, heapSizes.value, rid.value,
                                  valid.value, sorted.value, []), sorted.next))
  }

  /** `MetaDataTableHeader(bs)`: the fixed 24-byte header of the `#~`
      stream, then the row counts. */
  function MetaDataTableHeaderAt(data: seq<Byte>, off: nat): (r: Result<Parsed<MetaDataTableHeader>>)
    ensures r.Ok? ==> |r.value.value.tableLengths| == 64 && r.value.value.heapOffsetSizes < 0x100
  {
    var fixed :- FixedTableHeaderAt(data, off);
    var lengths :- TableLengthsFrom(data, fixed.next, fixed.value.maskValid, 0, []);
    Ok(Parsed(fixed.value.(tableLengths := lengths.value), lengths.next))
  }

  method ReadFixedTableHeader(bs: ByteStream) returns (r: Result<MetaDataTableHeader>)
    modifies bs
    ensures r == Value(FixedTableHeaderAt(bs.data, old(bs.p)))
    ensures r.Ok? ==> bs.p == FixedTableHeaderAt(bs.data, old(bs.p)).value.next
  {
    ghost var off := bs.p;
    var reserved :- bs.ReadUInt32();
    assert bs.p == off + 4;
    var major :- bs.ReadByte();
    var minor :- bs.ReadByte();
    var heapSizes :- bs.ReadByte();
    var rid :- bs.ReadByte();
    assert bs.p == off + 8;
    var valid :- bs.ReadUInt64();
    var sorted :- bs.ReadUInt64();
    r := Ok(MetaDataTableHeader(reserved, major, minor, heapSizes, rid, valid, sorted, []));
  }

  method ReadMetaDataTableHeader(bs: ByteStream) returns (r: Result<MetaDataTableHeader>)
    modifies bs
    ensures r == Value(MetaDataTableHeaderAt(bs.data, old(bs.p)))
    ensures r.Ok? ==> bs.p == MetaDataTableHeaderAt(bs.data, old(bs.p)).value.next
  {
    var fixed :- ReadFixedTableHeader(bs);
    var lengths :- ReadTableLengths(bs, fixed.maskValid);
    r := Ok(fixed.(tableLengths := lengths));
  }

  /** The loop over the 64 bits of `maskValid`. */
  method ReadTableLengths(bs: ByteStream, valid: nat) returns (r: Result<seq<nat>>)
    modifies bs
    ensures r == Value(TableLengthsFrom(bs.data, old(bs.p), valid, 0, []))
    ensures r.Ok? ==> bs.p == TableLengthsFrom(bs.data, old(bs.p), valid, 0, []).value.next
  {
    var lengths: seq<nat> := [];
    ghost var start := bs.p;
    for i := 0 to 64
      invariant TableLengthsFrom(bs.data, bs.p, valid, i, lengths) == TableLengthsFrom(bs.data, start, valid, 0, [])
    {
      if !Bit(valid, i) {
        lengths := lengths + [0];
      } else {
        var len :- bs.ReadUInt32();
        lengths := lengths + [len];
      }
    }
    r := Ok(lengths);
  }
}
