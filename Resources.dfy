/** The resource tree and the version resource (`ReadVersionInfo`,
    `ResourceDirEnum`, `ReadVersionFileInfo`, DllReader.cs).

    The resource section is a tree of directories (Microsoft PE/COFF
    specification, ".rsrc Section"): a 16-byte directory header whose
    NumberOfIdEntries is at offset 14, followed by 8-byte entries (Name, then
    OffsetToData). An entry's OffsetToData with the high bit set points to a
    subdirectory, otherwise to a 16-byte data entry whose first field is the
    RVA of the data. Offsets in entries are relative to the start of the
    resource section. The version resource is a VS_VERSION_INFO block of
    UTF-16 strings aligned to four bytes. */
module Resources {
  import opened Wrappers
  import opened Bytes
  import opened Streams
  import opened PeImage

  const RT_VERSION: nat := 16
  const DIRECTORY_SIZE: nat := 16
  const ENTRY_SIZE: nat := 8
  const FIXED_FILE_INFO_SIZE: nat := 52
  /** Where the tables of a version block start, from the start of the
      block: its 6-byte prefix, its 32-byte name, 2 bytes of padding and
      the fixed file information. */
  const TABLES_OFFSET: nat := 92
  /** The bytes of a VarFileInfo block the reader has consumed before it
      skips the rest: its 6-byte prefix and its name with padding. */
  const VAR_FILE_INFO_READ: nat := 30

  const VS_VERSION_INFO: NetString := S("VS_VERSION_INFO")
  const STRING_FILE_INFO: NetString := S("StringFileInfo")
  const VAR_FILE_INFO: NetString := S("VarFileInfo")

  // ---------------------------------------------------------------------
  // Directories

  /** A directory being enumerated: the start of the resource section, the
      directory's offset in it, its depth and its number of id entries. */
  datatype Directory = Directory(begin: nat, rdOffset: nat, level: nat, nb: nat)
  {
    /** File offset of entry `i`; entries follow the directory header. Only
        NumberOfIdEntries entries are visited, from the first one on, whether
        or not named entries precede them. */
    function EntryAt(i: nat): nat {
      begin + rdOffset + DIRECTORY_SIZE + ENTRY_SIZE * i
    }
  }

  /** File offset of an entry's `OffsetToData` field, which follows its
      four-byte name. */
  function OffsetToData(entry: nat): nat {
    entry + 4
  }

  /** The `ResourceDirEnum(pBegin, rdOffset, level)` constructor. */
  function OpenDirectory(data: seq<Byte>, begin: nat, rdOffset: nat, level: nat): (r: Result<Directory>)
    ensures r.Ok? <==> begin + rdOffset + 16 <= |data|
    ensures r.Ok? ==> r.value == Directory(begin, rdOffset, level, Word(data, begin + rdOffset + 14))
  {
    var nb :- U16(data, begin + rdOffset + 14);
    Ok(Directory(begin, rdOffset, level, nb))
  }

  /** The `ResourceDirEnum(parent, offset)` constructor: the low 31 bits
      locate the subdirectory, which is read before the high bit is checked;
      an entry without the high bit is a leaf and fails. */
  function OpenSubdirectory(data: seq<Byte>, parent: Directory, offset: nat): (r: Result<Directory>)
    ensures r.Ok? ==> HasBit(offset, TWO_31)
    ensures r.Ok? ==> r == OpenDirectory(data, parent.begin, offset % TWO_31, parent.level + 1)
    ensures OpenDirectory(data, parent.begin, offset % TWO_31, parent.level + 1).Ok? && !HasBit(offset, TWO_31)
            ==> r == Err(NotADirectory)
  {
    var d :- OpenDirectory(data, parent.begin, offset % TWO_31, parent.level + 1);
    if !HasBit(offset, TWO_31) then Err(NotADirectory) else Ok(d)
  }

  /** `GetDataEntry`: the file offset of the data entry an entry points to;
      an entry with the high bit set is a directory and fails. */
  function DataEntry(data: seq<Byte>, d: Directory, entry: nat): (r: Result<nat>)
    ensures r.Ok? ==> U32(data, OffsetToData(entry)).Ok? && !HasBit(U32(data, OffsetToData(entry)).value, TWO_31)
                      && r.value == d.begin + U32(data, OffsetToData(entry)).value
  {
    var offset :- U32(data, OffsetToData(entry));
    if HasBit(offset, TWO_31) then Err(NotADataEntry) else Ok(d.begin + offset)
  }

  // ---------------------------------------------------------------------
  // VS_VERSION_INFO

  /** `Read6Bytes`: the length word of a block, skipping the whole 6-byte
      prefix (length, value length, type). */
  function PrefixAt(data: seq<Byte>, off: nat): (r: Result<Parsed<nat>>)
    ensures r.Ok? ==> r.value.next == off + 6 && r.value.value < 0x1_0000
  {
    var len :- U16(data, off);
    Ok(Parsed(len, off + 6))
  }

  /** `ReadPrefixedString`: a block's key after its 6-byte prefix, then
      alignment to four. */
  function PrefixedStringAt(data: seq<Byte>, off: nat): (r: Result<Parsed<NetString>>)
    ensures r.Ok? ==> UnicodeStringAt(data, off + 6).Ok? && r.value.value == UnicodeStringAt(data, off + 6).value.value
    ensures r.Ok? ==> r.value.next == Align4(UnicodeStringAt(data, off + 6).value.next) && r.value.next >= off + 8
  {
    var s :- UnicodeStringAt(data, off + 6);
    Ok(Parsed(s.value, Align4(s.next)))
  }

  function LangIdLine(langId: NetString): NetString {
    STRING_FILE_INFO + S(" for LangId: ") + langId
  }

  function PairLine(key: NetString, value: NetString): NetString {
    key + S(" -> ") + value
  }

  /** The inner loop over the strings of a StringFileInfo table that starts
      at `tableStart` and is `tableLen` bytes long, from offset `p` on: one
      line per key and value, until the cursor has covered the table. */
  function StringEntries(data: seq<Byte>, tableStart: nat, tableLen: nat, p: nat, infos: seq<NetString>)
    : (r: Result<Parsed<seq<NetString>>>)
    decreases tableStart + tableLen - p
    ensures r.Ok? ==> infos <= r.value.value && p <= r.value.next
    ensures r.Ok? ==> tableStart + tableLen <= r.value.next
  {
    if p - tableStart >= tableLen then Ok(Parsed(infos, p))
    else
      var key :- PrefixedStringAt(data, p);
      var value :- UnicodeStringAt(data, key.next);
      StringEntries(data, tableStart, tableLen, Align4(value.next), infos + [PairLine(key.value, value.value)])
  }

  /** One table of a version block at offset `p`: a StringFileInfo table
      contributes its language line and then one line per string; a
      VarFileInfo table contributes its name and is skipped by its length
      less the 30 bytes already read (32-bit wrap-around); any other name
      fails. */
  function VersionTable(data: seq<Byte>, p: nat, infos: seq<NetString>): (r: Result<Parsed<seq<NetString>>>)
    ensures r.Ok? ==> infos <= r.value.value && p < r.value.next
    ensures PrefixAt(data, p).Ok? && UnicodeStringAt(data, p + 6).Ok? ==>
              var name := UnicodeStringAt(data, p + 6).value;
              && (name.value != STRING_FILE_INFO && name.value != VAR_FILE_INFO ==> r == Err(UnknownVersionTable))
              && (name.value == VAR_FILE_INFO ==>
                    r == Ok(Parsed(infos + [VAR_FILE_INFO],
                                   name.next + (PrefixAt(data, p).value.value - VAR_FILE_INFO_READ) % TWO_32)))
              && (name.value == STRING_FILE_INFO && r.Ok? ==>
                    && PrefixedStringAt(data, name.next).Ok?
                    && |r.value.value| > |infos|
                    && r.value.value[|infos|] == LangIdLine(PrefixedStringAt(data, name.next).value.value)
                    && p + PrefixAt(data, p).value.value <= r.value.next)
  {
    var tableLen :- PrefixAt(data, p);
    var name :- UnicodeStringAt(data, tableLen.next);
    if name.value == STRING_FILE_INFO then
      var langId :- PrefixedStringAt(data, name.next);
      var lines := infos + [LangIdLine(langId.value)];
      var entries :- StringEntries(data, p, tableLen.value, langId.next, lines);
      assert entries.value[|infos|] == lines[|infos|];
      Ok(entries)
    else if name.value == VAR_FILE_INFO then
      Ok(Parsed(infos + [VAR_FILE_INFO], name.next + (tableLen.value - VAR_FILE_INFO_READ) % TWO_32))
    else Err(UnknownVersionTable)
  }

  /** The loop over the tables of a version block that starts at `start`
      and is `wholeLen` bytes long, from offset `p` on. */
  function VersionTables(data: seq<Byte>, start: nat, wholeLen: nat, p: nat, infos: seq<NetString>)
    : (r: Result<seq<NetString>>)
    decreases start + wholeLen - p
    ensures r.Ok? ==> infos <= r.value
  {
    if p - start >= wholeLen then Ok(infos)
    else
      var table :- VersionTable(data, p, infos);
      VersionTables(data, start, wholeLen, table.next, table.value)
  }

  /** `ReadVersionFileInfo`: the block at `start` must be named
      VS_VERSION_INFO; its fixed file information is skipped and its tables
      are read up to the block's length. */
  function VersionFileInfo(data: seq<Byte>, start: nat, infos: seq<NetString>): (r: Result<seq<NetString>>)
    ensures r.Ok? ==> infos <= r.value
    ensures (PrefixAt(data, start).Ok? && UnicodeStringAt(data, start + 6).Ok?
             && UnicodeStringAt(data, start + 6).value.value != VS_VERSION_INFO) ==> r == Err(UnexpectedResourceName)
  {
    var wholeLen :- PrefixAt(data, start);
    var name :- UnicodeStringAt(data, wholeLen.next);
    if name.value != VS_VERSION_INFO then Err(UnexpectedResourceName)
    else VersionTables(data, start, wholeLen.value, TablesStart(name.next), infos)
  }

  /** Where the tables of a version block start: past its name, aligned,
      and its fixed file information. */
  function TablesStart(nameEnd: nat): nat {
    Align4(nameEnd) + FIXED_FILE_INFO_SIZE
  }

  // ---------------------------------------------------------------------
  // Laying out a version block, as a resource compiler does

  /** A string of a StringFileInfo table: its key and its value. */
  datatype Pair = Pair(key: NetString, value: NetString)

  /** A table of a version block: a StringFileInfo table (language and
      strings) or a VarFileInfo table, whose contents past its name are
      opaque `fill` bytes. */
  datatype Table =
    | StringTable(langId: NetString, pairs: seq<Pair>)
    | VarTable(fill: seq<Byte>)

  /** Bytes followed by zeros up to a multiple of four. */
  function Padded(b: seq<Byte>): (r: seq<Byte>)
    ensures |r| == Align4(|b|)
  {
    b + Zeros(Align4(|b|) - |b|)
  }

  /** The length of a laid-out key: its 6-byte prefix, the key with its
      terminating zero unit, padding. */
  function PrefixedSize(key: NetString): nat {
    Align4(8 + 2 * |key|)
  }

  /** The length of a laid-out value: the value with its terminating zero
      unit, padding. */
  function ValueSize(value: NetString): nat {
    Align4(2 * |value| + 2)
  }

  /** A key as `ReadPrefixedString` expects it: a 6-byte prefix, the key,
      padding. */
  function EncodePrefixed(key: NetString): (r: seq<Byte>)
    ensures |r| == PrefixedSize(key) && |r| % 4 == 0 && |r| >= 8
  {
    Padded(Zeros(6) + EncodeWString(key))
  }

  /** The length of laid-out strings. */
  function EntriesSize(pairs: seq<Pair>): (r: nat)
    ensures r % 4 == 0
    ensures pairs != [] ==> r > 0
  {
    if pairs == [] then 0
    else
      var key, value, rest := PrefixedSize(pairs[0].key), ValueSize(pairs[0].value), EntriesSize(pairs[1..]);
      Aligned4Sum(key, value);
      Aligned4Sum(key + value, rest);
      key + value + rest
  }

  function EncodeEntries(pairs: seq<Pair>): (r: seq<Byte>)
    ensures |r| == EntriesSize(pairs)
  {
    if pairs == [] then []
    else
      var key, value, rest := EncodePrefixed(pairs[0].key), Padded(EncodeWString(pairs[0].value)), EncodeEntries(pairs[1..]);
      key + value + rest
  }

  /** The lines of the strings of a table, in order. */
  function PairLines(pairs: seq<Pair>): (r: seq<NetString>)
    ensures |r| == |pairs|
  {
    if pairs == [] then [] else [PairLine(pairs[0].key, pairs[0].value)] + PairLines(pairs[1..])
  }

  predicate PairsReadable(pairs: seq<Pair>) {
    forall k :: 0 <= k < |pairs| ==> NoZero(pairs[k].key) && NoZero(pairs[k].value)
  }

  /** The byte length of a table as laid out: its 6-byte prefix, its name
      with the padding after it, then a StringFileInfo table's language and
      strings or a VarFileInfo table's remaining bytes. */
  function TableSize(t: Table): nat {
    match t
    case StringTable(langId, pairs) => 36 + PrefixedSize(langId) + EntriesSize(pairs)
    case VarTable(fill) => VAR_FILE_INFO_READ + |fill|
  }

  /** A table its reader accepts: strings without zero units, a length that
      fits its 16-bit field, and a VarFileInfo table ending on a multiple of
      four. */
  predicate TableReadable(t: Table) {
    && TableSize(t) < 0x1_0000
    && match t
       case StringTable(langId, pairs) => NoZero(langId) && PairsReadable(pairs)
       case VarTable(fill) => |fill| % 4 == 2
  }

  lemma TableSizeAligned(t: Table)
    requires TableReadable(t)
    ensures TableSize(t) % 4 == 0 && TableSize(t) > 0
  {
    match t
    case StringTable(langId, pairs) =>
      Aligned4Sum(36, PrefixedSize(langId));
      Aligned4Sum(36 + PrefixedSize(langId), EntriesSize(pairs));
    case VarTable(fill) =>
      Aligned4Sum(32, |fill| - 2);
  }

  /** The lines a table contributes. */
  function TableLines(t: Table): seq<NetString> {
    match t
    case StringTable(langId, pairs) => [LangIdLine(langId)] + PairLines(pairs)
    case VarTable(_) => [VAR_FILE_INFO]
  }

  function TablesLines(ts: seq<Table>): seq<NetString> {
    if ts == [] then [] else TableLines(ts[0]) + TablesLines(ts[1..])
  }

  /** A key laid out on a multiple of four reads back, the cursor past its
      padding. */
  lemma PrefixedRoundTrip(data: seq<Byte>, p: nat, key: NetString)
    requires p % 4 == 0 && NoZero(key) && Embedded(data, p, EncodePrefixed(key))
    ensures PrefixedStringAt(data, p) == Ok(Parsed(key, p + PrefixedSize(key)))
  {
    PaddedEmbedded(data, p, Zeros(6) + EncodeWString(key));
    EmbeddedSplit(data, p, Zeros(6), EncodeWString(key));
    WStringRoundTrip(data, p + 6, key);
    PrefixedFromString(data, p, key);
  }

  lemma PrefixedFromString(data: seq<Byte>, p: nat, key: NetString)
    requires p % 4 == 0 && WString(data, p + 6) == Ok(key)
    ensures PrefixedStringAt(data, p) == Ok(Parsed(key, p + PrefixedSize(key)))
  {
    Align4Shift(p, 8 + 2 * |key|);
  }

  /** A value laid out on a multiple of four reads back, and the alignment
      after it skips its padding. */
  lemma ValueRoundTrip(data: seq<Byte>, q: nat, value: NetString)
    requires q % 4 == 0 && NoZero(value) && Embedded(data, q, Padded(EncodeWString(value)))
    ensures UnicodeStringAt(data, q) == Ok(Parsed(value, q + 2 * |value| + 2))
    ensures Align4(q + 2 * |value| + 2) == q + ValueSize(value)
  {
    PaddedEmbedded(data, q, EncodeWString(value));
    WStringRoundTrip(data, q, value);
    ValueFromString(data, q, value);
  }

  lemma PaddedEmbedded(data: seq<Byte>, p: nat, b: seq<Byte>)
    requires Embedded(data, p, Padded(b))
    ensures Embedded(data, p, b)
  {
    EmbeddedSplit(data, p, b, Zeros(Align4(|b|) - |b|));
  }

  lemma ValueFromString(data: seq<Byte>, q: nat, value: NetString)
    requires q % 4 == 0 && WString(data, q) == Ok(value)
    ensures UnicodeStringAt(data, q) == Ok(Parsed(value, q + 2 * |value| + 2))
    ensures Align4(q + 2 * |value| + 2) == q + ValueSize(value)
  {
    Align4Shift(q, 2 * |value| + 2);
  }

  /** Each string of a table laid out at its place, one after the other
      from `p` on, the last one ending at `end`. */
  predicate EntriesEmbedded(data: seq<Byte>, p: nat, pairs: seq<Pair>, end: nat)
    decreases |pairs|, 1
  {
    if pairs == [] then end == p else EntriesEmbeddedCons(data, p, pairs, end)
  }

  /** The first string laid out at `p`, the others right after it. */
  predicate EntriesEmbeddedCons(data: seq<Byte>, p: nat, pairs: seq<Pair>, end: nat)
    decreases |pairs|, 0
  {
    && pairs != []
    && Embedded(data, p, EncodePrefixed(pairs[0].key))
    && Embedded(data, p + PrefixedSize(pairs[0].key), Padded(EncodeWString(pairs[0].value)))
    && EntriesEmbedded(data, p + PrefixedSize(pairs[0].key) + ValueSize(pairs[0].value), pairs[1..], end)
  }

  /** The strings of a table laid out as `EncodeEntries` lays them out are
      each at their place. */
  lemma {:induction false} EntriesEmbeddedFrom(data: seq<Byte>, p: nat, pairs: seq<Pair>)
    requires p % 4 == 0 && Embedded(data, p, EncodeEntries(pairs))
    decreases |pairs|
    ensures EntriesEmbedded(data, p, pairs, p + EntriesSize(pairs))
  {
    if pairs != [] {
      var next := EntriesSplit(data, p, pairs);
      EntriesEmbeddedFrom(data, next, pairs[1..]);
    }
  }

  /** The strings of a table laid out from `p` on, the table ending right
      after them, give one `<key> -> <value>` line each, in order. */
  lemma {:induction false} StringEntriesRoundTrip(data: seq<Byte>, tableStart: nat, tableLen: nat, p: nat,
                                                  infos: seq<NetString>, pairs: seq<Pair>)
    requires p % 4 == 0 && PairsReadable(pairs) && EntriesEmbedded(data, p, pairs, tableStart + tableLen)
    decreases |pairs|
    ensures StringEntries(data, tableStart, tableLen, p, infos)
            == Ok(Parsed(infos + PairLines(pairs), tableStart + tableLen))
  {
    if pairs == [] {
      assert infos + PairLines(pairs) == infos;
    } else {
      var next := EntriesHead(data, p, pairs, tableStart + tableLen);
      var line := PairLine(pairs[0].key, pairs[0].value);
      PairsReadableTail(pairs);
      StringEntriesRoundTrip(data, tableStart, tableLen, next, infos + [line], pairs[1..]);
      PairLinesCons(infos, pairs);
      StringEntryStep(data, tableStart, tableLen, p, infos, pairs[0], infos + PairLines(pairs));
    }
  }

  /** The first of strings laid out from `p` on, and where the others
      start. */
  lemma EntriesHead(data: seq<Byte>, p: nat, pairs: seq<Pair>, end: nat) returns (next: nat)
    requires p % 4 == 0 && pairs != [] && EntriesEmbedded(data, p, pairs, end)
    ensures Embedded(data, p, EncodePrefixed(pairs[0].key))
    ensures Embedded(data, p + PrefixedSize(pairs[0].key), Padded(EncodeWString(pairs[0].value)))
    ensures next == p + PrefixedSize(pairs[0].key) + ValueSize(pairs[0].value)
    ensures next % 4 == 0 && EntriesEmbedded(data, next, pairs[1..], end)
  {
    var key, value := EncodePrefixed(pairs[0].key), Padded(EncodeWString(pairs[0].value));
    next := p + |key| + |value|;
    Aligned4Sum(p, |key|);
    Aligned4Sum(p + |key|, |value|);
  }

  /** One string laid out at `p`, inside the table, is read and its line
      appended before the loop goes on after it. */
  lemma StringEntryStep(data: seq<Byte>, tableStart: nat, tableLen: nat, p: nat, infos: seq<NetString>,
                        pair: Pair, lines: seq<NetString>)
    requires p % 4 == 0 && NoZero(pair.key) && NoZero(pair.value)
    requires Embedded(data, p, EncodePrefixed(pair.key))
    requires Embedded(data, p + PrefixedSize(pair.key), Padded(EncodeWString(pair.value)))
    requires p - tableStart < tableLen
    requires StringEntries(data, tableStart, tableLen, p + PrefixedSize(pair.key) + ValueSize(pair.value),
                           infos + [PairLine(pair.key, pair.value)])
             == Ok(Parsed(lines, tableStart + tableLen))
    ensures StringEntries(data, tableStart, tableLen, p, infos) == Ok(Parsed(lines, tableStart + tableLen))
  {
    var q, valueEnd := EntryReads(data, p, pair);
  }

  /** The first string of a table, and where the rest start. */
  lemma EntriesSplit(data: seq<Byte>, p: nat, pairs: seq<Pair>) returns (next: nat)
    requires p % 4 == 0 && pairs != [] && Embedded(data, p, EncodeEntries(pairs))
    ensures Embedded(data, p, EncodePrefixed(pairs[0].key))
    ensures Embedded(data, p + PrefixedSize(pairs[0].key), Padded(EncodeWString(pairs[0].value)))
    ensures next == p + PrefixedSize(pairs[0].key) + ValueSize(pairs[0].value)
    ensures next % 4 == 0 && Embedded(data, next, EncodeEntries(pairs[1..]))
    ensures p + EntriesSize(pairs) == next + EntriesSize(pairs[1..])
  {
    var key := EncodePrefixed(pairs[0].key);
    var value := Padded(EncodeWString(pairs[0].value));
    var rest := EncodeEntries(pairs[1..]);
    EmbeddedSplit3(data, p, key, value, rest);
    next := p + |key| + |value|;
    Aligned4Sum(p, |key|);
    Aligned4Sum(p + |key|, |value|);
  }

  /** What the reader finds in one string of a table laid out at `p`. */
  lemma EntryReads(data: seq<Byte>, p: nat, pair: Pair) returns (q: nat, valueEnd: nat)
    requires p % 4 == 0 && NoZero(pair.key) && NoZero(pair.value)
    requires Embedded(data, p, EncodePrefixed(pair.key))
    requires Embedded(data, p + PrefixedSize(pair.key), Padded(EncodeWString(pair.value)))
    ensures PrefixedStringAt(data, p) == Ok(Parsed(pair.key, q))
    ensures UnicodeStringAt(data, q) == Ok(Parsed(pair.value, valueEnd))
    ensures Align4(valueEnd) == p + PrefixedSize(pair.key) + ValueSize(pair.value)
  {
    q := p + PrefixedSize(pair.key);
    valueEnd := q + 2 * |pair.value| + 2;
    Aligned4Sum(p, PrefixedSize(pair.key));
    ValueRoundTrip(data, q, pair.value);
    PrefixedRoundTrip(data, p, pair.key);
  }

  lemma PairsReadableTail(pairs: seq<Pair>)
    requires pairs != [] && PairsReadable(pairs)
    ensures NoZero(pairs[0].key) && NoZero(pairs[0].value) && PairsReadable(pairs[1..])
  {
    assert forall k :: 0 <= k < |pairs[1..]| ==> pairs[1..][k] == pairs[k + 1];
  }

  lemma PairLinesCons(infos: seq<NetString>, pairs: seq<Pair>)
    requires pairs != []
    ensures infos + [PairLine(pairs[0].key, pairs[0].value)] + PairLines(pairs[1..]) == infos + PairLines(pairs)
  {
  }

  /** A table laid out from `p` on, `len` bytes long: its length word, its
      name, and what follows its name, each at its place. */
  predicate TableEmbedded(data: seq<Byte>, p: nat, t: Table, len: nat) {
    && 0 < len < 0x1_0000
    && Embedded(data, p, EncodeWord(len))
    && match t
       case StringTable(langId, pairs) =>
         && WString(data, p + 6) == Ok(STRING_FILE_INFO)
         && Embedded(data, p + 36, EncodePrefixed(langId))
         && EntriesEmbedded(data, p + 36 + PrefixedSize(langId), pairs, p + len)
       case VarTable(fill) =>
         && WString(data, p + 6) == Ok(VAR_FILE_INFO)
         && len == VAR_FILE_INFO_READ + |fill|
  }

  /** A table laid out from `p` on reads back as its lines, the cursor
      right after it. */
  lemma TableRoundTrip(data: seq<Byte>, p: nat, ts: seq<Table>, end: nat, infos: seq<NetString>)
    requires p % 4 == 0 && TablesEmbeddedCons(data, p, ts, end)
    ensures VersionTable(data, p, infos) == Ok(Parsed(infos + TableLines(ts[0]), p + TableSize(ts[0])))
  {
    TableFields(data, p, ts, end);
    if ts[0].StringTable? {
      StringTableRoundTrip(data, p, TableSize(ts[0]), ts[0].langId, ts[0].pairs, infos);
    } else {
      VarTableRoundTrip(data, p, TableSize(ts[0]), ts[0].fill, infos);
    }
  }

  /** What the reader finds in the header and the language of the first of
      the tables laid out at `p`. */
  lemma TableFields(data: seq<Byte>, p: nat, ts: seq<Table>, end: nat)
    requires p % 4 == 0 && TablesEmbeddedCons(data, p, ts, end)
    ensures U16(data, p) == Ok(TableSize(ts[0]))
    ensures ts[0].StringTable? ==>
              && (p + 36 + PrefixedSize(ts[0].langId)) % 4 == 0 && PairsReadable(ts[0].pairs)
              && WString(data, p + 6) == Ok(STRING_FILE_INFO)
              && PrefixedStringAt(data, p + 36) == Ok(Parsed(ts[0].langId, p + 36 + PrefixedSize(ts[0].langId)))
              && EntriesEmbedded(data, p + 36 + PrefixedSize(ts[0].langId), ts[0].pairs, p + TableSize(ts[0]))
    ensures ts[0].VarTable? ==>
              WString(data, p + 6) == Ok(VAR_FILE_INFO) && TableSize(ts[0]) == VAR_FILE_INFO_READ + |ts[0].fill|
  {
    EmbeddedWord(data, p, TableSize(ts[0]));
    if ts[0].StringTable? {
      LangIdReads(data, p, ts[0].langId);
    }
  }

  lemma LangIdReads(data: seq<Byte>, p: nat, langId: NetString)
    requires p % 4 == 0 && NoZero(langId) && Embedded(data, p + 36, EncodePrefixed(langId))
    ensures (p + 36 + PrefixedSize(langId)) % 4 == 0
    ensures PrefixedStringAt(data, p + 36) == Ok(Parsed(langId, p + 36 + PrefixedSize(langId)))
  {
    Aligned4Sum(p, 36);
    Aligned4Sum(p + 36, PrefixedSize(langId));
    PrefixedRoundTrip(data, p + 36, langId);
  }

  /** A VarFileInfo table reads back as its name, the cursor moved past it
      by its length. */
  lemma VarTableRoundTrip(data: seq<Byte>, p: nat, len: nat, fill: seq<Byte>, infos: seq<NetString>)
    requires U16(data, p) == Ok(len) && WString(data, p + 6) == Ok(VAR_FILE_INFO)
    requires len == VAR_FILE_INFO_READ + |fill|
    ensures VersionTable(data, p, infos) == Ok(Parsed(infos + TableLines(VarTable(fill)), p + len))
  {
    NamesReadable();
  }

  /** A StringFileInfo table whose header reads back and whose strings are
      laid out up to its end reads back as its lines. */
  lemma StringTableRoundTrip(data: seq<Byte>, p: nat, len: nat, langId: NetString, pairs: seq<Pair>,
                             infos: seq<NetString>)
    requires (p + 36 + PrefixedSize(langId)) % 4 == 0 && PairsReadable(pairs)
    requires PrefixAt(data, p) == Ok(Parsed(len, p + 6))
    requires WString(data, p + 6) == Ok(STRING_FILE_INFO)
    requires PrefixedStringAt(data, p + 36) == Ok(Parsed(langId, p + 36 + PrefixedSize(langId)))
    requires EntriesEmbedded(data, p + 36 + PrefixedSize(langId), pairs, p + len)
    ensures VersionTable(data, p, infos) == Ok(Parsed(infos + TableLines(StringTable(langId, pairs)), p + len))
  {
    var q := p + 36 + PrefixedSize(langId);
    var lines := infos + [LangIdLine(langId)];
    StringEntriesRoundTrip(data, p, len, q, lines, pairs);
    StringTableStep(data, p, len, langId, q, infos, Parsed(lines + PairLines(pairs), p + len));
    TableLinesAppend(infos, langId, pairs);
  }

  /** The reads of a StringFileInfo table at `p`: its length, its name, its
      language, then its strings. */
  lemma StringTableStep(data: seq<Byte>, p: nat, len: nat, langId: NetString, q: nat, infos: seq<NetString>,
                        e: Parsed<seq<NetString>>)
    requires PrefixAt(data, p) == Ok(Parsed(len, p + 6))
    requires WString(data, p + 6) == Ok(STRING_FILE_INFO)
    requires PrefixedStringAt(data, p + 36) == Ok(Parsed(langId, q))
    requires StringEntries(data, p, len, q, infos + [LangIdLine(langId)]) == Ok(e)
    ensures VersionTable(data, p, infos) == Ok(e)
  {
    NamesReadable();
  }

  lemma TableLinesAppend(infos: seq<NetString>, langId: NetString, pairs: seq<Pair>)
    ensures infos + [LangIdLine(langId)] + PairLines(pairs) == infos + TableLines(StringTable(langId, pairs))
  {
  }

  /** Tables laid out one after the other from `p` on, the last one ending
      at `end`. */
  predicate TablesEmbedded(data: seq<Byte>, p: nat, ts: seq<Table>, end: nat)
    decreases |ts|, 1
  {
    if ts == [] then p == end else TablesEmbeddedCons(data, p, ts, end)
  }

  /** The first of the tables laid out at `p`, the others right after it. */
  predicate TablesEmbeddedCons(data: seq<Byte>, p: nat, ts: seq<Table>, end: nat)
    decreases |ts|, 0
  {
    && ts != []
    && TableReadable(ts[0])
    && TableEmbedded(data, p, ts[0], TableSize(ts[0]))
    && TablesEmbedded(data, p + TableSize(ts[0]), ts[1..], end)
  }

  lemma {:induction false} TablesEmbeddedEnd(data: seq<Byte>, p: nat, ts: seq<Table>, end: nat)
    requires TablesEmbedded(data, p, ts, end)
    decreases |ts|
    ensures p <= end
  {
    if ts != [] {
      assert TablesEmbeddedCons(data, p, ts, end);
      TablesEmbeddedEnd(data, p + TableSize(ts[0]), ts[1..], end);
    }
  }

  /** The first of the tables laid out at `p`, inside the block, is read
      before the loop goes on after it. */
  lemma TableStep(data: seq<Byte>, start: nat, wholeLen: nat, p: nat, ts: seq<Table>, infos: seq<NetString>)
    requires p % 4 == 0 && p < start + wholeLen && ts != [] && TablesEmbedded(data, p, ts, start + wholeLen)
    ensures VersionTables(data, start, wholeLen, p, infos)
            == VersionTables(data, start, wholeLen, p + TableSize(ts[0]), infos + TableLines(ts[0]))
  {
    var lines, next := infos + TableLines(ts[0]), p + TableSize(ts[0]);
    TableRoundTrip(data, p, ts, start + wholeLen, infos);
    VersionTablesStep(data, start, wholeLen, p, infos, lines, next);
  }

  lemma VersionTablesStep(data: seq<Byte>, start: nat, wholeLen: nat, p: nat, infos: seq<NetString>,
                          lines: seq<NetString>, next: nat)
    requires p < start + wholeLen && VersionTable(data, p, infos) == Ok(Parsed(lines, next))
    ensures VersionTables(data, start, wholeLen, p, infos) == VersionTables(data, start, wholeLen, next, lines)
  {
  }

  /** The tables of a version block that starts at `start` and is
      `wholeLen` bytes long, laid out one after the other from `p` to its
      end, read back as their lines, in order. */
  lemma {:induction false} VersionTablesRoundTrip(data: seq<Byte>, start: nat, wholeLen: nat, p: nat,
                                                  ts: seq<Table>, infos: seq<NetString>)
    requires p % 4 == 0 && TablesEmbedded(data, p, ts, start + wholeLen)
    decreases |ts|
    ensures VersionTables(data, start, wholeLen, p, infos) == Ok(infos + TablesLines(ts))
  {
    if ts == [] {
      VersionTablesEnd(data, start, wholeLen, p, infos);
    } else {
      TablesHead(data, p, ts, start + wholeLen);
      TableStep(data, start, wholeLen, p, ts, infos);
      VersionTablesRoundTrip(data, start, wholeLen, p + TableSize(ts[0]), ts[1..], infos + TableLines(ts[0]));
      VersionTablesLink(data, start, wholeLen, p, ts, infos);
    }
  }

  /** The tables from `p` on read as the first one's lines followed by the
      others'. */
  lemma VersionTablesLink(data: seq<Byte>, start: nat, wholeLen: nat, p: nat, ts: seq<Table>, infos: seq<NetString>)
    requires ts != []
    requires VersionTables(data, start, wholeLen, p, infos)
             == VersionTables(data, start, wholeLen, p + TableSize(ts[0]), infos + TableLines(ts[0]))
    requires VersionTables(data, start, wholeLen, p + TableSize(ts[0]), infos + TableLines(ts[0]))
             == Ok(infos + TableLines(ts[0]) + TablesLines(ts[1..]))
    ensures VersionTables(data, start, wholeLen, p, infos) == Ok(infos + TablesLines(ts))
  {
    TablesLinesCons(infos, ts);
  }

  /** The first of tables laid out from `p` on, and where the others
      start. */
  lemma TablesHead(data: seq<Byte>, p: nat, ts: seq<Table>, end: nat)
    requires p % 4 == 0 && ts != [] && TablesEmbedded(data, p, ts, end)
    ensures (p + TableSize(ts[0])) % 4 == 0 && p < end
    ensures TablesEmbedded(data, p + TableSize(ts[0]), ts[1..], end)
  {
    TableSizeAligned(ts[0]);
    Aligned4Sum(p, TableSize(ts[0]));
    TablesEmbeddedEnd(data, p + TableSize(ts[0]), ts[1..], end);
  }

  /** The loop over the tables stops at the end of the block. */
  lemma VersionTablesEnd(data: seq<Byte>, start: nat, wholeLen: nat, p: nat, infos: seq<NetString>)
    requires p == start + wholeLen
    ensures VersionTables(data, start, wholeLen, p, infos) == Ok(infos + TablesLines([]))
  {
    assert infos + TablesLines([]) == infos;
  }

  lemma TablesLinesCons(infos: seq<NetString>, ts: seq<Table>)
    requires ts != []
    ensures infos + TableLines(ts[0]) + TablesLines(ts[1..]) == infos + TablesLines(ts)
  {
  }

  /** A version block laid out from `start` on, `len` bytes long: its
      length word, its name, then its tables after the name, the padding
      and the fixed file information, up to its end. */
  predicate BlockEmbedded(data: seq<Byte>, start: nat, ts: seq<Table>, len: nat) {
    && len < 0x1_0000
    && Embedded(data, start, EncodeWord(len))
    && WString(data, start + 6) == Ok(VS_VERSION_INFO)
    && TablesEmbedded(data, start + TABLES_OFFSET, ts, start + len)
  }

  /** A version block laid out at `start` reads back as the lines of its
      tables, in order. */
  lemma VersionFileInfoRoundTrip(data: seq<Byte>, start: nat, ts: seq<Table>, len: nat, infos: seq<NetString>)
    requires start % 4 == 0 && BlockEmbedded(data, start, ts, len)
    ensures VersionFileInfo(data, start, infos) == Ok(infos + TablesLines(ts))
  {
    EmbeddedWord(data, start, len);
    Aligned4Sum(start, TABLES_OFFSET);
    VersionTablesRoundTrip(data, start, len, start + TABLES_OFFSET, ts, infos);
    VersionFileInfoStep(data, start, len, infos, Ok(infos + TablesLines(ts)));
  }

  /** The reads of a version block at `start`: its length, its name, then
      its tables. */
  lemma VersionFileInfoStep(data: seq<Byte>, start: nat, len: nat, infos: seq<NetString>,
                            e: Result<seq<NetString>>)
    requires start % 4 == 0 && U16(data, start) == Ok(len) && WString(data, start + 6) == Ok(VS_VERSION_INFO)
    requires VersionTables(data, start, len, start + TABLES_OFFSET, infos) == e
    ensures VersionFileInfo(data, start, infos) == e
  {
    NamesReadable();
    Align4Shift(start, 38);
  }

  /** The names the reader compares with hold no zero code unit. */
  lemma NamesReadable()
    ensures NoZero(STRING_FILE_INFO) && NoZero(VAR_FILE_INFO) && NoZero(VS_VERSION_INFO)
    ensures |STRING_FILE_INFO| == 14 && |VAR_FILE_INFO| == 11 && |VS_VERSION_INFO| == 15
  {
  }

  // ---------------------------------------------------------------------
  // The tree walk

  /** The data entries of a level-2 directory from entry `i` on: each one's
      data is a version block. */
  function LanguageEntries(data: seq<Byte>, h: Headers, d: Directory, i: nat, infos: seq<NetString>)
    : (r: Result<seq<NetString>>)
    decreases d.nb - i
    ensures r.Ok? ==> infos <= r.value
  {
    if i >= d.nb then Ok(infos)
    else
      var block :- BlockOf(data, h, d, i);
      var infos' :- VersionFileInfo(data, block, infos);
      LanguageEntries(data, h, d, i + 1, infos')
  }

  /** The entries of a level-1 directory (one per resource name) from entry
      `i` on, each a directory of languages. */
  function NameEntries(data: seq<Byte>, h: Headers, d: Directory, i: nat, infos: seq<NetString>)
    : (r: Result<seq<NetString>>)
    decreases d.nb - i
    ensures r.Ok? ==> infos <= r.value
  {
    if i >= d.nb then Ok(infos)
    else
      var sub :- SubdirectoryOf(data, d, i);
      var infos' :- LanguageEntries(data, h, sub, 0, infos);
      NameEntries(data, h, d, i + 1, infos')
  }

  /** The entries of the root directory (one per resource type) from entry
      `i` on; only the Version type is descended. */
  function TypeEntries(data: seq<Byte>, h: Headers, d: Directory, i: nat, infos: seq<NetString>)
    : (r: Result<seq<NetString>>)
    decreases d.nb - i
    ensures r.Ok? ==> infos <= r.value
  {
    if i >= d.nb then Ok(infos)
    else
      var name :- U32(data, d.EntryAt(i));
      if name != RT_VERSION then TypeEntries(data, h, d, i + 1, infos)
      else
        var infos' :- DescendType(data, h, d, i, infos);
        TypeEntries(data, h, d, i + 1, infos')
  }

  /** `ReadVersionInfo`: the root directory sits where the resource data
      directory's RVA translates to; an image that is not PE has no data
      directory to read. */
  function VersionInfo(data: seq<Byte>, img: Image): (r: Result<seq<NetString>>)
    ensures img.NotPe? ==> r == Err(NullReference)
  {
    if img.NotPe? then Err(NullReference)
    else
      var root :- ResourceRoot(data, img.headers);
      TypeEntries(data, img.headers, root, 0, [])
  }

  /** A resource tree without a Version entry at its root yields no lines. */
  lemma {:induction false} NoVersionTypeNoLines(data: seq<Byte>, h: Headers, d: Directory, i: nat, infos: seq<NetString>)
    requires forall k :: i <= k < d.nb ==> U32(data, d.EntryAt(k)).Ok? && U32(data, d.EntryAt(k)).value != RT_VERSION
    decreases d.nb - i
    ensures TypeEntries(data, h, d, i, infos) == Ok(infos)
  {
    if i < d.nb {
      NoVersionTypeNoLines(data, h, d, i + 1, infos);
    }
  }

  // ---------------------------------------------------------------------
  // The tree walk, entry by entry

  /** The file offset of the version block that entry `k` of a level-2
      directory holds: its data entry's RVA, translated. */
  function BlockOf(data: seq<Byte>, h: Headers, d: Directory, k: nat): Result<nat> {
    var dataEntry :- DataEntry(data, d, d.EntryAt(k));
    var rva :- U32(data, dataEntry);
    Rva2Offset(data, h, rva)
  }

  /** The subdirectory that entry `k` of a directory points to. */
  function SubdirectoryOf(data: seq<Byte>, d: Directory, k: nat): Result<Directory> {
    var offset :- U32(data, OffsetToData(d.EntryAt(k)));
    OpenSubdirectory(data, d, offset)
  }

  /** The version blocks at `blocks`, read one after the other; the first
      failure ends the reading. */
  function ReadBlocks(data: seq<Byte>, blocks: seq<nat>, infos: seq<NetString>): Result<seq<NetString>>
    decreases |blocks|
  {
    if blocks == [] then Ok(infos)
    else
      var infos' :- VersionFileInfo(data, blocks[0], infos);
      ReadBlocks(data, blocks[1..], infos')
  }

  /** The language directories `subs`, walked one after the other. */
  function ReadLanguageDirs(data: seq<Byte>, h: Headers, subs: seq<Directory>, infos: seq<NetString>)
    : Result<seq<NetString>>
    decreases |subs|
  {
    if subs == [] then Ok(infos)
    else
      var infos' :- LanguageEntries(data, h, subs[0], 0, infos);
      ReadLanguageDirs(data, h, subs[1..], infos')
  }

  /** The entries of the root directory from `i` on whose name is the
      Version type, in entry order. */
  function VersionTypes(data: seq<Byte>, d: Directory, i: nat): seq<nat>
    decreases d.nb - i
  {
    if i >= d.nb then []
    else if U32(data, d.EntryAt(i)) == Ok(RT_VERSION) then [i] + VersionTypes(data, d, i + 1)
    else VersionTypes(data, d, i + 1)
  }

  /** `VersionTypes` holds exactly the entries of the Version type, in
      increasing order. */
  lemma {:induction false} VersionTypesExact(data: seq<Byte>, d: Directory, i: nat)
    decreases d.nb - i
    ensures forall j :: 0 <= j < |VersionTypes(data, d, i)| ==>
              i <= VersionTypes(data, d, i)[j] < d.nb && U32(data, d.EntryAt(VersionTypes(data, d, i)[j])) == Ok(RT_VERSION)
    ensures forall k :: i <= k < d.nb && U32(data, d.EntryAt(k)) == Ok(RT_VERSION) ==> k in VersionTypes(data, d, i)
    ensures forall j, j' :: 0 <= j < j' < |VersionTypes(data, d, i)| ==> VersionTypes(data, d, i)[j] < VersionTypes(data, d, i)[j']
  {
    if i < d.nb {
      VersionTypesExact(data, d, i + 1);
    }
  }

  /** The name directories under the root entries `ks`, walked one after
      the other. */
  function ReadTypeDirs(data: seq<Byte>, h: Headers, d: Directory, ks: seq<nat>, infos: seq<NetString>)
    : Result<seq<NetString>>
    decreases |ks|
  {
    if ks == [] then Ok(infos)
    else
      var infos' :- DescendType(data, h, d, ks[0], infos);
      ReadTypeDirs(data, h, d, ks[1..], infos')
  }

  /** The name directory under root entry `k`, walked. */
  function DescendType(data: seq<Byte>, h: Headers, d: Directory, k: nat, infos: seq<NetString>)
    : Result<seq<NetString>>
  {
    var sub :- SubdirectoryOf(data, d, k);
    NameEntries(data, h, sub, 0, infos)
  }

  /** The walk at a root entry of the Version type descends it, then goes on
      with the next entry. */
  lemma TypeEntriesDescend(data: seq<Byte>, h: Headers, d: Directory, i: nat, infos: seq<NetString>)
    requires i < d.nb && U32(data, d.EntryAt(i)) == Ok(RT_VERSION)
    ensures DescendType(data, h, d, i, infos).Err? ==>
              TypeEntries(data, h, d, i, infos) == Err(DescendType(data, h, d, i, infos).error)
    ensures DescendType(data, h, d, i, infos).Ok? ==>
              TypeEntries(data, h, d, i, infos) == TypeEntries(data, h, d, i + 1, DescendType(data, h, d, i, infos).value)
  {
  }

  /** The resource root directory of a PE image: where the resource data
      directory's RVA translates to. */
  function ResourceRoot(data: seq<Byte>, h: Headers): Result<Directory> {
    var rva :- DirectoryRva(data, h, RESOURCE);
    var resources :- Rva2Offset(data, h, rva);
    OpenDirectory(data, resources, 0, 0)
  }

  /** The lines of a language directory are those of the version blocks its
      data entries hold, read in entry order. */
  lemma {:induction false} LanguageEntriesBlocks(data: seq<Byte>, h: Headers, d: Directory, i: nat,
                                                 infos: seq<NetString>, blocks: seq<nat>)
    requires i <= d.nb && |blocks| == d.nb - i
    requires forall k :: 0 <= k < |blocks| ==> BlockOf(data, h, d, i + k) == Ok(blocks[k])
    decreases |blocks|
    ensures LanguageEntries(data, h, d, i, infos) == ReadBlocks(data, blocks, infos)
  {
    if blocks != [] {
      assert BlockOf(data, h, d, i + 0) == Ok(blocks[0]);
      var first := VersionFileInfo(data, blocks[0], infos);
      if first.Ok? {
        forall k | 0 <= k < |blocks[1..]|
          ensures BlockOf(data, h, d, i + 1 + k) == Ok(blocks[1..][k])
        {
          assert BlockOf(data, h, d, i + (k + 1)) == Ok(blocks[k + 1]);
        }
        LanguageEntriesBlocks(data, h, d, i + 1, first.value, blocks[1..]);
      }
    }
  }

  /** The lines of a name directory are those of the language directories
      its entries point to, walked in entry order. */
  lemma {:induction false} NameEntriesDirs(data: seq<Byte>, h: Headers, d: Directory, i: nat,
                                           infos: seq<NetString>, subs: seq<Directory>)
    requires i <= d.nb && |subs| == d.nb - i
    requires forall k :: 0 <= k < |subs| ==> SubdirectoryOf(data, d, i + k) == Ok(subs[k])
    decreases |subs|
    ensures NameEntries(data, h, d, i, infos) == ReadLanguageDirs(data, h, subs, infos)
  {
    if subs != [] {
      assert SubdirectoryOf(data, d, i + 0) == Ok(subs[0]);
      var first := LanguageEntries(data, h, subs[0], 0, infos);
      if first.Ok? {
        forall k | 0 <= k < |subs[1..]|
          ensures SubdirectoryOf(data, d, i + 1 + k) == Ok(subs[1..][k])
        {
          assert SubdirectoryOf(data, d, i + (k + 1)) == Ok(subs[k + 1]);
        }
        NameEntriesDirs(data, h, d, i + 1, first.value, subs[1..]);
      }
    }
  }

  /** When every root entry's name can be read, the walk descends exactly
      the entries of the Version type, in entry order. */
  lemma {:induction false} TypeEntriesVersionOnly(data: seq<Byte>, h: Headers, d: Directory, i: nat,
                                                  infos: seq<NetString>)
    requires forall k :: i <= k < d.nb ==> U32(data, d.EntryAt(k)).Ok?
    decreases d.nb - i
    ensures TypeEntries(data, h, d, i, infos) == ReadTypeDirs(data, h, d, VersionTypes(data, d, i), infos)
  {
    if i < d.nb {
      assert U32(data, d.EntryAt(i)).Ok?;
      if U32(data, d.EntryAt(i)).value != RT_VERSION {
        TypeEntriesVersionOnly(data, h, d, i + 1, infos);
      } else {
        var ks := VersionTypes(data, d, i);
        assert ks == [i] + VersionTypes(data, d, i + 1);
        TypeEntriesDescend(data, h, d, i, infos);
        var first := DescendType(data, h, d, i, infos);
        if first.Ok? {
          TypeEntriesVersionOnly(data, h, d, i + 1, first.value);
          assert ks[1..] == VersionTypes(data, d, i + 1);
        }
      }
    }
  }

  /** On a PE image whose resource root can be read, the version lines are
      those of the name directories under the root's Version entries. */
  lemma VersionInfoFromRoot(data: seq<Byte>, img: Image, root: Directory)
    requires img.Pe? && ResourceRoot(data, img.headers) == Ok(root)
    requires forall k :: 0 <= k < root.nb ==> U32(data, root.EntryAt(k)).Ok?
    ensures VersionInfo(data, img) == ReadTypeDirs(data, img.headers, root, VersionTypes(data, root, 0), [])
  {
    TypeEntriesVersionOnly(data, img.headers, root, 0, []);
  }

  // ---------------------------------------------------------------------
  // The imperative side

  /** `ResourceDirEnum`: a directory and the index of the next entry. */
  class ResourceDirEnum {
    const data: seq<Byte>
    const dir: Directory
    var i: nat

    constructor (data: seq<Byte>, dir: Directory)
      ensures this.data == data && this.dir == dir && i == 0
    {
      this.data := data;
      this.dir := dir;
      i := 0;
    }

    /** The root constructor, which reads the entry count. */
    static method Open(data: seq<Byte>, begin: nat, rdOffset: nat, level: nat) returns (r: Result<ResourceDirEnum>)
      ensures r.Ok? <==> OpenDirectory(data, begin, rdOffset, level).Ok?
      ensures r.Err? ==> OpenDirectory(data, begin, rdOffset, level) == Err(r.error)
      ensures r.Ok? ==> fresh(r.value) && r.value.data == data && r.value.i == 0
                        && r.value.dir == OpenDirectory(data, begin, rdOffset, level).value
    {
      var nb :- U16(data, begin + rdOffset + 14);
      var e := new ResourceDirEnum(data, Directory(begin, rdOffset, level, nb));
      r := Ok(e);
    }

    /** The child constructor. */
    method Child(offset: nat) returns (r: Result<ResourceDirEnum>)
      ensures r.Ok? <==> OpenSubdirectory(data, dir, offset).Ok?
      ensures r.Err? ==> OpenSubdirectory(data, dir, offset) == Err(r.error)
      ensures r.Ok? ==> fresh(r.value) && r.value.data == data && r.value.i == 0
                        && r.value.dir == OpenSubdirectory(data, dir, offset).value
    {
      r := Open(data, dir.begin, offset % TWO_31, dir.level + 1);
      if r.Ok? && !HasBit(offset, TWO_31) {
        r := Err(NotADirectory);
      }
    }

    /** `Next`: the next entry while fewer than NumberOfIdEntries were
        returned; the index moves on either way. */
    method Next() returns (entry: Option<nat>)
      modifies this
      ensures i == old(i) + 1
      ensures old(i) < dir.nb ==> entry == Some(dir.EntryAt(old(i)))
      ensures old(i) >= dir.nb ==> entry == None
    {
      var k := i;
      i := i + 1;
      if k < dir.nb {
        entry := Some(dir.EntryAt(k));
      } else {
        entry := None;
      }
    }
  }

  /** `ReadVersionFileInfo`, appending to `infos`. */
  method ReadVersionFileInfo(data: seq<Byte>, start: nat, infos: seq<NetString>) returns (r: Result<seq<NetString>>)
    ensures r == VersionFileInfo(data, start, infos)
  {
    var bs := new ByteStream(data, start);
    var wholeLen :- Read6Bytes(bs);
    var resName :- bs.ReadUnicodeString();
    if resName != VS_VERSION_INFO {
      return Err(UnexpectedResourceName);
    }
    ghost var nameEnd := bs.p;
    bs.Align();
    var _ := bs.Advance(FIXED_FILE_INFO_SIZE);
    assert bs.p == TablesStart(nameEnd);
    ghost var target := VersionFileInfo(data, start, infos);
    var lines := infos;
    while bs.p - start < wholeLen
      invariant VersionTables(data, start, wholeLen, bs.p, lines) == target
      decreases start + wholeLen - bs.p
    {
      lines :- ReadVersionTable(bs, lines);
    }
    r := Ok(lines);
  }

  /** The body of the table loop of `ReadVersionFileInfo`. */
  method ReadVersionTable(bs: ByteStream, infos: seq<NetString>) returns (r: Result<seq<NetString>>)
    modifies bs
    ensures r == Value(VersionTable(bs.data, old(bs.p), infos))
    ensures r.Ok? ==> bs.p == VersionTable(bs.data, old(bs.p), infos).value.next
  {
    var tableStart := bs.p;
    var tableLen :- Read6Bytes(bs);
    var tableName :- bs.ReadUnicodeString();
    if tableName == STRING_FILE_INFO {
      var langId :- ReadPrefixedString(bs);
      r := ReadStringEntries(bs, tableStart, tableLen, infos + [LangIdLine(langId)]);
    } else if tableName == VAR_FILE_INFO {
      var _ := bs.Advance((tableLen - VAR_FILE_INFO_READ) % TWO_32);
      r := Ok(infos + [VAR_FILE_INFO]);
    } else {
      r := Err(UnknownVersionTable);
    }
  }

  /** The inner loop of `ReadVersionFileInfo` over the strings of a
      StringFileInfo table. */
  method ReadStringEntries(bs: ByteStream, tableStart: nat, tableLen: nat, infos: seq<NetString>)
    returns (r: Result<seq<NetString>>)
    modifies bs
    ensures r == Value(StringEntries(bs.data, tableStart, tableLen, old(bs.p), infos))
    ensures r.Ok? ==> bs.p == StringEntries(bs.data, tableStart, tableLen, old(bs.p), infos).value.next
  {
    ghost var target := StringEntries(bs.data, tableStart, tableLen, bs.p, infos);
    var lines := infos;
    while bs.p - tableStart < tableLen
      invariant StringEntries(bs.data, tableStart, tableLen, bs.p, lines) == target
      decreases tableStart + tableLen - bs.p
    {
      var key :- ReadPrefixedString(bs);
      var value :- bs.ReadUnicodeString();
      lines := lines + [PairLine(key, value)];
      bs.Align();
    }
    r := Ok(lines);
  }

  /** The innermost loop of `ReadVersionInfo`: every entry of a level-2
      directory is a data entry holding a version block. */
  method ReadLanguageEntries(h: Headers, e: ResourceDirEnum, infos: seq<NetString>) returns (r: Result<seq<NetString>>)
    requires e.i == 0
    modifies e
    ensures r == LanguageEntries(e.data, h, e.dir, 0, infos)
  {
    ghost var target := LanguageEntries(e.data, h, e.dir, 0, infos);
    var lines := infos;
    var entry := e.Next();
    while entry.Some?
      invariant 1 <= e.i
      invariant entry == (if e.i - 1 < e.dir.nb then Some(e.dir.EntryAt(e.i - 1)) else None)
      invariant LanguageEntries(e.data, h, e.dir, e.i - 1, lines) == target
      decreases e.dir.nb - e.i + 1
    {
      var dataEntry :- DataEntry(e.data, e.dir, entry.value);
      var rva :- U32(e.data, dataEntry);
      var block :- Rva2Offset(e.data, h, rva);
      lines :- ReadVersionFileInfo(e.data, block, lines);
      entry := e.Next();
    }
    r := Ok(lines);
  }

  /** The middle loop of `ReadVersionInfo`: every entry of a level-1
      directory is a directory of languages. */
  method ReadNameEntries(h: Headers, e: ResourceDirEnum, infos: seq<NetString>) returns (r: Result<seq<NetString>>)
    requires e.i == 0
    modifies e
    ensures r == NameEntries(e.data, h, e.dir, 0, infos)
  {
    ghost var target := NameEntries(e.data, h, e.dir, 0, infos);
    var lines := infos;
    var entry := e.Next();
    while entry.Some?
      invariant 1 <= e.i
      invariant entry == (if e.i - 1 < e.dir.nb then Some(e.dir.EntryAt(e.i - 1)) else None)
      invariant NameEntries(e.data, h, e.dir, e.i - 1, lines) == target
      decreases e.dir.nb - e.i + 1
    {
      var offset :- U32(e.data, OffsetToData(entry.value));
      var child :- e.Child(offset);
      lines :- ReadLanguageEntries(h, child, lines);
      entry := e.Next();
    }
    r := Ok(lines);
  }

  /** The outer loop of `ReadVersionInfo` over the resource types of the
      root directory, descending only into the Version type. */
  method ReadTypeEntries(h: Headers, e: ResourceDirEnum, infos: seq<NetString>) returns (r: Result<seq<NetString>>)
    requires e.i == 0
    modifies e
    ensures r == TypeEntries(e.data, h, e.dir, 0, infos)
  {
    ghost var target := TypeEntries(e.data, h, e.dir, 0, infos);
    var lines := infos;
    var entry := e.Next();
    while entry.Some?
      invariant 1 <= e.i
      invariant entry == (if e.i - 1 < e.dir.nb then Some(e.dir.EntryAt(e.i - 1)) else None)
      invariant TypeEntries(e.data, h, e.dir, e.i - 1, lines) == target
      decreases e.dir.nb - e.i + 1
    {
      var name :- U32(e.data, entry.value);
      if name == RT_VERSION {
        var offset :- U32(e.data, OffsetToData(entry.value));
        var child :- e.Child(offset);
        lines :- ReadNameEntries(h, child, lines);
      }
      entry := e.Next();
    }
    r := Ok(lines);
  }

  /** `ReadVersionInfo` on the bytes of an image. */
  method ReadVersionInfo(data: seq<Byte>, img: Image) returns (r: Result<seq<NetString>>)
    ensures r == VersionInfo(data, img)
  {
    if img.NotPe? {
      return Err(NullReference);
    }
    var rva :- DirectoryRva(data, img.headers, RESOURCE);
    var resources :- Rva2Offset(data, img.headers, rva);
    var root :- ResourceDirEnum.Open(data, resources, 0, 0);
    r := ReadTypeEntries(img.headers, root, []);
  }

  /** `Read6Bytes` on the stream. */
  method Read6Bytes(bs: ByteStream) returns (r: Result<nat>)
    modifies bs
    ensures r == Value(PrefixAt(bs.data, old(bs.p))) && bs.p == NextOr(PrefixAt(bs.data, old(bs.p)), old(bs.p))
  {
    var len := U16(bs.data, bs.p);
    if len.Ok? {
      var _ := bs.Advance(6);
      r := Ok(len.value);
    } else {
      r := Err(len.error);
    }
  }

  /** `ReadPrefixedString` on the stream. */
  method ReadPrefixedString(bs: ByteStream) returns (r: Result<NetString>)
    modifies bs
    ensures r == Value(PrefixedStringAt(bs.data, old(bs.p)))
    ensures r.Ok? ==> bs.p == PrefixedStringAt(bs.data, old(bs.p)).value.next
  {
    var _ := bs.Advance(6);
    r := bs.ReadUnicodeString();
    if r.Ok? {
      bs.Align();
    }
  }
}
