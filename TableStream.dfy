/** The `#~` stream: the schema of the metadata tables, the size of every
    column type, and the decoding of rows into cells (TableStream.cs).

    Type codes are the values of the `Types` enumeration: 0 to 43 are tables
    (a column of such a type holds a row index into that table), 64 to 75
    are coded-token types (ECMA-335 Partition II, section II.24.2.6), and
    97 to 112 are the fixed-size and heap-index types. */
module TableStream {
  import opened Wrappers
  import opened Bytes
  import opened Streams
  import opened Metadata

  // ---------------------------------------------------------------------
  // Type codes

  const MODULE: nat := 0
  const TYPE_REF: nat := 1
  const TYPE_DEF: nat := 2
  const FIELD_PTR: nat := 3
  const FIELD: nat := 4
  const METHOD_PTR: nat := 5
  const METHOD: nat := 6
  const PARAM_PTR: nat := 7
  const PARAM: nat := 8
  const INTERFACE_IMPL: nat := 9
  const MEMBER_REF: nat := 10
  const CONSTANT: nat := 11
  const CUSTOM_ATTRIBUTE: nat := 12
  const FIELD_MARSHAL: nat := 13
  const PERMISSION: nat := 14
  const CLASS_LAYOUT: nat := 15
  const FIELD_LAYOUT: nat := 16
  const STAND_ALONE_SIG: nat := 17
  const EVENT_MAP: nat := 18
  const EVENT_PTR: nat := 19
  const EVENT: nat := 20
  const PROPERTY_MAP: nat := 21
  const PROPERTY_PTR: nat := 22
  const PROPERTY: nat := 23
  const METHOD_SEMANTICS: nat := 24
  const METHOD_IMPL: nat := 25
  const MODULE_REF: nat := 26
  const TYPE_SPEC: nat := 27
  const IMPL_MAP: nat := 28
  const FIELD_RVA: nat := 29
  const ENC_LOG: nat := 30
  const ENC_MAP: nat := 31
  const ASSEMBLY: nat := 32
  const ASSEMBLY_PROCESSOR: nat := 33
  const ASSEMBLY_OS: nat := 34
  const ASSEMBLY_REF: nat := 35
  const ASSEMBLY_REF_PROCESSOR: nat := 36
  const ASSEMBLY_REF_OS: nat := 37
  const FILE: nat := 38
  const EXPORTED_TYPE: nat := 39
  const MANIFEST_RESOURCE: nat := 40
  const NESTED_CLASS: nat := 41
  const TYPE_TY_PAR: nat := 42
  const METHOD_TY_PAR: nat := 43

  const TYPE_DEF_OR_REF: nat := 64
  const HAS_CONSTANT: nat := 65
  const CUSTOM_ATTRIBUTE_TYPE: nat := 66
  const HAS_SEMANTIC: nat := 67
  const RESOLUTION_SCOPE: nat := 68
  const HAS_FIELD_MARSHAL: nat := 69
  const HAS_DECL_SECURITY: nat := 70
  const MEMBER_REF_PARENT: nat := 71
  const METHOD_DEF_OR_REF: nat := 72
  const MEMBER_FORWARDED: nat := 73
  const IMPLEMENTATION: nat := 74
  const HAS_CUSTOM_ATTRIBUTE: nat := 75

  const UINT16: nat := 97
  const UINT32: nat := 99
  const STRING: nat := 101
  const BLOB: nat := 102
  const GUID: nat := 103
  const USER_STRING: nat := 112

  /** The number of tables the schema defines. */
  const NB_TABLES: nat := 44

  // ---------------------------------------------------------------------
  // The schema

  /** Column types of every table, indexed by table type. */
  const TABLE_DEFS: seq<seq<nat>> := [
    /* Module */               [UINT16, STRING, GUID, GUID, GUID],
    /* TypeRef */              [RESOLUTION_SCOPE, STRING, STRING],
    /* TypeDef */              [UINT32, STRING, STRING, TYPE_DEF_OR_REF, FIELD, METHOD],
    /* FieldPtr */             [FIELD],
    /* Field */                [UINT16, STRING, BLOB],
    /* MethodPtr */            [METHOD],
    /* Method */               [UINT32, UINT16, UINT16, STRING, BLOB, PARAM],
    /* ParamPtr */             [PARAM],
    /* Param */                [UINT16, UINT16, STRING],
    /* InterfaceImpl */        [TYPE_DEF, TYPE_DEF_OR_REF],
    /* MemberRef */            [MEMBER_REF_PARENT, STRING, BLOB],
    /* Constant */             [UINT16, HAS_CONSTANT, BLOB],
    /* CustomAttribute */      [HAS_CUSTOM_ATTRIBUTE, CUSTOM_ATTRIBUTE_TYPE, BLOB],
    /* FieldMarshal */         [HAS_FIELD_MARSHAL, BLOB],
    /* Permission */           [UINT16, HAS_DECL_SECURITY, BLOB],
    /* ClassLayout */          [UINT16, UINT32, TYPE_DEF],
    /* FieldLayout */          [UINT32, FIELD],
    /* StandAloneSig */        [BLOB],
    /* EventMap */             [TYPE_DEF, EVENT],
    /* EventPtr */             [EVENT],
    /* Event */                [UINT16, STRING, TYPE_DEF_OR_REF],
    /* PropertyMap */          [TYPE_DEF, PROPERTY],
    /* PropertyPtr */          [PROPERTY],
    /* Property */             [UINT16, STRING, BLOB],
    /* MethodSemantics */      [UINT16, METHOD, HAS_SEMANTIC],
    /* MethodImpl */           [TYPE_DEF, METHOD_DEF_OR_REF, METHOD_DEF_OR_REF],
    /* ModuleRef */            [STRING],
    /* TypeSpec */             [BLOB],
    /* ImplMap */              [UINT16, MEMBER_FORWARDED, STRING, MODULE_REF],
    /* FieldRVA */             [UINT32, FIELD],
    /* ENCLog */               [UINT32, UINT32],
    /* ENCMap */               [UINT32],
    /* Assembly */             [UINT32, UINT16, UINT16, UINT16, UINT16, UINT32, BLOB, STRING, STRING],
    /* AssemblyProcessor */    [UINT32],
    /* AssemblyOS */           [UINT32, UINT32, UINT32],
    /* AssemblyRef */          [UINT16, UINT16, UINT16, UINT16, UINT32, BLOB, STRING, STRING, BLOB],
    /* AssemblyRefProcessor */ [UINT32, ASSEMBLY_REF],
    /* AssemblyRefOS */        [UINT32, UINT32, UINT32, ASSEMBLY_REF],
    /* File */                 [UINT32, STRING, BLOB],
    /* ExportedType */         [UINT32, UINT32, STRING, STRING, IMPLEMENTATION],
    /* ManifestResource */     [UINT32, UINT32, STRING, IMPLEMENTATION],
    /* NestedClass */          [TYPE_DEF, TYPE_DEF],
    /* TypeTyPar */            [UINT16, TYPE_DEF, TYPE_DEF_OR_REF, STRING],
    /* MethodTyPar */          [UINT16, METHOD, TYPE_DEF_OR_REF, STRING]]

  /** The column of AssemblyRef holding the referenced assembly's name, and
      the one of ModuleRef holding the module's name. */
  const ASSEMBLY_REF_NAME: nat := 6
  const MODULE_REF_NAME: nat := 0

  /** `CodedTokenTypes`: the tables a coded-token type can refer to, in tag
      order; no entry for any other type. */
  function CodedTokenTypes(t: nat): (r: Option<seq<nat>>)
    ensures r.Some? <==> TYPE_DEF_OR_REF <= t <= HAS_CUSTOM_ATTRIBUTE
    ensures r.Some? ==> 2 <= |r.value| <= 19
    ensures r.Some? ==> forall k :: 0 <= k < |r.value| ==> r.value[k] < NB_TABLES || r.value[k] == USER_STRING
  {
    if t == TYPE_DEF_OR_REF then Some([TYPE_DEF, TYPE_REF, TYPE_SPEC])
    else if t == HAS_CONSTANT then Some([FIELD, PARAM, PROPERTY])
    else if t == CUSTOM_ATTRIBUTE_TYPE then Some([TYPE_REF, TYPE_DEF, METHOD, MEMBER_REF, USER_STRING])
    else if t == HAS_SEMANTIC then Some([EVENT, PROPERTY])
    else if t == RESOLUTION_SCOPE then Some([MODULE, MODULE_REF, ASSEMBLY_REF, TYPE_REF])
    else if t == HAS_FIELD_MARSHAL then Some([FIELD, PARAM])
    else if t == HAS_DECL_SECURITY then Some([TYPE_DEF, METHOD, ASSEMBLY])
    else if t == MEMBER_REF_PARENT then Some([TYPE_DEF, TYPE_REF, MODULE_REF, METHOD, TYPE_SPEC])
    else if t == METHOD_DEF_OR_REF then Some([METHOD, MEMBER_REF])
    else if t == MEMBER_FORWARDED then Some([FIELD, METHOD])
    else if t == IMPLEMENTATION then Some([FILE, ASSEMBLY_REF, EXPORTED_TYPE])
    else if t == HAS_CUSTOM_ATTRIBUTE then
      Some([METHOD, FIELD, TYPE_REF, TYPE_DEF, PARAM, INTERFACE_IMPL, MEMBER_REF, MODULE, PERMISSION,
            PROPERTY, EVENT, STAND_ALONE_SIG, MODULE_REF, TYPE_SPEC, ASSEMBLY, ASSEMBLY_REF, FILE,
            EXPORTED_TYPE, MANIFEST_RESOURCE])
    else None
  }

  /** The width of the tag of a coded token that refers to `n` tables. */
  const CODED_TOKEN_BITS: seq<nat> :=
    [0, 1, 1, 2, 2, 3, 3, 3, 3, 4, 4, 4, 4, 4, 4, 4, 4, 5, 5, 5, 5, 5, 5, 5, 5, 5, 5, 5, 5, 5, 5, 5, 5]

  /** For two or more tables the tag is the fewest bits that can number
      them all; a single table still gets one bit. */
  lemma CodedTokenBitsFit(n: nat)
    requires 1 <= n < |CODED_TOKEN_BITS|
    ensures n <= Pow2(CODED_TOKEN_BITS[n])
    ensures n >= 2 ==> Pow2(CODED_TOKEN_BITS[n] - 1) < n
  {
    assert Pow2(1) == 2 && Pow2(2) == 4 && Pow2(3) == 8 && Pow2(4) == 16 && Pow2(5) == 32;
    if n <= 2 {
      assert CODED_TOKEN_BITS[n] == 1;
    } else if n <= 4 {
      assert CODED_TOKEN_BITS[n] == 2;
    } else if n <= 8 {
      assert CODED_TOKEN_BITS[n] == 3;
    } else if n <= 16 {
      assert CODED_TOKEN_BITS[n] == 4;
    } else {
      assert CODED_TOKEN_BITS[n] == 5;
    }
  }

  // ---------------------------------------------------------------------
  // Column sizes

  /** What the size of a column type depends on: the index widths of the
      three heaps and the row count of every table. */
  datatype Sizes = Sizes(stringIndexSize: nat, guidIndexSize: nat, blobIndexSize: nat, tableLengths: seq<nat>)
  {
    predicate Valid() {
      && (stringIndexSize == 2 || stringIndexSize == 4)
      && (guidIndexSize == 2 || guidIndexSize == 4)
      && (blobIndexSize == 2 || blobIndexSize == 4)
      && |tableLengths| == 64
    }
  }

  /** The heap widths the `MDTables` constructor takes from HeapOffsetSizes:
      bit 0 widens string indexes, bit 1 GUID indexes, bit 2 blob indexes. */
  function SizesOf(header: MetaDataTableHeader): (s: Sizes)
    ensures |header.tableLengths| == 64 ==> s.Valid()
    ensures s.stringIndexSize == 4 <==> HasBit(header.heapOffsetSizes, 1)
    ensures s.guidIndexSize == 4 <==> HasBit(header.heapOffsetSizes, 2)
    ensures s.blobIndexSize == 4 <==> HasBit(header.heapOffsetSizes, 4)
    ensures s.tableLengths == header.tableLengths
  {
    Sizes(if HasBit(header.heapOffsetSizes, 1) then 4 else 2,
          if HasBit(header.heapOffsetSizes, 2) then 4 else 2,
          if HasBit(header.heapOffsetSizes, 4) then 4 else 2,
          header.tableLengths)
  }

  /** `GetTableNbRows`: an index past the array of lengths fails, and the
      index equal to its length fails on the array access. */
  function NbRows(s: Sizes, t: nat): (r: Result<nat>)
    ensures t < |s.tableLengths| <==> r.Ok?
    ensures r.Ok? ==> r.value == s.tableLengths[t]
  {
    if t > |s.tableLengths| then Err(BadTableIndex)
    else if t == |s.tableLengths| then Err(IndexOutOfRange)
    else Ok(s.tableLengths[t])
  }

  /** The loop of `SizeOfType` over the tables a coded token refers to from
      position `i` on, keeping the largest row count seen in `maxRows`; the
      `#US` heap is not a table and is skipped. */
  function MaxRowsFrom(s: Sizes, refs: seq<nat>, i: nat, maxRows: nat): Result<nat>
    requires i <= |refs|
    decreases |refs| - i
  {
    if i == |refs| then Ok(maxRows)
    else if refs[i] == USER_STRING then MaxRowsFrom(s, refs, i + 1, maxRows)
    else
      var rows :- NbRows(s, refs[i]);
      MaxRowsFrom(s, refs, i + 1, if maxRows < rows then rows else maxRows)
  }

  /** The largest row count among the referred tables: at least the count of
      each, and the count of one of them (or the starting value). */
  lemma {:induction false} MaxRowsIsMaximum(s: Sizes, refs: seq<nat>, i: nat, maxRows: nat)
    requires i <= |refs|
    requires forall k :: i <= k < |refs| ==> refs[k] < |s.tableLengths| || refs[k] == USER_STRING
    decreases |refs| - i
    ensures MaxRowsFrom(s, refs, i, maxRows).Ok?
    ensures var m := MaxRowsFrom(s, refs, i, maxRows).value;
      && maxRows <= m
      && (forall k :: i <= k < |refs| && refs[k] != USER_STRING ==> s.tableLengths[refs[k]] <= m)
      && (m == maxRows || exists k :: i <= k < |refs| && refs[k] != USER_STRING && s.tableLengths[refs[k]] == m)
  {
    if i < |refs| {
      if refs[i] == USER_STRING {
        MaxRowsIsMaximum(s, refs, i + 1, maxRows);
      } else {
        var rows := s.tableLengths[refs[i]];
        MaxRowsIsMaximum(s, refs, i + 1, if maxRows < rows then rows else maxRows);
      }
    }
  }

  /** `SizeOfType`: 2 or 4 bytes for every type it knows. A row index is
      wide when its table has 2^16 rows or more; a coded token is wide when
      the largest referred table's row count, shifted left by the tag width
      in 32-bit arithmetic, reaches 2^16. */
  function TypeSize(s: Sizes, t: nat): (r: Result<nat>)
    ensures r.Ok? && s.Valid() ==> r.value == 2 || r.value == 4
    ensures 64 <= t < 97 && r.Ok? ==> CodedTokenTypes(t).Some?
    ensures t > HAS_CUSTOM_ATTRIBUTE && t != UINT16 && t != UINT32 && t != STRING && t != BLOB && t != GUID
            ==> r == Err(InvalidTokenType)
    // fixed-size columns, then heap indexes as wide as their heap
    ensures t == UINT16 ==> r == Ok(2)
    ensures t == UINT32 ==> r == Ok(4)
    ensures t == STRING ==> r == Ok(s.stringIndexSize)
    ensures t == GUID ==> r == Ok(s.guidIndexSize)
    ensures t == BLOB ==> r == Ok(s.blobIndexSize)
    // a row index is wide exactly when its table has 2^16 rows or more
    ensures t < 64 ==> (r.Ok? <==> t < |s.tableLengths|)
    ensures t < 64 && r.Ok? ==> r.value == if s.tableLengths[t] < 0x1_0000 then 2 else 4
  {
    if t == UINT16 then Ok(2)
    else if t == UINT32 then Ok(4)
    else if t == STRING then Ok(s.stringIndexSize)
    else if t == BLOB then Ok(s.blobIndexSize)
    else if t == GUID then Ok(s.guidIndexSize)
    else if t < 64 then
      var nbRows :- NbRows(s, t);
      Ok(if nbRows < 0x1_0000 then 2 else 4)
    else match CodedTokenTypes(t)
      case None => Err(InvalidTokenType)
      case Some(refs) =>
        var maxRows :- MaxRowsFrom(s, refs, 0, 0);
        var shifted := (maxRows * Pow2(CODED_TOKEN_BITS[|refs|])) % TWO_32;
        Ok(if shifted < 0x1_0000 then 2 else 4)
  }

  /** A coded token is wide exactly when the largest row count `m` among the
      tables it refers to, shifted left by its tag width in 32 bits, reaches
      2^16; `m` is characterised as an upper bound that is attained (or 0
      when every referred table is the `#US` heap). */
  lemma CodedTypeSize(s: Sizes, t: nat, m: nat)
    requires s.Valid() && TYPE_DEF_OR_REF <= t <= HAS_CUSTOM_ATTRIBUTE
    requires var refs := CodedTokenTypes(t).value;
      && (forall k :: 0 <= k < |refs| && refs[k] != USER_STRING ==> s.tableLengths[refs[k]] <= m)
      && (m == 0 || exists k :: 0 <= k < |refs| && refs[k] != USER_STRING && s.tableLengths[refs[k]] == m)
    ensures var refs := CodedTokenTypes(t).value;
      TypeSize(s, t) == Ok(if (m * Pow2(CODED_TOKEN_BITS[|refs|])) % TWO_32 < 0x1_0000 then 2 else 4)
  {
    var refs := CodedTokenTypes(t).value;
    MaxRowsIsMaximum(s, refs, 0, 0);
    var mm := MaxRowsFrom(s, refs, 0, 0).value;
    assert mm <= m;
    assert m <= mm;
  }

  /** Every type of the schema has a size once the row counts are known. */
  lemma CodedTypeSizeKnown(s: Sizes, t: nat)
    requires s.Valid()
    requires TYPE_DEF_OR_REF <= t <= HAS_CUSTOM_ATTRIBUTE
    ensures TypeSize(s, t).Ok?
  {
    MaxRowsIsMaximum(s, CodedTokenTypes(t).value, 0, 0);
  }

  /** `RowSize`: the loop of the `Table` constructor adding up the size of
      every column from column `i` on. */
  function RowSizeFrom(s: Sizes, cols: seq<nat>, i: nat, rowSize: nat): Result<nat>
    requires i <= |cols|
    decreases |cols| - i
  {
    if i == |cols| then Ok(rowSize)
    else
      var size :- TypeSize(s, cols[i]);
      RowSizeFrom(s, cols, i + 1, rowSize + size)
  }

  // ---------------------------------------------------------------------
  // Cells

  /** A decoded cell. A row index keeps its table type in the top byte of
      `raw`; a coded token becomes a metadata token (table type in the top
      byte, one-based row number below). */
  datatype Cell =
    | UInt16Cell(u16: nat)
    | UInt32Cell(u32: nat)
    | StringCell(str: NetString)
    | GuidCell(guid: Option<seq<Byte>>)
    | BlobCell(blob: seq<Byte>)
    | RidCell(table: nat, raw: nat)
    | CodedTokenCell(codedType: nat, token: nat)

  type Row = seq<Cell>

  /** The kind of cell a column of type `t` holds. */
  predicate CellFits(t: nat, c: Cell) {
    if t == UINT16 then c.UInt16Cell?
    else if t == UINT32 then c.UInt32Cell?
    else if t == STRING then c.StringCell?
    else if t == GUID then c.GuidCell?
    else if t == BLOB then c.BlobCell?
    else if t < 64 then c.RidCell? && c.table == t
    else c.CodedTokenCell? && c.codedType == t
  }

  predicate RowFits(cols: seq<nat>, row: Row) {
    |row| == |cols| && forall k :: 0 <= k < |row| ==> CellFits(cols[k], row[k])
  }

  /** `(int)` of an unsigned 32-bit value: two's complement. */
  function AsInt32(v: nat): int {
    if v < TWO_31 then v else v - TWO_32
  }

  /** `(uint)` of a signed 32-bit value. */
  function AsUInt32(v: int): nat {
    v % TWO_32
  }

  /** `ToToken`: a metadata token for the zero-based row `index` of table
      `tableType`, or -1 when the one-based row number is negative. */
  function ToToken(tableType: nat, index: int): int {
    var row := index + 1;
    if row < 0 then -1 else BitOr(tableType * 0x100_0000, row)
  }

  /** The coded-token part of `ReadValue`: the low tag bits select the
      referred table, the remaining bits are its one-based row number. */
  function DecodeCodedToken(refs: seq<nat>, raw: nat): (r: Result<nat>)
    requires |refs| < |CODED_TOKEN_BITS|
  {
    var bits := CODED_TOKEN_BITS[|refs|];
    var tag := raw % Pow2(bits);
    var index := raw / Pow2(bits);
    if tag >= |refs| then Err(IndexOutOfRange)
    else Ok(AsUInt32(ToToken(refs[tag], index - 1)))
  }

  /** A coded token as a writer lays it out: row number above the tag. */
  function EncodeCodedToken(refs: seq<nat>, tag: nat, row: nat): nat
    requires |refs| < |CODED_TOKEN_BITS|
  {
    row * Pow2(CODED_TOKEN_BITS[|refs|]) + tag
  }

  /** Decoding recovers the table the tag selects and the row number: the
      token is that table's type above a 24-bit row number. */
  lemma CodedTokenRoundTrip(refs: seq<nat>, tag: nat, row: nat)
    requires 1 <= |refs| < |CODED_TOKEN_BITS|
    requires tag < |refs| && refs[tag] < 0x80 && row < 0x100_0000
    ensures DecodeCodedToken(refs, EncodeCodedToken(refs, tag, row)) == Ok(refs[tag] * 0x100_0000 + row)
  {
    var bits := CODED_TOKEN_BITS[|refs|];
    CodedTokenBitsFit(|refs|);
    TagAndRow(EncodeCodedToken(refs, tag, row), bits, tag, row);
    TokenOfRow(refs[tag], row);
  }

  /** The token of a one-based row number of a table type below 0x80 is the
      type above the 24-bit row number. */
  lemma TokenOfRow(tableType: nat, row: nat)
    requires tableType < 0x80 && row < 0x100_0000
    ensures AsUInt32(ToToken(tableType, row - 1)) == tableType * 0x100_0000 + row
  {
    var token := tableType * 0x100_0000 + row;
    assert BitOr(tableType * 0x100_0000, row) == token by {
      assert Pow2(24) == 0x100_0000 by { Pow2Values(); }
      BitOrDisjoint(tableType, row, 24);
    }
    assert ToToken(tableType, row - 1) == token;
  }

  /** Splitting a coded token of tag width 1 to 5 at the tag boundary. */
  lemma TagAndRow(raw: nat, bits: nat, tag: nat, row: nat)
    requires 1 <= bits <= 5 && tag < Pow2(bits) && raw == row * Pow2(bits) + tag
    ensures raw % Pow2(bits) == tag && raw / Pow2(bits) == row
  {
    var p := Pow2(bits);
    assert p == 2 || p == 4 || p == 8 || p == 16 || p == 32 by {
      assert Pow2(1) == 2 && Pow2(2) == 4 && Pow2(3) == 8 && Pow2(4) == 16 && Pow2(5) == 32;
    }
    DivModConstant(raw, p, tag, row);
  }

  lemma DivModConstant(raw: nat, p: nat, tag: nat, row: nat)
    requires p == 2 || p == 4 || p == 8 || p == 16 || p == 32
    requires tag < p && raw == row * p + tag
    ensures raw % p == tag && raw / p == row
  {
    if p == 2 { DivMod2(raw, tag, row); }
    else if p == 4 { DivMod4(raw, tag, row); }
    else if p == 8 { DivMod8(raw, tag, row); }
    else if p == 16 { DivMod16(raw, tag, row); }
    else { DivMod32(raw, tag, row); }
  }

  lemma DivMod2(raw: nat, tag: nat, row: nat)
    requires tag < 2 && raw == row * 2 + tag
    ensures raw % 2 == tag && raw / 2 == row
  {}

  lemma DivMod4(raw: nat, tag: nat, row: nat)
    requires tag < 4 && raw == row * 4 + tag
    ensures raw % 4 == tag && raw / 4 == row
  {}

  lemma DivMod8(raw: nat, tag: nat, row: nat)
    requires tag < 8 && raw == row * 8 + tag
    ensures raw % 8 == tag && raw / 8 == row
  {}

  lemma DivMod16(raw: nat, tag: nat, row: nat)
    requires tag < 16 && raw == row * 16 + tag
    ensures raw % 16 == tag && raw / 16 == row
  {}

  lemma DivMod32(raw: nat, tag: nat, row: nat)
    requires tag < 32 && raw == row * 32 + tag
    ensures raw % 32 == tag && raw / 32 == row
  {}

  /** A ResolutionScope value of 0b1001 (tag 1, row 2) is row 2 of
      ModuleRef. */
  lemma ResolutionScopeExample()
    ensures DecodeCodedToken(CodedTokenTypes(RESOLUTION_SCOPE).value, 9) == Ok(MODULE_REF * 0x100_0000 + 2)
  {
    var refs := CodedTokenTypes(RESOLUTION_SCOPE).value;
    assert refs[1] == MODULE_REF;
    assert EncodeCodedToken(refs, 1, 2) == 9 by {
      assert CODED_TOKEN_BITS[|refs|] == 2;
      assert Pow2(2) == 4;
    }
    CodedTokenRoundTrip(refs, 1, 2);
  }

  /** A heap index: two bytes when the heap is narrow, four otherwise. */
  function IndexAt(data: seq<Byte>, off: nat, size: nat): (r: Result<Parsed<nat>>)
    ensures r.Ok? ==> r.value.next == off + (if size == 2 then 2 else 4) && r.value.value < TWO_32
  {
    if size == 2 then UInt16At(data, off) else UInt32At(data, off)
  }

  /** `Row.ReadValue`: one cell of type `t` at offset `off`. */
  function ValueAt(md: MetaData, s: Sizes, t: nat, off: nat): (r: Result<Parsed<Cell>>)
    ensures r.Ok? ==> CellFits(t, r.value.value)
    ensures r.Ok? && s.Valid() ==> TypeSize(s, t) == Ok(r.value.next - off) && off <= r.value.next
    ensures t == STRING ==>
              IndexAt(md.data, off, s.stringIndexSize).Ok? && md.ReadString(AsInt32(IndexAt(md.data, off, s.stringIndexSize).value.value)).Ok?
              ==> r.Ok? && r.value.value.str == md.ReadString(AsInt32(IndexAt(md.data, off, s.stringIndexSize).value.value)).value
    ensures t == STRING && r.Ok? ==>
              IndexAt(md.data, off, s.stringIndexSize).Ok?
              && md.ReadString(AsInt32(IndexAt(md.data, off, s.stringIndexSize).value.value)) == Ok(r.value.value.str)
    // fixed-size cells are the little-endian value at the offset
    ensures t == UINT16 ==> (r.Ok? <==> off + 2 <= |md.data|)
    ensures t == UINT16 && r.Ok? ==> r.value == Parsed(UInt16Cell(Word(md.data, off)), off + 2)
    ensures t == UINT32 ==> (r.Ok? <==> off + 4 <= |md.data|)
    ensures t == UINT32 && r.Ok? ==> r.value == Parsed(UInt32Cell(DWord(md.data, off)), off + 4)
    // heap cells are what the heap holds at the stored index
    ensures t == GUID && r.Ok? ==>
              IndexAt(md.data, off, s.guidIndexSize).Ok?
              && md.ReadGuid(AsInt32(IndexAt(md.data, off, s.guidIndexSize).value.value)) == Ok(r.value.value.guid)
    ensures t == BLOB && r.Ok? ==>
              IndexAt(md.data, off, s.blobIndexSize).Ok?
              && md.ReadBlob(AsInt32(IndexAt(md.data, off, s.blobIndexSize).value.value)) == Ok(r.value.value.blob)
    // only the 44 table types name a table
    ensures STRING < t < 64 && t != GUID && t != BLOB && t >= NB_TABLES ==> r == Err(NoSuchTable)
  {
    if t == UINT16 then
      var v :- UInt16At(md.data, off);
      Ok(Parsed(UInt16Cell(v.value), v.next))
    else if t == UINT32 then
      var v :- UInt32At(md.data, off);
      Ok(Parsed(UInt32Cell(v.value), v.next))
    else if t == STRING then
      var i :- IndexAt(md.data, off, s.stringIndexSize);
      var str :- md.ReadString(AsInt32(i.value));
      Ok(Parsed(StringCell(str), i.next))
    else if t == GUID then
      var i :- IndexAt(md.data, off, s.guidIndexSize);
      var guid :- md.ReadGuid(AsInt32(i.value));
      Ok(Parsed(GuidCell(guid), i.next))
    else if t == BLOB then
      var i :- IndexAt(md.data, off, s.blobIndexSize);
      var blob :- md.ReadBlob(AsInt32(i.value));
      Ok(Parsed(BlobCell(blob), i.next))
    else if t < 64 then
      if t >= NB_TABLES then Err(NoSuchTable)
      else
        var count :- NbRows(s, t);
        var v :- IndexAt(md.data, off, if count < 0x1_0000 then 2 else 4);
        Ok(Parsed(RidCell(t, BitOr(t * 0x100_0000, v.value)), v.next))
    else if t < 97 then
      var size :- TypeSize(s, t);
      var v :- IndexAt(md.data, off, size);
      var token :- DecodeCodedToken(CodedTokenTypes(t).value, v.value);
      Ok(Parsed(CodedTokenCell(t, token), v.next))
    else Err(InvalidTokenType)
  }

  /** A row-index cell carries its table type in the top byte above the
      stored row number, read at the width the table's row count selects. */
  lemma RidCellValue(md: MetaData, s: Sizes, t: nat, off: nat)
    requires t < NB_TABLES && t != UINT16 && t != UINT32 && t != STRING && t != GUID && t != BLOB
    requires t < |s.tableLengths|
    requires var size := if s.tableLengths[t] < 0x1_0000 then 2 else 4;
      IndexAt(md.data, off, size).Ok? && IndexAt(md.data, off, size).value.value < 0x100_0000
    ensures var i := IndexAt(md.data, off, if s.tableLengths[t] < 0x1_0000 then 2 else 4).value;
      ValueAt(md, s, t, off) == Ok(Parsed(RidCell(t, t * 0x100_0000 + i.value), i.next))
  {
    var i := IndexAt(md.data, off, if s.tableLengths[t] < 0x1_0000 then 2 else 4).value;
    Pow2Values();
    BitOrDisjoint(t, i.value, 24);
  }

  /** A coded-token cell whose bytes hold row `row` of the table selected by
      `tag`, laid out as a writer lays it out, decodes to that table's
      metadata token for that row. */
  lemma CodedCellRoundTrip(md: MetaData, s: Sizes, t: nat, off: nat, tag: nat, row: nat)
    requires s.Valid() && TYPE_DEF_OR_REF <= t <= HAS_CUSTOM_ATTRIBUTE
    requires tag < |CodedTokenTypes(t).value| && row < 0x100_0000
    requires TypeSize(s, t).Ok?
    requires IndexAt(md.data, off, TypeSize(s, t).value).Ok?
    requires IndexAt(md.data, off, TypeSize(s, t).value).value.value == EncodeCodedToken(CodedTokenTypes(t).value, tag, row)
    ensures var refs := CodedTokenTypes(t).value;
      ValueAt(md, s, t, off)
      == Ok(Parsed(CodedTokenCell(t, refs[tag] * 0x100_0000 + row), IndexAt(md.data, off, TypeSize(s, t).value).value.next))
  {
    var refs := CodedTokenTypes(t).value;
    assert refs[tag] < 0x80;
    CodedTokenRoundTrip(refs, tag, row);
  }

  /** The `Row` constructor from column `i` on: one cell per column, in
      column order. */
  function RowFrom(md: MetaData, s: Sizes, cols: seq<nat>, i: nat, off: nat, cells: Row): (r: Result<Parsed<Row>>)
    requires i <= |cols|
    decreases |cols| - i
    ensures r.Ok? ==> |r.value.value| == |cells| + |cols| - i && r.value.value[..|cells|] == cells
    ensures r.Ok? ==> forall k :: i <= k < |cols| ==> CellFits(cols[k], r.value.value[|cells| + k - i])
  {
    if i == |cols| then Ok(Parsed(cells, off))
    else
      var v :- ValueAt(md, s, cols[i], off);
      var r := RowFrom(md, s, cols, i + 1, v.next, cells + [v.value]);
      if r.Ok? then
        assert r.value.value[..|cells|] == (cells + [v.value])[..|cells|];
        assert r.value.value[|cells|] == v.value;
        r
      else r
  }

  /** A row read from offset `off` spans exactly the row size the `Table`
      constructor computed. */
  lemma {:induction false} RowSpansRowSize(md: MetaData, s: Sizes, cols: seq<nat>, i: nat, off: nat, cells: Row, rowSize: nat)
    requires s.Valid() && i <= |cols|
    decreases |cols| - i
    ensures RowFrom(md, s, cols, i, off, cells).Ok? ==>
              RowSizeFrom(s, cols, i, rowSize).Ok?
              && RowFrom(md, s, cols, i, off, cells).value.next - off == RowSizeFrom(s, cols, i, rowSize).value - rowSize
  {
    if i < |cols| {
      var v := ValueAt(md, s, cols[i], off);
      if v.Ok? {
        var size := TypeSize(s, cols[i]).value;
        RowSpansRowSize(md, s, cols, i + 1, v.value.next, cells + [v.value.value], rowSize + size);
      }
    }
  }

  /** The loop of the `Rows` property from row `i` of `nbRows` on, each row
      starting where the previous one ended. */
  function RowsFrom(md: MetaData, s: Sizes, cols: seq<nat>, nbRows: nat, i: nat, off: nat, rows: seq<Row>): (r: Result<seq<Row>>)
    requires i <= nbRows
    decreases nbRows - i
    ensures r.Ok? ==> |r.value| == |rows| + nbRows - i && r.value[..|rows|] == rows
    ensures r.Ok? ==> forall k :: |rows| <= k < |r.value| ==> RowFits(cols, r.value[k])
  {
    if i == nbRows then Ok(rows)
    else
      var row :- RowFrom(md, s, cols, 0, off, []);
      var r := RowsFrom(md, s, cols, nbRows, i + 1, row.next, rows + [row.value]);
      if r.Ok? then
        assert r.value[..|rows|] == (rows + [row.value])[..|rows|];
        assert r.value[|rows|] == row.value;
        r
      else r
  }

  // ---------------------------------------------------------------------
  // Table layout

  /** Where a table's rows are and how they are laid out. */
  datatype TableInfo = TableInfo(kind: nat, columns: seq<nat>, nbRows: nat, rowSize: nat, dataOff: nat, span: nat)
  {
    /** Where the next table starts. */
    function End(): nat {
      dataOff + span
    }
  }

  /** How far the `Table` constructor advances the stream: the row size
      times the row count, truncated to 32 bits. */
  function Span(rowSize: nat, nbRows: nat): nat {
    (rowSize * nbRows) % TWO_32
  }

  /** The `Table` constructor for table `kind`, at offset `off`. */
  function TableInfoAt(s: Sizes, kind: nat, off: nat): (r: Result<TableInfo>)
    requires kind < NB_TABLES
    ensures r.Ok? ==> r.value.kind == kind && r.value.columns == TABLE_DEFS[kind] && r.value.dataOff == off
    ensures r.Ok? ==> r.value.span == Span(r.value.rowSize, r.value.nbRows)
    ensures r.Ok? ==> NbRows(s, kind) == Ok(r.value.nbRows) && RowSizeFrom(s, TABLE_DEFS[kind], 0, 0) == Ok(r.value.rowSize)
  {
    var nbRows :- NbRows(s, kind);
    var rowSize :- RowSizeFrom(s, TABLE_DEFS[kind], 0, 0);
    Ok(TableInfo(kind, TABLE_DEFS[kind], nbRows, rowSize, off, Span(rowSize, nbRows)))
  }

  /** The loop of the `MDTables` constructor from table `i` on. */
  function TableLayoutFrom(s: Sizes, i: nat, off: nat, tables: seq<TableInfo>): (r: Result<seq<TableInfo>>)
    requires i <= NB_TABLES
    decreases NB_TABLES - i
    ensures r.Ok? ==> |r.value| == |tables| + NB_TABLES - i && r.value[..|tables|] == tables
  {
    if i == NB_TABLES then
      assert tables[..|tables|] == tables;
      Ok(tables)
    else
      var t :- TableInfoAt(s, i, off);
      var r := TableLayoutFrom(s, i + 1, t.End(), tables + [t]);
      assert r.Ok? ==> r.value[..|tables|] == r.value[..|tables| + 1][..|tables|];
      r
  }

  /** The tables follow one another in type order: table `k` has type `k`
      and the columns the schema gives it, the first starts where the table
      stream's header ended, and each other starts where the previous ended. */
  lemma TablesInTypeOrder(s: Sizes, off: nat)
    ensures var r := TableLayoutFrom(s, 0, off, []);
      r.Ok? ==>
        && r.value[0].dataOff == off
        && (forall k :: 0 <= k < NB_TABLES ==> r.value[k].kind == k && r.value[k].columns == TABLE_DEFS[k])
        && (forall k :: 0 < k < NB_TABLES ==> r.value[k].dataOff == r.value[k - 1].End())
  {
    LayoutKinds(s, 0, off, []);
    LayoutOffsets(s, 0, off, []);
  }

  /** One iteration of the layout loop. */
  lemma LayoutStep(s: Sizes, i: nat, off: nat, tables: seq<TableInfo>)
    requires i < NB_TABLES && TableInfoAt(s, i, off).Ok?
    ensures var t := TableInfoAt(s, i, off).value;
      TableLayoutFrom(s, i, off, tables) == TableLayoutFrom(s, i + 1, t.End(), tables + [t])
  {
  }

  /** The first `n` tables have, in order, the types 0 to `n - 1` and the
      columns the schema gives those types. */
  predicate InSchemaOrder(ts: seq<TableInfo>, n: nat)
    requires n <= |ts| && n <= NB_TABLES
  {
    forall k :: 0 <= k < n ==> ts[k].kind == k && ts[k].columns == TABLE_DEFS[k]
  }

  lemma InSchemaOrderAppend(ts: seq<TableInfo>, t: TableInfo)
    requires |ts| < NB_TABLES && InSchemaOrder(ts, |ts|)
    requires t.kind == |ts| && t.columns == TABLE_DEFS[|ts|]
    ensures InSchemaOrder(ts + [t], |ts| + 1)
  {
    var ts' := ts + [t];
    forall k | 0 <= k < |ts'|
      ensures ts'[k].kind == k && ts'[k].columns == TABLE_DEFS[k]
    {
      if k < |ts| {
        assert ts'[k] == ts[k];
      }
    }
  }

  /** The layout loop gives table `k` type `k` and the columns of the
      schema. */
  lemma {:induction false} LayoutKinds(s: Sizes, i: nat, off: nat, tables: seq<TableInfo>)
    requires i <= NB_TABLES && |tables| == i && InSchemaOrder(tables, i)
    decreases NB_TABLES - i
    ensures var r := TableLayoutFrom(s, i, off, tables);
      r.Ok? ==> InSchemaOrder(r.value, NB_TABLES)
  {
    if i < NB_TABLES {
      var t := TableInfoAt(s, i, off);
      if t.Ok? {
        InSchemaOrderAppend(tables, t.value);
        LayoutKinds(s, i + 1, t.value.End(), tables + [t.value]);
        LayoutStep(s, i, off, tables);
      }
    } else {
      assert TableLayoutFrom(s, i, off, tables) == Ok(tables);
    }
  }

  /** Every table starts where the previous one ends. */
  predicate Chained(ts: seq<TableInfo>) {
    forall k :: 0 < k < |ts| ==> ts[k].dataOff == ts[k - 1].End()
  }

  lemma ChainedAppend(ts: seq<TableInfo>, t: TableInfo)
    requires Chained(ts) && (|ts| > 0 ==> t.dataOff == ts[|ts| - 1].End())
    ensures Chained(ts + [t])
  {
    var ts' := ts + [t];
    forall k | 0 < k < |ts'|
      ensures ts'[k].dataOff == ts'[k - 1].End()
    {
      if k < |ts| {
        assert ts'[k] == ts[k] && ts'[k - 1] == ts[k - 1];
      }
    }
  }

  /** The layout loop starts table `i` at `off`, and every table where the
      previous one ends. */
  lemma {:induction false} LayoutOffsets(s: Sizes, i: nat, off: nat, tables: seq<TableInfo>)
    requires i <= NB_TABLES && |tables| == i && Chained(tables)
    requires i > 0 ==> off == tables[i - 1].End()
    decreases NB_TABLES - i
    ensures var r := TableLayoutFrom(s, i, off, tables);
      r.Ok? ==> (i < NB_TABLES ==> r.value[i].dataOff == off) && Chained(r.value)
  {
    if i < NB_TABLES {
      var t := TableInfoAt(s, i, off);
      if t.Ok? {
        var tables' := tables + [t.value];
        ChainedAppend(tables, t.value);
        LayoutOffsets(s, i + 1, t.value.End(), tables');
        LayoutStep(s, i, off, tables);
        var r := TableLayoutFrom(s, i + 1, t.value.End(), tables');
        if r.Ok? {
          assert r.value[i] == r.value[..i + 1][i] == t.value;
        }
      }
    } else {
      assert TableLayoutFrom(s, i, off, tables) == Ok(tables);
    }
  }

  /** Every table of the schema has a layout once the row counts and heap
      widths are valid. */
  lemma {:induction false} LayoutAlwaysSucceeds(s: Sizes, i: nat, off: nat, tables: seq<TableInfo>)
    requires s.Valid() && i <= NB_TABLES
    requires forall k :: 0 <= k < NB_TABLES ==> forall c :: c in TABLE_DEFS[k] ==> TypeSize(s, c).Ok?
    decreases NB_TABLES - i
    ensures TableLayoutFrom(s, i, off, tables).Ok?
  {
    if i < NB_TABLES {
      RowSizeKnown(s, TABLE_DEFS[i], 0, 0);
      LayoutAlwaysSucceeds(s, i + 1, TableInfoAt(s, i, off).value.End(), tables + [TableInfoAt(s, i, off).value]);
    }
  }

  lemma {:induction false} RowSizeKnown(s: Sizes, cols: seq<nat>, i: nat, rowSize: nat)
    requires i <= |cols|
    requires forall c :: c in cols ==> TypeSize(s, c).Ok?
    decreases |cols| - i
    ensures RowSizeFrom(s, cols, i, rowSize).Ok?
  {
    if i < |cols| {
      assert cols[i] in cols;
      RowSizeKnown(s, cols, i + 1, rowSize + TypeSize(s, cols[i]).value);
    }
  }

  // ---------------------------------------------------------------------
  // The imperative side

  /** A table with its lazily read rows (`Table`). */
  class Table {
    const md: MetaData
    const sizes: Sizes
    const info: TableInfo
    var rows: Option<seq<Row>>

    /** The rows the table holds, read from its data offset. */
    function RowsSpec(): Result<seq<Row>> {
      RowsFrom(md, sizes, info.columns, info.nbRows, 0, info.dataOff, [])
    }

    /** A cached row array is the one reading would produce. */
    predicate Valid()
      reads this
    {
      rows.Some? ==> RowsSpec() == Ok(rows.value)
    }

    constructor (md: MetaData, sizes: Sizes, info: TableInfo)
      ensures this.md == md && this.sizes == sizes && this.info == info && rows == None
      ensures Valid()
    {
      this.md := md;
      this.sizes := sizes;
      this.info := info;
      rows := None;
    }

    /** The `Table` constructor: its row count and row size, then the stream
        moves past its rows. */
    static method Create(md: MetaData, sizes: Sizes, kind: nat, bs: ByteStream) returns (r: Result<Table>)
      requires kind < NB_TABLES
      modifies bs
      ensures r.Ok? <==> TableInfoAt(sizes, kind, old(bs.p)).Ok?
      ensures r.Err? ==> TableInfoAt(sizes, kind, old(bs.p)) == Err(r.error)
      ensures r.Ok? ==> && fresh(r.value) && r.value.Valid() && r.value.rows == None
                        && r.value.md == md && r.value.sizes == sizes
                        && r.value.info == TableInfoAt(sizes, kind, old(bs.p)).value
                        && bs.p == r.value.info.End()
    {
      var dataOff := bs.p;
      var nbRows :- NbRows(sizes, kind);
      var cols := TABLE_DEFS[kind];
      var rowSize :- RowSize(sizes, cols);
      var span := Span(rowSize, nbRows);
      var _ := bs.Advance(span);
      var t := new Table(md, sizes, TableInfo(kind, cols, nbRows, rowSize, dataOff, span));
      r := Ok(t);
    }

    /** The loop of the constructor adding up the column sizes. */
    static method RowSize(sizes: Sizes, cols: seq<nat>) returns (r: Result<nat>)
      ensures r == RowSizeFrom(sizes, cols, 0, 0)
    {
      var rowSize: nat := 0;
      for i := 0 to |cols|
        invariant RowSizeFrom(sizes, cols, i, rowSize) == RowSizeFrom(sizes, cols, 0, 0)
      {
        var size :- TypeSize(sizes, cols[i]);
        rowSize := rowSize + size;
      }
      r := Ok(rowSize);
    }

    /** The `Rows` property: read once, then served from the cache. */
    method Rows() returns (r: Result<seq<Row>>)
      requires Valid()
      modifies this
      ensures Valid()
      ensures r == RowsSpec()
      ensures rows == (if r.Ok? then Some(r.value) else old(rows))
    {
      if rows.Some? {
        return Ok(rows.value);
      }
      var bs := new ByteStream(md.data, info.dataOff);
      var read: seq<Row> := [];
      for i := 0 to info.nbRows
        modifies bs
        invariant RowsFrom(md, sizes, info.columns, info.nbRows, i, bs.p, read) == RowsSpec()
      {
        var row :- ReadRow(md, sizes, info.columns, bs);
        read := read + [row];
      }
      rows := Some(read);
      r := Ok(read);
    }
  }

  /** The `Row` constructor. */
  method ReadRow(md: MetaData, s: Sizes, cols: seq<nat>, bs: ByteStream) returns (r: Result<Row>)
    requires bs.data == md.data
    modifies bs
    ensures r == Value(RowFrom(md, s, cols, 0, old(bs.p), []))
    ensures r.Ok? ==> bs.p == RowFrom(md, s, cols, 0, old(bs.p), []).value.next
  {
    var cells: Row := [];
    ghost var start := bs.p;
    for i := 0 to |cols|
      invariant RowFrom(md, s, cols, i, bs.p, cells) == RowFrom(md, s, cols, 0, start, [])
    {
      var cell :- ReadValue(md, s, cols[i], bs);
      cells := cells + [cell];
    }
    r := Ok(cells);
  }

  /** `Row.ReadValue` on the stream. */
  method ReadValue(md: MetaData, s: Sizes, t: nat, bs: ByteStream) returns (r: Result<Cell>)
    requires bs.data == md.data
    modifies bs
    ensures r == Value(ValueAt(md, s, t, old(bs.p)))
    ensures r.Ok? ==> bs.p == ValueAt(md, s, t, old(bs.p)).value.next
  {
    var v := ValueAt(md, s, t, bs.p);
    if v.Ok? {
      bs.p := v.value.next;
      r := Ok(v.value.value);
    } else {
      r := Err(v.error);
    }
  }

  /** All the tables of the `#~` stream (`MDTables`). */
  class MDTables {
    const sizes: Sizes
    const tables: seq<Table>

    constructor (sizes: Sizes, tables: seq<Table>)
      ensures this.sizes == sizes && this.tables == tables
    {
      this.sizes := sizes;
      this.tables := tables;
    }

    /** The `MDTables` constructor: the heap widths, then every table of the
        schema in type order, starting at the stream's cursor. */
    static method Create(md: MetaData, header: MetaDataTableHeader, bs: ByteStream) returns (r: Result<MDTables>)
      modifies bs
      ensures r.Ok? <==> TableLayoutFrom(SizesOf(header), 0, old(bs.p), []).Ok?
      ensures r.Err? ==> TableLayoutFrom(SizesOf(header), 0, old(bs.p), []) == Err(r.error)
      ensures r.Ok? ==>
        && fresh(r.value) && r.value.sizes == SizesOf(header)
        && |r.value.tables| == NB_TABLES
        && (forall k :: 0 <= k < NB_TABLES ==>
              && fresh(r.value.tables[k]) && r.value.tables[k].Valid() && r.value.tables[k].rows == None
              && r.value.tables[k].md == md && r.value.tables[k].sizes == SizesOf(header)
              && r.value.tables[k].info == TableLayoutFrom(SizesOf(header), 0, old(bs.p), []).value[k])
    {
      var sizes := SizesOf(header);
      var tables: seq<Table> := [];
      ghost var infos: seq<TableInfo> := [];
      ghost var start := bs.p;
      for i := 0 to NB_TABLES
        invariant |tables| == |infos| == i
        invariant TableLayoutFrom(sizes, i, bs.p, infos) == TableLayoutFrom(sizes, 0, start, [])
        invariant forall k :: 0 <= k < i ==>
                    && fresh(tables[k]) && tables[k].Valid() && tables[k].rows == None
                    && tables[k].md == md && tables[k].sizes == sizes && tables[k].info == infos[k]
      {
        ghost var before := bs.p;
        var t :- Table.Create(md, sizes, i, bs);
        tables := tables + [t];
        infos := infos + [TableInfoAt(sizes, i, before).value];
      }
      var all := new MDTables(sizes, tables);
      r := Ok(all);
    }

    /** `SizeOfType`, with its loop over the referred tables. */
    method SizeOfType(t: nat) returns (r: Result<nat>)
      ensures r == TypeSize(sizes, t)
    {
      if t == UINT16 { return Ok(2); }
      if t == UINT32 { return Ok(4); }
      if t == STRING { return Ok(sizes.stringIndexSize); }
      if t == BLOB { return Ok(sizes.blobIndexSize); }
      if t == GUID { return Ok(sizes.guidIndexSize); }
      if t < 64 {
        var nbRows :- NbRows(sizes, t);
        return Ok(if nbRows < 0x1_0000 then 2 else 4);
      }
      var referred := CodedTokenTypes(t);
      if referred.None? {
        return Err(InvalidTokenType);
      }
      var refs := referred.value;
      var maxRows := 0;
      for i := 0 to |refs|
        invariant MaxRowsFrom(sizes, refs, i, maxRows) == MaxRowsFrom(sizes, refs, 0, 0)
      {
        if refs[i] != USER_STRING {
          var rows :- NbRows(sizes, refs[i]);
          if maxRows < rows {
            maxRows := rows;
          }
        }
      }
      maxRows := (maxRows * Pow2(CODED_TOKEN_BITS[|refs|])) % TWO_32;
      r := Ok(if maxRows < 0x1_0000 then 2 else 4);
    }
  }
}
