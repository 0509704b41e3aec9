/** The `DllReader` class (DllReader.cs): an image opened once, whose
    dependency lists are read on first use and kept. */
module Reader {
  import opened Wrappers
  import opened Bytes
  import opened Streams
  import opened PeImage
  import opened Dependency
  import opened Imports
  import opened Metadata
  import opened TableStream

  // ---------------------------------------------------------------------
  // Assembly references as functions of the bytes

  /** The tables of the `#~` stream as `ComputeTableOffsets` lays them out. */
  datatype Layout = Layout(md: MetaData, sizes: Sizes, tables: seq<TableInfo>)

  /** The two name columns the references are read from are those of the
      AssemblyRef and ModuleRef schemas. */
  predicate NameColumns(l: Layout) {
    && |l.tables| == NB_TABLES
    && ASSEMBLY_REF_NAME < |l.tables[ASSEMBLY_REF].columns|
    && l.tables[ASSEMBLY_REF].columns[ASSEMBLY_REF_NAME] == STRING
    && MODULE_REF_NAME < |l.tables[MODULE_REF].columns|
    && l.tables[MODULE_REF].columns[MODULE_REF_NAME] == STRING
  }

  /** `ComputeTableOffsets` on the table stream at file offset `off`: its
      header, then every table of the schema in type order. */
  function LayoutAt(md: MetaData, off: nat): (r: Result<Layout>)
    ensures r.Ok? ==> r.value.md == md && NameColumns(r.value)
  {
    var header :- MetaDataTableHeaderAt(md.data, off);
    var s := SizesOf(header.value);
    var tables :- TableLayoutFrom(s, 0, header.next, []);
    LayoutNameColumns(md, s, header.next);
    Ok(Layout(md, s, tables))
  }

  /** `new MetaDataHeaders(...)` at the metadata RVA, then the layout of its
      `#~` stream. A metadata root without a `#~` stream has no table stream
      to read. */
  function MetaDataLayout(data: seq<Byte>, h: Headers, rva: nat): (r: Result<Layout>)
    ensures r.Ok? ==> r.value.md.data == data && NameColumns(r.value)
  {
    var root :- Rva2Offset(data, h, rva);
    var md :- MetaDataAt(data, root);
    if md.streams.tables.None? then Err(NullReference)
    else LayoutAt(md, TableStreamOffset(root, md))
  }

  /** The file offset of the `#~` stream: its header's offset is relative
      to the metadata root. */
  function TableStreamOffset(root: nat, md: MetaData): nat
    requires md.streams.tables.Some?
  {
    root + md.streams.tables.value.offset
  }

  /** The rows of table `k`, as its `Rows` property reads them. */
  function TableRows(l: Layout, k: nat): (r: Result<seq<Row>>)
    requires k < |l.tables|
    ensures r.Ok? ==> |r.value| == l.tables[k].nbRows
    ensures r.Ok? ==> forall row :: row in r.value ==> RowFits(l.tables[k].columns, row)
  {
    var info := l.tables[k];
    RowsFrom(l.md, l.sizes, info.columns, info.nbRows, 0, info.dataOff, [])
  }

  /** Every row holds a string in column `col`. */
  predicate StringColumn(rows: seq<Row>, col: nat) {
    forall row: Row :: row in rows ==> col < |row| && row[col].StringCell?
  }

  /** Column `col` of every row, in row order (`row[col] as string`). */
  function NamesIn(rows: seq<Row>, col: nat): (r: seq<NetString>)
    requires StringColumn(rows, col)
    ensures |r| == |rows|
    ensures forall k :: 0 <= k < |rows| ==> r[k] == rows[k][col].str
  {
    seq(|rows|, k requires 0 <= k < |rows| => rows[k][col].str)
  }

  /** The name column of both schemas holds a string heap index. */
  lemma NameColumnsAreStrings()
    ensures ASSEMBLY_REF_NAME < |TABLE_DEFS[ASSEMBLY_REF]| && TABLE_DEFS[ASSEMBLY_REF][ASSEMBLY_REF_NAME] == STRING
    ensures MODULE_REF_NAME < |TABLE_DEFS[MODULE_REF]| && TABLE_DEFS[MODULE_REF][MODULE_REF_NAME] == STRING
  {
  }

  /** Every layout of the schema has the two name columns. */
  lemma LayoutNameColumns(md: MetaData, s: Sizes, off: nat)
    ensures TableLayoutFrom(s, 0, off, []).Ok? ==> NameColumns(Layout(md, s, TableLayoutFrom(s, 0, off, []).value))
  {
    var r := TableLayoutFrom(s, 0, off, []);
    if r.Ok? {
      LayoutKinds(s, 0, off, []);
      assert r.value[ASSEMBLY_REF].columns == TABLE_DEFS[ASSEMBLY_REF];
      assert r.value[MODULE_REF].columns == TABLE_DEFS[MODULE_REF];
      NameColumnsAreStrings();
    }
  }

  /** Appending two lists one after the other appends their concatenation. */
  lemma Concatenation<T>(a: seq<T>, b: seq<T>, c: seq<T>)
    ensures a + b + c == a + (b + c)
  {
  }

  /** Rows that fit a schema with a string in column `col` hold strings
      there. */
  lemma StringColumnOfSchema(rows: seq<Row>, cols: seq<nat>, col: nat)
    requires col < |cols| && cols[col] == STRING
    requires forall row :: row in rows ==> RowFits(cols, row)
    ensures StringColumn(rows, col)
  {
    forall row: Row | row in rows
      ensures col < |row| && row[col].StringCell?
    {
      assert RowFits(cols, row);
      assert CellFits(cols[col], row[col]);
    }
  }

  /** The AssemblyRef names, then the ModuleRef names, of a laid-out table
      stream; a failure reading the ModuleRef rows keeps the AssemblyRef
      names. */
  function NameWalk(l: Layout): (w: Walk<NetString>)
    requires NameColumns(l)
  {
    match TableRows(l, ASSEMBLY_REF)
    case Err(e) => Walk([], Some(e))
    case Ok(asm) =>
      StringColumnOfSchema(asm, l.tables[ASSEMBLY_REF].columns, ASSEMBLY_REF_NAME);
      var names := NamesIn(asm, ASSEMBLY_REF_NAME);
      match TableRows(l, MODULE_REF)
      case Err(e) => Walk(names, Some(e))
      case Ok(mods) =>
        StringColumnOfSchema(mods, l.tables[MODULE_REF].columns, MODULE_REF_NAME);
        Walk(names + NamesIn(mods, MODULE_REF_NAME), None)
  }

  /** `SetAssemblyReferences`: nothing for an image without a CLI header or
      metadata; otherwise the name of every AssemblyRef row, then the name of
      every ModuleRef row. The list is set before it is filled, so a failure
      leaves behind the names appended before it. */
  function AssemblyReferenceWalk(data: seq<Byte>, img: Image): (w: Walk<NetString>)
  {
    if img.NotPe? || img.corHeader.None? then Walk([], None)
    else
      match U32(data, img.corHeader.value + 8)
      case Err(e) => Walk([], Some(e))
      case Ok(rva) =>
        if rva == 0 then Walk([], None)
        else MetaDataWalk(data, img.headers, rva)
  }

  /** The names read from the metadata at RVA `rva`. */
  function MetaDataWalk(data: seq<Byte>, h: Headers, rva: nat): (w: Walk<NetString>)
  {
    match MetaDataLayout(data, h, rva)
    case Err(e) => Walk([], Some(e))
    case Ok(l) => NameWalk(l)
  }

  /** An image that is not a CLI image, or whose metadata RVA is zero, has
      no assembly references and reading them does not fail. */
  lemma NoMetadataNoReferences(data: seq<Byte>, img: Image)
    requires img.NotPe? || img.corHeader.None?
             || (img.corHeader.value + 12 <= |data| && DWord(data, img.corHeader.value + 8) == 0)
    ensures AssemblyReferenceWalk(data, img) == Walk([], None)
  {
  }

  /** The names of a laid-out table stream are the AssemblyRef names, one
      per row in row order, followed by the ModuleRef names, one per row in
      row order. */
  lemma NameWalkInRowOrder(l: Layout)
    requires NameColumns(l)
    requires TableRows(l, ASSEMBLY_REF).Ok? && TableRows(l, MODULE_REF).Ok?
    ensures var asm := TableRows(l, ASSEMBLY_REF).value;
      var mods := TableRows(l, MODULE_REF).value;
      StringColumn(asm, ASSEMBLY_REF_NAME) && StringColumn(mods, MODULE_REF_NAME)
    ensures var asm := TableRows(l, ASSEMBLY_REF).value;
      var mods := TableRows(l, MODULE_REF).value;
      NameWalk(l) == Walk(NamesIn(asm, ASSEMBLY_REF_NAME) + NamesIn(mods, MODULE_REF_NAME), None)
  {
    var asm := TableRows(l, ASSEMBLY_REF).value;
    var mods := TableRows(l, MODULE_REF).value;
    StringColumnOfSchema(asm, l.tables[ASSEMBLY_REF].columns, ASSEMBLY_REF_NAME);
    StringColumnOfSchema(mods, l.tables[MODULE_REF].columns, MODULE_REF_NAME);
  }

  /** When the ModuleRef rows cannot be read, the walk stops with that
      failure and keeps the AssemblyRef names already appended. */
  lemma NameWalkKeepsAssemblyNames(l: Layout)
    requires NameColumns(l)
    requires TableRows(l, ASSEMBLY_REF).Ok? && TableRows(l, MODULE_REF).Err?
    ensures StringColumn(TableRows(l, ASSEMBLY_REF).value, ASSEMBLY_REF_NAME)
    ensures NameWalk(l) == Walk(NamesIn(TableRows(l, ASSEMBLY_REF).value, ASSEMBLY_REF_NAME),
                                Some(TableRows(l, MODULE_REF).error))
  {
    StringColumnOfSchema(TableRows(l, ASSEMBLY_REF).value, l.tables[ASSEMBLY_REF].columns, ASSEMBLY_REF_NAME);
  }

  /** An image with metadata reads its references from the metadata at
      the RVA its CLI header gives. */
  lemma ReferencesFromMetaData(data: seq<Byte>, img: Image)
    requires img.Pe? && img.corHeader.Some?
    requires U32(data, img.corHeader.value + 8).Ok? && U32(data, img.corHeader.value + 8).value != 0
    ensures AssemblyReferenceWalk(data, img) == MetaDataWalk(data, img.headers, U32(data, img.corHeader.value + 8).value)
  {
  }

  /** The constructor of `MDTables` on the table stream at file offset
      `off`: tables whose rows are those of the layout `LayoutAt` describes. */
  method ReadTables(md: MetaData, off: nat) returns (r: Result<MDTables>)
    ensures r.Ok? <==> LayoutAt(md, off).Ok?
    ensures r.Err? ==> LayoutAt(md, off) == Err(r.error)
    ensures r.Ok? ==>
      var l := LayoutAt(md, off).value;
      && fresh(r.value) && |r.value.tables| == NB_TABLES
      && (forall k :: 0 <= k < NB_TABLES ==>
            && fresh(r.value.tables[k]) && r.value.tables[k].Valid()
            && r.value.tables[k].RowsSpec() == TableRows(l, k))
  {
    var bs := new ByteStream(md.data, off);
    var header :- ReadMetaDataTableHeader(bs);
    ghost var s := SizesOf(header);
    ghost var layout := TableLayoutFrom(s, 0, bs.p, []);
    var mdTables :- MDTables.Create(md, header, bs);
    assert LayoutAt(md, off) == Ok(Layout(md, s, layout.value));
    forall k | 0 <= k < NB_TABLES
      ensures mdTables.tables[k].RowsSpec() == TableRows(Layout(md, s, layout.value), k)
    {
      assert mdTables.tables[k].info == layout.value[k];
    }
    r := Ok(mdTables);
  }

  /** The constructor of `MDTables` at the metadata RVA. */
  method ReadLayout(data: seq<Byte>, h: Headers, rva: nat) returns (r: Result<MDTables>)
    ensures r.Ok? <==> MetaDataLayout(data, h, rva).Ok?
    ensures r.Err? ==> MetaDataLayout(data, h, rva) == Err(r.error)
    ensures r.Ok? ==>
      var l := MetaDataLayout(data, h, rva).value;
      && fresh(r.value) && |r.value.tables| == NB_TABLES
      && (forall k :: 0 <= k < NB_TABLES ==>
            && fresh(r.value.tables[k]) && r.value.tables[k].Valid()
            && r.value.tables[k].RowsSpec() == TableRows(l, k))
  {
    var root :- Rva2Offset(data, h, rva);
    var md :- ReadMetaData(data, root);
    if md.streams.tables.None? {
      return Err(NullReference);
    }
    r := ReadTables(md, TableStreamOffset(root, md));
  }

  // ---------------------------------------------------------------------
  // The reader

  /** `DllReader`: the file's bytes, what its constructor located, and the
      two lists it memoises (`None` until first asked for). */
  class DllReader {
    const data: seq<Byte>
    const image: Image
    var dllDependencies: Option<seq<DllDependency>>
    var assemblyReferences: Option<seq<NetString>>

    /** A memoised list is what the first walk appended, whether or not
        that walk ran to its end. */
    predicate Valid()
      reads this
    {
      && (dllDependencies.Some? ==> dllDependencies.value == DllDependencyWalk(data, image).items)
      && (assemblyReferences.Some? ==> assemblyReferences.value == AssemblyReferenceWalk(data, image).items)
    }

    constructor (data: seq<Byte>, image: Image)
      ensures this.data == data && this.image == image
      ensures dllDependencies == None && assemblyReferences == None
      ensures Valid()
    {
      this.data := data;
      this.image := image;
      dllDependencies := None;
      assemblyReferences := None;
    }

    /** The constructor: the flags are ORed together as the headers are
        located; a file without the "MZ" or "PE\0\0" signature is kept with
        no flags. */
    static method Open(data: seq<Byte>) returns (r: Result<DllReader>)
      ensures r.Ok? <==> ReadImage(data).Ok?
      ensures r.Err? ==> ReadImage(data) == Err(r.error)
      ensures r.Ok? ==> && fresh(r.value) && r.value.Valid()
                        && r.value.data == data && r.value.image == ReadImage(data).value
                        && r.value.dllDependencies == None && r.value.assemblyReferences == None
    {
      var img :- ReadHeaders(data);
      var reader := new DllReader(data, img);
      r := Ok(reader);
    }

    /** One descriptor loop of `SetDllDependencies`: appends a dependency
        of the given kind for every descriptor of data directory `dir` up to
        the terminating one, and reports the failure that stopped it, if
        any. */
    method AppendDescriptors(dir: nat, kind: DescriptorKind) returns (failure: Option<Error>)
      requires image.Pe? && dllDependencies.Some? && kind.stride > 0
      modifies this
      ensures var w := DirectoryWalk(data, image.headers, dir, kind);
        dllDependencies == Some(old(dllDependencies.value) + w.items) && failure == w.failure
      ensures assemblyReferences == old(assemblyReferences)
    {
      var h := image.headers;
      assert dllDependencies.value + [] == dllDependencies.value;
      var rva := DirectoryRva(data, h, dir);
      if rva.Err? {
        return Some(rva.error);
      }
      if rva.value == 0 {
        return None;
      }
      var start := Rva2Offset(data, h, rva.value);
      if start.Err? {
        return Some(start.error);
      }
      failure := AppendFrom(start.value, kind);
    }

    /** The loop of `AppendDescriptors` from the descriptor at file offset
        `desc` on. */
    method AppendFrom(desc: nat, kind: DescriptorKind) returns (failure: Option<Error>)
      requires image.Pe? && dllDependencies.Some? && kind.stride > 0
      modifies this
      ensures var w := DescriptorWalk(data, image.headers, desc, kind);
        dllDependencies == Some(old(dllDependencies.value) + w.items) && failure == w.failure
      ensures assemblyReferences == old(assemblyReferences)
    {
      var h := image.headers;
      var p := desc;
      ghost var target := old(dllDependencies.value) + DescriptorWalk(data, h, desc, kind).items;
      while true
        invariant dllDependencies.Some?
        invariant dllDependencies.value + DescriptorWalk(data, h, p, kind).items == target
        invariant DescriptorWalk(data, h, p, kind).failure == DescriptorWalk(data, h, desc, kind).failure
        invariant assemblyReferences == old(assemblyReferences)
        decreases |data| - p
      {
        var first := U32(data, p);
        if first.Err? {
          assert dllDependencies.value + [] == dllDependencies.value;
          return Some(first.error);
        }
        if first.value == 0 {
          assert dllDependencies.value + [] == dllDependencies.value;
          return None;
        }
        var dep := DependencyAt(data, h, p, kind);
        if dep.Err? {
          assert dllDependencies.value + [] == dllDependencies.value;
          return Some(dep.error);
        }
        ghost var rest := DescriptorWalk(data, h, p + kind.stride, kind).items;
        assert dllDependencies.value + ([dep.value] + rest) == (dllDependencies.value + [dep.value]) + rest;
        dllDependencies := Some(dllDependencies.value + [dep.value]);
        p := p + kind.stride;
      }
    }

    /** The `DllDependencies` property: the first call walks the import and
        delay-load descriptors; every later call returns the kept list, even
        when the first walk failed part way. */
    method DllDependencies() returns (r: Result<seq<DllDependency>>)
      requires Valid()
      modifies this
      ensures Valid()
      ensures old(dllDependencies).Some? ==> r == Ok(DllDependencyWalk(data, image).items)
      ensures old(dllDependencies).None? ==> r == DllDependencyWalk(data, image).AsResult()
      ensures dllDependencies == Some(DllDependencyWalk(data, image).items)
      ensures assemblyReferences == old(assemblyReferences)
    {
      if dllDependencies.Some? {
        return Ok(dllDependencies.value);
      }
      dllDependencies := Some([]);
      if image.NotPe? {
        return Err(NullReference);
      }
      var failure := AppendDescriptors(IMPORT, IMPORT_DESCRIPTORS);
      if failure.Some? {
        return Err(failure.value);
      }
      failure := AppendDescriptors(DELAY_IMPORT, DELAY_DESCRIPTORS);
      if failure.Some? {
        return Err(failure.value);
      }
      r := Ok(dllDependencies.value);
    }

    /** The `AssemblyReferences` property, memoised like `DllDependencies`. */
    method AssemblyReferences() returns (r: Result<seq<NetString>>)
      requires Valid()
      modifies this
      ensures Valid()
      ensures old(assemblyReferences).Some? ==> r == Ok(AssemblyReferenceWalk(data, image).items)
      ensures old(assemblyReferences).None? ==> r == AssemblyReferenceWalk(data, image).AsResult()
      ensures assemblyReferences == Some(AssemblyReferenceWalk(data, image).items)
      ensures dllDependencies == old(dllDependencies)
    {
      if assemblyReferences.Some? {
        return Ok(assemblyReferences.value);
      }
      assemblyReferences := Some([]);
      if image.NotPe? || image.corHeader.None? {
        return Ok([]);
      }
      var rvaMetaData :- U32(data, image.corHeader.value + 8);
      if rvaMetaData == 0 {
        return Ok([]);
      }
      ReferencesFromMetaData(data, image);
      var failure := AppendMetaDataNames(rvaMetaData);
      if failure.Some? {
        return Err(failure.value);
      }
      r := Ok(assemblyReferences.value);
    }

    /** The part of `SetAssemblyReferences` that reads the metadata at RVA
        `rva`. */
    method AppendMetaDataNames(rva: nat) returns (failure: Option<Error>)
      requires image.Pe? && assemblyReferences.Some?
      modifies this
      ensures var w := MetaDataWalk(data, image.headers, rva);
        assemblyReferences == Some(old(assemblyReferences.value) + w.items) && failure == w.failure
      ensures dllDependencies == old(dllDependencies)
    {
      assert assemblyReferences.value + [] == assemblyReferences.value;
      var mdTables := ReadLayout(data, image.headers, rva);
      if mdTables.Err? {
        return Some(mdTables.error);
      }
      ghost var l := MetaDataLayout(data, image.headers, rva).value;
      failure := AppendLayoutNames(mdTables.value, l);
    }

    /** The two name loops of `SetAssemblyReferences`, over tables whose
        rows are those of layout `l`. */
    method AppendLayoutNames(mdTables: MDTables, ghost l: Layout) returns (failure: Option<Error>)
      requires assemblyReferences.Some? && NameColumns(l) && |mdTables.tables| == NB_TABLES
      requires mdTables.tables[ASSEMBLY_REF].Valid() && mdTables.tables[ASSEMBLY_REF].RowsSpec() == TableRows(l, ASSEMBLY_REF)
      requires mdTables.tables[MODULE_REF].Valid() && mdTables.tables[MODULE_REF].RowsSpec() == TableRows(l, MODULE_REF)
      modifies this, mdTables.tables[ASSEMBLY_REF], mdTables.tables[MODULE_REF]
      ensures assemblyReferences == Some(old(assemblyReferences.value) + NameWalk(l).items)
      ensures failure == NameWalk(l).failure
      ensures dllDependencies == old(dllDependencies)
    {
      assert assemblyReferences.value + [] == assemblyReferences.value;
      var asm := mdTables.tables[ASSEMBLY_REF].Rows();
      if asm.Err? {
        return Some(asm.error);
      }
      assert asm.value == TableRows(l, ASSEMBLY_REF).value;
      StringColumnOfSchema(asm.value, l.tables[ASSEMBLY_REF].columns, ASSEMBLY_REF_NAME);
      AppendNames(asm.value, ASSEMBLY_REF_NAME);
      var mods := mdTables.tables[MODULE_REF].Rows();
      if mods.Err? {
        NameWalkKeepsAssemblyNames(l);
        return Some(mods.error);
      }
      assert mods.value == TableRows(l, MODULE_REF).value;
      NameWalkInRowOrder(l);
      ghost var before := old(assemblyReferences.value);
      ghost var names := NamesIn(asm.value, ASSEMBLY_REF_NAME);
      assert assemblyReferences.value == before + names;
      AppendNames(mods.value, MODULE_REF_NAME);
      Concatenation(before, names, NamesIn(mods.value, MODULE_REF_NAME));
      failure := None;
    }

    /** The loop of `SetAssemblyReferences` over one table: appends column
        `col` of every row, in row order. */
    method AppendNames(rows: seq<Row>, col: nat)
      requires assemblyReferences.Some? && StringColumn(rows, col)
      modifies this
      ensures assemblyReferences == Some(old(assemblyReferences.value) + NamesIn(rows, col))
      ensures dllDependencies == old(dllDependencies)
    {
      ghost var before := assemblyReferences.value;
      assert rows[..0] == [] && before + NamesIn([], col) == before;
      for i := 0 to |rows|
        invariant assemblyReferences == Some(before + NamesIn(rows[..i], col))
        invariant dllDependencies == old(dllDependencies)
      {
        assert rows[..i + 1] == rows[..i] + [rows[i]];
        assert before + NamesIn(rows[..i + 1], col) == before + NamesIn(rows[..i], col) + [rows[i][col].str];
        assemblyReferences := Some(assemblyReferences.value + [rows[i][col].str]);
      }
      assert rows[..|rows|] == rows;
    }

    /** `FindExport`, with its loop over the export name pointer array. */
    method FindExport(name: NetString) returns (r: Result<bool>)
      ensures r == Imports.FindExport(data, image, name)
    {
      if image.NotPe? {
        return Err(NullReference);
      }
      var h := image.headers;
      var rva :- DirectoryRva(data, h, EXPORT);
      if rva == 0 {
        return Ok(false);
      }
      var exportDir :- Rva2Offset(data, h, rva);
      var namesBase :- U32(data, exportDir + 32);
      if namesBase == 0 {
        return Ok(false);
      }
      var names :- Rva2Offset(data, h, namesBase);
      r := SearchExportNames(data, names, namesBase, DWord(data, exportDir + 24), name);
    }
  }

  /** The loop of `FindExport` over the `count` entries of the name pointer
      array at file offset `names`, whose own RVA is `namesBase`. */
  method SearchExportNames(data: seq<Byte>, names: nat, namesBase: nat, count: nat, name: NetString)
    returns (r: Result<bool>)
    ensures r == SearchNames(data, names, namesBase, count, name, 0)
  {
    var i := 0;
    while i < count
      invariant SearchNames(data, names, namesBase, count, name, i) == SearchNames(data, names, namesBase, count, name, 0)
      decreases count - i
    {
      var s :- ExportNameAt(data, names, namesBase, i);
      if EqualsIgnoreCase(s, name) {
        return Ok(true);
      }
      i := i + 1;
    }
    r := Ok(false);
  }
}
