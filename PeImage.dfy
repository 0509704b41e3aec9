/** The PE/COFF headers of an image and the translation of relative virtual
    addresses (RVAs) to file offsets, as the `DllReader` constructor and
    `Rva2Offset` compute them (DllReader.cs).

    Layout follows the Microsoft PE/COFF specification: the MS-DOS stub holds
    `e_lfanew` at offset 60, the "PE\0\0" signature and the 20-byte COFF file
    header make up 24 bytes, the optional header's data directory starts 96
    bytes (PE32) or 112 bytes (PE32+) into it, and the section table follows
    the optional header, 40 bytes per section. */
module PeImage {
  import opened Wrappers
  import opened Bytes

  const IMAGE_DOS_SIGNATURE: nat := 0x5A4D            // "MZ"
  const IMAGE_NT_SIGNATURE: nat := 0x0000_4550        // "PE\0\0"
  const IMAGE_FILE_32BIT_MACHINE: nat := 0x0100
  const IMAGE_FILE_DLL: nat := 0x2000
  const IMAGE_NT_OPTIONAL_HDR32_MAGIC: nat := 0x10B

  /** `FileImageFlags`. */
  const IS_EXE: nat := 0x01
  const IS_DLL: nat := 0x02
  const IS_32_BITS: nat := 0x04
  const IS_64_BITS: nat := 0x08
  const IS_CLR: nat := 0x10

  /** Data directory indices. */
  const EXPORT: nat := 0
  const IMPORT: nat := 1
  const RESOURCE: nat := 2
  const DELAY_IMPORT: nat := 13
  const COM_DESCRIPTOR: nat := 14

  /** `COMIMAGE_FLAGS_ILONLY` in the CLI header's flags. */
  const COMIMAGE_FLAGS_ILONLY: nat := 0x01

  /** File offsets of the structures the constructor locates. */
  datatype Headers = Headers(
    fileHeader: nat,       // the signature and COFF header (pPe)
    optionalHeader: nat,   // pPeOpt
    dataDirectory: nat,    // pDataDirectory
    sectionTable: nat)     // pSection

  /** What the constructor leaves behind: either a file it does not
      recognise (flags 0, nothing located) or a PE image with its flags and,
      for a CLI image, the file offset of the CLI header. */
  datatype Image =
    | NotPe
    | Pe(headers: Headers, flags: nat, corHeader: Option<nat>)
  {
    function Flags(): nat {
      if NotPe? then 0 else flags
    }
  }

  /** The RVA field of data directory entry `index`. */
  function DirectoryRva(data: seq<Byte>, h: Headers, index: nat): (r: Result<nat>)
    ensures r.Ok? <==> h.dataDirectory + 8 * index + 4 <= |data|
    ensures r.Ok? ==> r.value == DWord(data, h.dataDirectory + 8 * index)
  {
    U32(data, h.dataDirectory + 8 * index)
  }

  /** The flags the constructor ORs together: one of IsExe/IsDll, one of
      Is32Bits/Is64Bits, and IsClr. */
  function ImageFlags(characteristics: nat, clr: bool): (r: nat)
  {
    (if HasBit(characteristics, IMAGE_FILE_DLL) then IS_DLL else IS_EXE)
    + (if HasBit(characteristics, IMAGE_FILE_32BIT_MACHINE) then IS_32_BITS else IS_64_BITS)
    + (if clr then IS_CLR else 0)
  }

  /** The flags name exactly one image kind and exactly one word size, taken
      from the COFF characteristics, and IsClr exactly when asked; no other
      bit is set. */
  lemma ImageFlagsExact(characteristics: nat, clr: bool)
    ensures var f := ImageFlags(characteristics, clr);
      && (HasBit(f, IS_DLL) <==> HasBit(characteristics, IMAGE_FILE_DLL))
      && (HasBit(f, IS_EXE) <==> !HasBit(characteristics, IMAGE_FILE_DLL))
      && (HasBit(f, IS_32_BITS) <==> HasBit(characteristics, IMAGE_FILE_32BIT_MACHINE))
      && (HasBit(f, IS_64_BITS) <==> !HasBit(characteristics, IMAGE_FILE_32BIT_MACHINE))
      && (HasBit(f, IS_CLR) <==> clr)
      && f < 0x20
  {
    var dll := HasBit(characteristics, IMAGE_FILE_DLL);
    var w32 := HasBit(characteristics, IMAGE_FILE_32BIT_MACHINE);
    var f := ImageFlags(characteristics, clr);
    var a := if dll then IS_DLL else IS_EXE;
    var b := if w32 then IS_32_BITS else IS_64_BITS;
    var c := if clr then IS_CLR else 0;
    assert f == a + b + c;
    assert f / 1 == f && f / 2 == (a + b + c) / 2;
    if dll {
      assert f % 2 == 0 && (f / 2) % 2 == 1;
    } else {
      assert f % 2 == 1 && (f / 2) % 2 == 0;
    }
    if w32 {
      assert (f / 4) % 2 == 1 && (f / 8) % 2 == 0;
    } else {
      assert (f / 4) % 2 == 0 && (f / 8) % 2 == 1;
    }
  }

  /** The constructor, as a function of the file's bytes. A bad "MZ" or
      "PE\0\0" signature yields `NotPe` without failing; reading past the end
      of the file, or a CLI header whose RVA no section maps, fails. */
  function ReadImage(data: seq<Byte>): (r: Result<Image>)
    ensures U16(data, 0).Ok? && U16(data, 0).value != IMAGE_DOS_SIGNATURE ==> r == Ok(NotPe)
    // a good "MZ" and a bad "PE\0\0" give no flags and no failure either;
    // both signatures good give a PE image whenever it can be read
    ensures U16(data, 0) == Ok(IMAGE_DOS_SIGNATURE) && U32(data, 60).Ok? ==>
              var e := U32(data, 60).value;
              && (U32(data, e).Ok? && U32(data, e).value != IMAGE_NT_SIGNATURE ==> r == Ok(NotPe))
              && (U32(data, e) == Ok(IMAGE_NT_SIGNATURE) && r.Ok? ==> r.value.Pe?)
    ensures r.Ok? && r.value.Pe? ==>
      var h := r.value.headers;
      && 64 <= |data| && Word(data, 0) == IMAGE_DOS_SIGNATURE
      && h.fileHeader == DWord(data, 60)
      && h.fileHeader + 24 <= |data| && DWord(data, h.fileHeader) == IMAGE_NT_SIGNATURE
      && h.optionalHeader == h.fileHeader + 24 && h.optionalHeader + 2 <= |data|
      && h.dataDirectory == h.optionalHeader
           + (if Word(data, h.optionalHeader) == IMAGE_NT_OPTIONAL_HDR32_MAGIC then 96 else 112)
      && h.sectionTable == h.optionalHeader + Word(data, h.fileHeader + 20)
      && r.value.flags == ImageFlags(Word(data, h.fileHeader + 22), r.value.corHeader.Some?)
      && DirectoryRva(data, h, COM_DESCRIPTOR).Ok?
      && (r.value.corHeader.Some? <==> DirectoryRva(data, h, COM_DESCRIPTOR).value != 0)
      && (r.value.corHeader.Some? ==>
            Rva2Offset(data, h, DirectoryRva(data, h, COM_DESCRIPTOR).value) == Ok(r.value.corHeader.value))
  {
    var magic :- U16(data, 0);
    if magic != IMAGE_DOS_SIGNATURE then Ok(NotPe)
    else
      var lfanew :- U32(data, 60);
      var signature :- U32(data, lfanew);
      if signature != IMAGE_NT_SIGNATURE then Ok(NotPe)
      else
        var characteristics :- U16(data, lfanew + 22);
        var opt := lfanew + 24;
        var optMagic :- U16(data, opt);
        var dataDirectory := opt + if optMagic == IMAGE_NT_OPTIONAL_HDR32_MAGIC then 96 else 112;
        // SizeOfOptionalHeader sits before the two fields just read.
        var sizeOfOptionalHeader := Word(data, lfanew + 20);
        var h := Headers(lfanew, opt, dataDirectory, opt + sizeOfOptionalHeader);
        var cliHdrOff :- DirectoryRva(data, h, COM_DESCRIPTOR);
        if cliHdrOff == 0 then Ok(Pe(h, ImageFlags(characteristics, false), None))
        else
          var cor :- Rva2Offset(data, h, cliHdrOff);
          Ok(Pe(h, ImageFlags(characteristics, true), Some(cor)))
  }

  /** The header reads of the constructor, in the constructor's order, with
      the flags ORed together one at a time. */
  method ReadHeaders(data: seq<Byte>) returns (r: Result<Image>)
    ensures r == ReadImage(data)
  {
    var magic :- U16(data, 0);
    if magic != IMAGE_DOS_SIGNATURE {
      return Ok(NotPe);
    }
    var lfanew :- U32(data, 60);
    var signature :- U32(data, lfanew);
    if signature != IMAGE_NT_SIGNATURE {
      return Ok(NotPe);
    }
    var characteristics :- U16(data, lfanew + 22);
    var is32 := HasBit(characteristics, IMAGE_FILE_32BIT_MACHINE);
    var opt := lfanew + 24;
    var optMagic :- U16(data, opt);
    var dataDirectory := opt + if optMagic == IMAGE_NT_OPTIONAL_HDR32_MAGIC then 96 else 112;
    var flags := 0;
    flags := flags + if HasBit(characteristics, IMAGE_FILE_DLL) then IS_DLL else IS_EXE;
    flags := flags + if is32 then IS_32_BITS else IS_64_BITS;
    var h := Headers(lfanew, opt, dataDirectory, opt + Word(data, lfanew + 20));
    var cliHdrOff :- DirectoryRva(data, h, COM_DESCRIPTOR);
    var corHeader: Option<nat> := None;
    if cliHdrOff != 0 {
      flags := flags + IS_CLR;
      var cor :- Rva2Offset(data, h, cliHdrOff);
      corHeader := Some(cor);
    }
    assert flags == ImageFlags(characteristics, corHeader.Some?);
    r := Ok(Pe(h, flags, corHeader));
  }

  // ---------------------------------------------------------------------
  // Sections and RVA translation

  /** The three fields of section header `i` that RVA translation uses. */
  datatype Section = Section(virtualAddress: nat, sizeOfRawData: nat, pointerToRawData: nat)

  function SectionAt(data: seq<Byte>, h: Headers, i: nat): (r: Result<Section>)
    ensures r.Ok? <==> h.sectionTable + 40 * i + 24 <= |data|
  {
    var s := h.sectionTable + 40 * i;
    var va :- U32(data, s + 12);
    var size :- U32(data, s + 16);
    var ptr :- U32(data, s + 20);
    Ok(Section(va, size, ptr))
  }

  /** Whether a section maps `rva`; the end of the section is computed in
      32-bit arithmetic. */
  predicate Maps(s: Section, rva: nat) {
    s.virtualAddress <= rva && (s.virtualAddress + s.sizeOfRawData) % TWO_32 > rva
  }

  /** The file offset of `rva` inside a section that maps it, in 32-bit
      arithmetic. */
  function Translate(s: Section, rva: nat): nat
    requires s.virtualAddress <= rva
  {
    (s.pointerToRawData + (rva - s.virtualAddress)) % TWO_32
  }

  function NumberOfSections(data: seq<Byte>, h: Headers): Result<nat> {
    U16(data, h.fileHeader + 6)
  }

  /** The loop of `Rva2Offset` from section `i` on. A section's size is read
      only when its start does not exceed `rva`, and its raw-data pointer only
      when it maps `rva`, as DllReader.cs's short-circuit conditions do. */
  function ScanSections(data: seq<Byte>, h: Headers, rva: nat, n: nat, i: nat): (r: Result<nat>)
    decreases n - i
    ensures r.Ok? ==> r.value < TWO_32
  {
    if i >= n then Err(InvalidRva)
    else
      var s := h.sectionTable + 40 * i;
      var va :- U32(data, s + 12);
      if va <= rva then
        var size :- U32(data, s + 16);
        if (va + size) % TWO_32 > rva then
          var ptr :- U32(data, s + 20);
          Ok((ptr + (rva - va)) % TWO_32)
        else ScanSections(data, h, rva, n, i + 1)
      else ScanSections(data, h, rva, n, i + 1)
  }

  /** `Rva2Offset`: the translation through the first section, in table
      order, that maps `rva`; `InvalidRva` when none does. */
  function Rva2Offset(data: seq<Byte>, h: Headers, rva: nat): (r: Result<nat>)
    ensures r.Ok? ==> r.value < TWO_32
  {
    var n :- NumberOfSections(data, h);
    ScanSections(data, h, rva, n, 0)
  }

  /** A successful scan translated `rva` through a section from `i` on that
      maps it. */
  lemma {:induction false} ScanMatches(data: seq<Byte>, h: Headers, rva: nat, n: nat, i: nat)
    requires ScanSections(data, h, rva, n, i).Ok?
    decreases n - i
    ensures exists k: nat {:trigger SectionAt(data, h, k)} :: i <= k < n
              && SectionAt(data, h, k).Ok? && Maps(SectionAt(data, h, k).value, rva)
              && ScanSections(data, h, rva, n, i).value == Translate(SectionAt(data, h, k).value, rva)
  {
    var s := h.sectionTable + 40 * i;
    var va := U32(data, s + 12).value;
    if va <= rva && (va + U32(data, s + 16).value) % TWO_32 > rva {
      assert SectionAt(data, h, i) == Ok(Section(va, U32(data, s + 16).value, U32(data, s + 20).value));
    } else {
      ScanMatches(data, h, rva, n, i + 1);
    }
  }

  /** A successful translation went through a section that maps `rva`. */
  lemma Rva2OffsetMatches(data: seq<Byte>, h: Headers, rva: nat)
    requires Rva2Offset(data, h, rva).Ok?
    ensures exists k: nat {:trigger SectionAt(data, h, k)} ::
              NumberOfSections(data, h).Ok? && k < NumberOfSections(data, h).value
              && SectionAt(data, h, k).Ok? && Maps(SectionAt(data, h, k).value, rva)
              && Rva2Offset(data, h, rva).value == Translate(SectionAt(data, h, k).value, rva)
  {
    ScanMatches(data, h, rva, NumberOfSections(data, h).value, 0);
  }

  /** A section that maps `rva`, preceded only by sections that do not, is
      the one `Rva2Offset` translates through. */
  lemma {:induction false} ScanFindsFirst(data: seq<Byte>, h: Headers, rva: nat, n: nat, i: nat, k: nat)
    requires i <= k < n
    requires forall j :: i <= j < k ==> SectionAt(data, h, j).Ok? && !Maps(SectionAt(data, h, j).value, rva)
    requires SectionAt(data, h, k).Ok? && Maps(SectionAt(data, h, k).value, rva)
    ensures ScanSections(data, h, rva, n, i) == Ok(Translate(SectionAt(data, h, k).value, rva))
    decreases k - i
  {
    assert SectionAt(data, h, i).Ok?;
    if i < k {
      ScanFindsFirst(data, h, rva, n, i + 1, k);
    }
  }

  lemma Rva2OffsetFirstMatch(data: seq<Byte>, h: Headers, rva: nat, k: nat)
    requires NumberOfSections(data, h).Ok? && k < NumberOfSections(data, h).value
    requires forall j :: 0 <= j < k ==> SectionAt(data, h, j).Ok? && !Maps(SectionAt(data, h, j).value, rva)
    requires SectionAt(data, h, k).Ok? && Maps(SectionAt(data, h, k).value, rva)
    ensures Rva2Offset(data, h, rva) == Ok(Translate(SectionAt(data, h, k).value, rva))
  {
    ScanFindsFirst(data, h, rva, NumberOfSections(data, h).value, 0, k);
  }

  /** When every section header can be read and none maps `rva`, the
      translation fails with `InvalidRva`. */
  lemma {:induction false} ScanNoMatch(data: seq<Byte>, h: Headers, rva: nat, n: nat, i: nat)
    requires forall j :: i <= j < n ==> SectionAt(data, h, j).Ok? && !Maps(SectionAt(data, h, j).value, rva)
    ensures ScanSections(data, h, rva, n, i) == Err(InvalidRva)
    decreases n - i
  {
    if i < n {
      assert SectionAt(data, h, i).Ok?;
      ScanNoMatch(data, h, rva, n, i + 1);
    }
  }

  lemma Rva2OffsetNoMatch(data: seq<Byte>, h: Headers, rva: nat)
    requires NumberOfSections(data, h).Ok?
    requires forall j :: 0 <= j < NumberOfSections(data, h).value ==>
               SectionAt(data, h, j).Ok? && !Maps(SectionAt(data, h, j).value, rva)
    ensures Rva2Offset(data, h, rva) == Err(InvalidRva)
  {
    ScanNoMatch(data, h, rva, NumberOfSections(data, h).value, 0);
  }

  /** `IsPureClr`: a CLI header whose flags have ILONLY set. */
  function IsPureClr(data: seq<Byte>, img: Image): (r: Result<bool>)
    ensures img.NotPe? || img.corHeader.None? ==> r == Ok(false)
    ensures img.Pe? && img.corHeader.Some? ==>
              (r.Ok? <==> img.corHeader.value + 20 <= |data|)
              && (r.Ok? ==> (r.value <==> DWord(data, img.corHeader.value + 16) % 2 == 1))
  {
    if img.NotPe? || img.corHeader.None? then Ok(false)
    else
      var flag :- U32(data, img.corHeader.value + 16);
      Ok(HasBit(flag, COMIMAGE_FLAGS_ILONLY))
  }
}
