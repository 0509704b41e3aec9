# ListDependencies in Dafny

A model of the core of ListDependencies, the Coveo tool that lists what a
Windows executable or DLL depends on. It covers:

- the `DllReader` class, which locates the PE/COFF headers of an image
  (`MZ` and `PE\0\0` signatures, image flags, data directories, section
  table) and translates RVAs to file offsets;
- the native import tables (`SetDllDependencies`) and the export name
  table (`FindExport`);
- the CLI metadata of a managed assembly: metadata root, stream headers,
  the `#~` table stream with its schema, column widths, rows and coded
  tokens (`MetaDataHeaders`, `MDTables`, `Table`, `Row`). Its
  AssemblyRef and ModuleRef names are the assembly references
  (`SetAssemblyReferences`);
- the resource tree and the `VS_VERSION_INFO` block
  (`ResourceDirEnum`, `ReadVersionInfo`, `ReadVersionFileInfo`);
- the `ByteStream` cursor;
- `DllDependency`, its flags and `SpecialDlls`;
- the recursive dependency resolver `ReadAllDependencies`;
- the command-line walk `Program.AddDependencies`.

A file is an immutable byte sequence. Every read past its end is an
`OutOfRange` failure, where DllReader.cs dereferences a raw pointer without
checking. Each exception the C# code throws is an `Err` of `Result`; the
message it carries becomes an `Error` kind.

The pure decoders are functions that return the value read and where the
cursor ends. The imperative parts are methods proved against them:

- the `ByteStream` cursor and its reads;
- the table stream, whose constructors advance a shared stream and whose
  `Rows` property fills a cache;
- the memoised dependency and reference lists of a `DllReader`, filled by
  loops;
- the resource enumerator and the version-info loops;
- the resolver's worklist;
- the two sets `AddDependencies` fills.

Modules, one per file:

- `Wrappers`: `Option`, `Result` and the error kinds.
- `Bytes`: little-endian fields, C strings, bit operations and ASCII case
  folding.
- `Streams`: the `ByteStream` cursor.
- `PeImage`: the constructor's header walk, `Rva2Offset` and `IsPureClr`.
- `Dependency`: `DllDependency`, `ComputeFlags` and `SpecialDlls`.
- `Imports`: the import, delay-load and export tables.
- `Metadata`: the metadata root and the header of `#~`.
- `TableStream`: the schema, column sizes, rows and `MDTables`.
- `Resources`: the resource tree and version info.
- `Reader`: the `DllReader` class, with its memoised lists.
- `Resolver`: `ReadAllDependencies`.
- `Program`: `AddDependencies`.

Where the code departs from what a reader of the format would expect, the
model follows the code:

- `DecodeInt32` masks the first byte of the four-byte form with `0x3F`,
  where ECMA-335 section II.23.2 keeps five bits. A first byte of the form
  `111xxxxx` is therefore read as a four-byte value that keeps bit 5.
- `ReadGuid` addresses `off - 1` bytes into the `#GUID` heap, not
  `(off - 1) * 16`.
- `ResourceDirEnum` enumerates only `NumberOfIdEntries`.
- `FindExport` turns a name RVA into a file offset relative to the name
  array's own RVA, in 32-bit arithmetic, rather than through the section
  table.
- The resolver's dictionary compares keys case-sensitively. Its edges
  always come from the import tables. A repeated reference counts as
  delayed when the importing parent is delayed.

The version resource is decoded by functions that follow the reader's
cursor step by step (`StringEntries`, `VersionTable`, `VersionTables`,
`VersionFileInfo`, and the directory walks `LanguageEntries`,
`NameEntries`, `TypeEntries`). What they decode is stated by round-trip
lemmas over a description of the bytes: a `Table` is a StringFileInfo
table (a LangId and a list of key/value pairs) or a VarFileInfo table, and
the predicates `EntriesEmbedded`, `TableEmbedded`, `TablesEmbedded` and
`BlockEmbedded` say field by field where each length word, name, key and
value lies, each string in its UTF-16 encoding padded to four bytes. The
lemmas then give the exact lines read: one `<key> -> <value>` line per
pair in order, the LangId line before them, the tables' lines in order,
and, for the tree, the blocks of the data entries in entry order under the
Version entries of the root only.

## Model

| member | source | states |
|---|---|---|
| Bytes.U16 | DllReader.cs:1123 | a 16-bit read succeeds exactly when two bytes remain, and is below 2^16 |
| Bytes.U32 | DllReader.cs:1124 | a 32-bit read succeeds exactly when four bytes remain, and is below 2^32 |
| Bytes.U64 | DllReader.cs:1125 | a 64-bit read succeeds exactly when eight bytes remain, and is below 2^64 |
| Bytes.WordRoundTrip | DllReader.cs:1123 | reading back a little-endian 16-bit encoding gives the value, whatever follows |
| Bytes.DWordRoundTrip | DllReader.cs:1124 | reading back a little-endian 32-bit encoding gives the value, whatever follows |
| Bytes.CString | DllReader.cs:1153 | a byte string is the bytes up to the first zero, none of them zero, and fails exactly when no zero follows |
| Bytes.WString | DllReader.cs:1146 | a UTF-16 string read is the code units up to a zero unit, none of them zero, and the zero unit lies in the file |
| Bytes.WStringFails | DllReader.cs:1144-1149 | reading a UTF-16 string fails exactly when no zero unit follows at an even distance before the end of the file |
| Bytes.WStringRoundTrip | DllReader.cs:1144-1149 | reading back the UTF-16 encoding of a string without zero units, followed by a zero unit, gives the string |
| Bytes.BitOrDisjoint | TableStream.cs:252 | OR-ing a value into the clear low bits of a shifted one is addition |
| Bytes.Align4 | DllReader.cs:1127-1136 | aligning gives the least multiple of four not below the offset |
| Streams.ByteAt | DllReader.cs:1122 | a byte read succeeds exactly when a byte remains, consumes it, and yields it (below 2^8) |
| Streams.UInt16At | DllReader.cs:1123 | a 16-bit read succeeds exactly when two bytes remain, consumes them, and yields their little-endian value (below 2^16) |
| Streams.UInt32At | DllReader.cs:1124 | a 32-bit read succeeds exactly when four bytes remain, consumes them, and yields their little-endian value (below 2^32) |
| Streams.UInt64At | DllReader.cs:1125 | a 64-bit read succeeds exactly when eight bytes remain, consumes them, and yields their little-endian value (below 2^64) |
| Streams.StringWithLenAt | DllReader.cs:1137-1142 | a length-prefixed string is the C string after the length, and the cursor moves past the length and the counted bytes |
| Streams.UnicodeStringAt | DllReader.cs:1144-1149 | a UTF-16 string consumes its units and its terminator, and fails exactly when the terminator is missing |
| Streams.ByteStringAt | DllReader.cs:1151-1163 | a byte string consumes its bytes and terminator, rounded up to four when aligned |
| Streams.BytesAt | DllReader.cs:1173-1178 | reading `len` bytes returns exactly the next `len` bytes |
| Streams.CompressedIntAt | DllReader.cs:1165-1171 | the first byte selects the 1-, 2- or 4-byte form and how far the cursor moves, a one-byte value is the byte itself, every value is below 2^30, and it fails exactly when the selected form runs past the end of the file |
| Streams.CompressedRoundTrip | DllReader.cs:1165-1171 | decoding the shortest compressed encoding of a value below 2^29 gives it back and consumes exactly the encoding |
| Streams.ByteStream.ReadByte | DllReader.cs:1122 | the byte at the cursor; the cursor moves one byte on success |
| Streams.ByteStream.ReadUInt16 | DllReader.cs:1123 | the 16-bit value at the cursor; the cursor moves two bytes |
| Streams.ByteStream.ReadUInt32 | DllReader.cs:1124 | the 32-bit value at the cursor; the cursor moves four bytes |
| Streams.ByteStream.ReadUInt64 | DllReader.cs:1125 | the 64-bit value at the cursor; the cursor moves eight bytes |
| Streams.ByteStream.Advance | DllReader.cs:1126 | returns the old cursor and moves it `nb` bytes |
| Streams.ByteStream.Align | DllReader.cs:1127-1136 | the cursor moves up to the next multiple of four |
| Streams.ByteStream.ReadStringWithLen | DllReader.cs:1137-1142 | the cursor read agrees with `StringWithLenAt` |
| Streams.ByteStream.ReadUnicodeString | DllReader.cs:1144-1149 | the cursor read agrees with `UnicodeStringAt` |
| Streams.ByteStream.ReadString | DllReader.cs:1151-1163 | the cursor read agrees with `ByteStringAt` |
| Streams.ByteStream.DecodeInt32 | DllReader.cs:1165-1171 | the cursor read agrees with `CompressedIntAt` |
| Streams.ByteStream.ReadBytes | DllReader.cs:1173-1178 | the cursor read agrees with `BytesAt` |
| PeImage.DirectoryRva | DllReader.cs:128-131 | the RVA of data directory `index` is the DWORD at 8*index into the directory array |
| PeImage.ImageFlagsExact | DllReader.cs:124-134 | the flags hold exactly one of IsExe/IsDll, decided by bit 0x2000, exactly one of Is32Bits/Is64Bits, decided by bit 0x0100, IsClr exactly when a CLI header was found, and no other bit |
| PeImage.ReadImage | DllReader.cs:97-136 | a wrong DOS signature, or a good one followed by a wrong "PE\0\0" signature, gives a file with no flags and no error; two good signatures give a PE image whenever it can be read; a PE image has its headers at e_lfanew, +24 for the optional header, +96 or +112 for the directories by the optional magic, the sections after SizeOfOptionalHeader bytes, its flags from the characteristics, and a CLI header exactly when directory 14 is non-zero, at the offset that RVA translates to |
| PeImage.ReadHeaders | DllReader.cs:97-136 | the constructor's reads, done one after the other with the flags ORed in one at a time, give exactly the image `ReadImage` describes, failing exactly when it fails |
| PeImage.SectionAt | DllReader.cs:372-374 | section header `i` is readable exactly when its first 24 bytes, the fields the translation reads, lie in the file |
| PeImage.Rva2Offset | DllReader.cs:370-379 | a translated offset is a 32-bit value |
| PeImage.Rva2OffsetMatches | DllReader.cs:373-375 | a successful translation went through a section that maps the RVA |
| PeImage.Rva2OffsetFirstMatch | DllReader.cs:373-375 | the first section that maps the RVA gives PointerToRawData + (rva - VirtualAddress), in 32 bits |
| PeImage.Rva2OffsetNoMatch | DllReader.cs:373-378 | when no section maps the RVA, translation fails with the invalid-RVA error |
| PeImage.IsPureClr | DllReader.cs:74-76 | false without a CLI header; otherwise true exactly when ILONLY is set in its flags |
| Dependency.NewDependency | DllReader.cs:1080-1085 | a new dependency has the given name and counters, and no flags |
| Dependency.IsIn | DllReader.cs:1429-1437 | membership holds exactly when some list entry equals the name ignoring case |
| Dependency.IsInIgnoresCase | DllReader.cs:1429-1437 | two names equal ignoring case are members of the same lists |
| Dependency.ComputeFlags | DllReader.cs:1087-1100 | IsWindows and IsMsvcrt are added exactly for listed names, IsDelayed exactly when there are delayed references and no direct ones, existing flags are kept and HasError is neither set nor cleared, counters and name unchanged |
| Dependency.ComputeFlagsIdempotent | DllReader.cs:1087-1100 | computing the flags a second time changes nothing |
| Imports.DescriptorWalkItems | DllReader.cs:176-188 | item `k` of a descriptor walk is the dependency named by descriptor `k`, whose first field is non-zero |
| Imports.DescriptorWalkEnd | DllReader.cs:178-181 | a walk that ends without failure stops at the first descriptor whose first field is zero |
| Imports.DllDependencyWalk | DllReader.cs:171-204 | a file that is not a PE image has no dependency list (null reference) |
| Imports.DescriptorWalkCounters | DllReader.cs:180-202 | every dependency a descriptor array lists has its kind's counters and no flags |
| Imports.DllDependenciesInTableOrder | DllReader.cs:171-204 | the list is the import descriptors as `(name, 1, 0)`, then, only if that walk finished, the delay-load descriptors as `(name, 0, 1)`, in table order, failing exactly when one walk fails |
| Imports.DllDependencyWalkShapes | DllReader.cs:186-200 | every listed dependency is `(name, 1, 0)` or `(name, 0, 1)` without flags |
| Imports.SearchNames | DllReader.cs:150-160 | true only when some exported name equals the name ignoring case; false only when every name could be read and none matches; a failure is the error of a name that cannot be read, with every name before it read and not matching |
| Imports.SearchNamesExact | DllReader.cs:150-160 | when every name can be read, the search answers exactly whether one of them equals the name ignoring case |
| Imports.FindExport | DllReader.cs:144-164 | a non-PE file has no export directory (null reference); a zero export RVA, or a zero AddressOfNames, gives false; otherwise the answer is the search over NumberOfNames names of the name array at AddressOfNames |
| Metadata.StorageSigAndHeaderAt | DllReader.cs:1259-1273 | a signature other than "BSJB" fails; a parsed header ends on a four-byte boundary at least 16 bytes on |
| Metadata.ReadStorageSigAndHeader | DllReader.cs:1259-1273 | the cursor read agrees with `StorageSigAndHeaderAt` |
| Metadata.MDStreamHeaderAt | DllReader.cs:1295-1300 | a stream header starts with its offset and size, then its aligned name |
| Metadata.ReadMDStreamHeader | DllReader.cs:1295-1300 | the cursor read agrees with `MDStreamHeaderAt` |
| Metadata.Assign | DllReader.cs:1206-1213 | a stream header is accepted exactly when its name is one of the five known ones, and filled slots keep their names |
| Metadata.AssignFiles | DllReader.cs:1206-1213 | a header with a known name goes into the slot of that name, and the other four slots keep what they held |
| Metadata.StreamHeadersNamed | DllReader.cs:1203-1214 | every slot filled by the header loop holds a header of that slot's name |
| Metadata.StreamHeadersKnownNames | DllReader.cs:1203-1214 | the header loop succeeds exactly when every header can be read and bears a known name |
| Metadata.StreamHeadersLast | DllReader.cs:1203-1214 | after the header loop each slot holds the last header read with its name, and keeps its earlier content when no header bears that name |
| Metadata.MetaData.ReadString | DllReader.cs:1225-1229 | an offset outside [0, Size] of `#Strings` fails; otherwise the C string at that offset in the heap |
| Metadata.MetaData.ReadBlob | DllReader.cs:1231-1235 | an offset outside [0, Size] of `#Blob` fails; otherwise the blob is exactly the bytes that follow its compressed length, as many as that length says |
| Metadata.MetaData.ReadGuid | DllReader.cs:1237-1242 | 0 is the empty GUID; an offset outside [1, Size/16] fails; otherwise the 16 bytes at `off - 1` |
| Metadata.MetaDataAt | DllReader.cs:1198-1215 | the metadata root keeps the file, the root offset and the storage header read there; each stream slot holds the last header of its name, or nothing when none was read; it succeeds exactly when the storage header and every stream header can be read and each stream header bears a known name |
| Metadata.ReadMetaData | DllReader.cs:1198-1215 | the constructor's reads agree with `MetaDataAt` |
| Metadata.ReadStreamHeaders | DllReader.cs:1206-1215 | the loop over `NumOfStreams` headers agrees with the recursive header reader, failing on the first short or unknown header |
| Metadata.TableLengthsLayout | DllReader.cs:1338-1341 | the lengths loop fails exactly when a set bit of MaskValid has no u32 left to read; otherwise it yields 64 values and consumes 4 bytes per set bit |
| Metadata.TableLengthsValues | DllReader.cs:1338-1341 | a clear bit of MaskValid gives length 0, a set bit the u32 at 4 times the number of lower set bits |
| Metadata.MetaDataTableHeaderAt | DllReader.cs:1325-1342 | the `#~` header has 64 table lengths and a byte of heap widths |
| Metadata.ReadMetaDataTableHeader | DllReader.cs:1325-1342 | the cursor read agrees with `MetaDataTableHeaderAt` |
| Metadata.ReadFixedTableHeader | DllReader.cs:1329-1335 | the seven fixed fields are read in order and the cursor ends past them, as the fixed-header function says |
| Metadata.ReadTableLengths | DllReader.cs:1338-1341 | the loop over the 64 bits agrees with the lengths function |
| TableStream.CodedTokenTypes | TableStream.cs:468-481 | exactly the 12 coded-token types 64 to 75 have a list of 2 to 19 tables, each a table of the schema or UserString |
| TableStream.CodedTokenBitsFit | TableStream.cs:465 | the tag width for `n` tables is the least `b` with 2^b >= n |
| TableStream.SizesOf | TableStream.cs:341-344 | the string, GUID and blob index widths are 4 exactly when bits 0x01, 0x02, 0x04 of HeapOffsetSizes are set |
| TableStream.NbRows | TableStream.cs:385-390 | the row count of a table is its entry in TableLengths; an index past the array fails |
| TableStream.MaxRowsIsMaximum | TableStream.cs:443-452 | the coded-token loop yields the largest row count among the referred tables, UserString excluded |
| TableStream.TypeSize | TableStream.cs:421-459 | UInt16 is 2 bytes and UInt32 4; a string, GUID or blob index is as wide as its heap index; a row index of table `t` is 2 bytes below 2^16 rows and 4 otherwise, failing past the length array; every known size is 2 or 4; a coded type needs a table list; any other type fails |
| TableStream.CodedTypeSize | TableStream.cs:439-456 | a coded token is 2 bytes exactly when the largest row count among its tables (UserString excluded), shifted left by its tag width in 32 bits, stays below 2^16, and 4 otherwise |
| TableStream.CodedTypeSizeKnown | TableStream.cs:439-456 | every coded-token type has a size once the row counts are known |
| TableStream.CodedTokenRoundTrip | TableStream.cs:257-266 | decoding `row << b \| tag` gives `(referredTables[tag] << 24) \| row`, since `ToToken(t, row - 1)` adds the 1 back |
| TableStream.ResolutionScopeExample | TableStream.cs:257-266 | ResolutionScope raw 0b1001 decodes to ModuleRef row 2 |
| TableStream.IndexAt | TableStream.cs:402 | a heap index is 2 bytes for a narrow heap and 4 otherwise |
| TableStream.ValueAt | TableStream.cs:238-269 | a cell fits its column type and consumes exactly `SizeOfType` bytes; a UInt16 or UInt32 cell holds the little-endian value at the offset; a string, GUID or blob cell holds that heap entry at its index; a type past the schema fails |
| TableStream.RidCellValue | TableStream.cs:250-253 | a row-index cell of table `t` holds `(t << 24) \| row`, where `row` is the 2- or 4-byte index the table's row count selects |
| TableStream.CodedCellRoundTrip | TableStream.cs:257-266 | a coded-token cell whose bytes encode row `row` of the table selected by `tag` reads as that table's token for the row, consuming the coded type's width |
| TableStream.RowFrom | TableStream.cs:212-221 | a row holds one cell per column, in column order, each fitting its type |
| TableStream.RowSpansRowSize | TableStream.cs:153-158 | a row read from an offset consumes exactly the row size the `Table` constructor computed |
| TableStream.RowsFrom | TableStream.cs:173-179 | the rows loop yields exactly `nbRows` rows, each fitting the table's columns |
| TableStream.TableInfoAt | TableStream.cs:144-159 | a table has its schema's columns, its row count, the sum of its column sizes as row size, and spans rowSize * nbRows in 32 bits |
| TableStream.TableLayoutFrom | TableStream.cs:348-351 | the constructor's loop lays out all 44 tables |
| TableStream.TablesInTypeOrder | TableStream.cs:348-351 | table `k` has type `k` and starts where table `k - 1` ends |
| TableStream.LayoutAlwaysSucceeds | TableStream.cs:348-351 | the layout cannot fail once every column type of the schema has a size |
| TableStream.RowSizeKnown | TableStream.cs:153-156 | the row size loop cannot fail once every column type has a size |
| TableStream.Table.Create | TableStream.cs:144-159 | the constructor succeeds exactly when `TableInfoAt` does, with the same error otherwise, and advances the stream past the table |
| TableStream.Table.Rows | TableStream.cs:169-182 | the rows are what reading from the data offset gives, cached after the first successful read |
| TableStream.ReadRow | TableStream.cs:212-221 | the cursor read agrees with `RowFrom` |
| TableStream.ReadValue | TableStream.cs:238-269 | the cursor read agrees with `ValueAt` |
| TableStream.MDTables.Create | TableStream.cs:337-352 | succeeds exactly when the table layout does, with one valid table per layout entry, in type order |
| TableStream.MDTables.SizeOfType | TableStream.cs:421-459 | the method, with its loop over the referred tables, agrees with `TypeSize` |
| Resources.OpenDirectory | DllReader.cs:935-945 | a directory is readable exactly when its 16-byte header lies in the file; its entry count is NumberOfIdEntries |
| Resources.OpenSubdirectory | DllReader.cs:946-952 | a child directory needs the high bit of the offset, and opens the low 31 bits one level down |
| Resources.DataEntry | DllReader.cs:960-966 | a data entry is returned only for an offset whose high bit is clear |
| Resources.PrefixAt | DllReader.cs:317-320 | the length word of a block, and the cursor moves six bytes |
| Resources.PrefixedStringAt | DllReader.cs:327-333 | the UTF-16 string after the 6-byte prefix, the cursor aligned to four after it |
| Resources.PrefixedRoundTrip | DllReader.cs:327-333 | a key laid out as a 6-byte prefix, its UTF-16 encoding and padding reads back as that key, the cursor landing on the next four-byte boundary |
| Resources.ValueRoundTrip | DllReader.cs:297-299 | a value laid out as its UTF-16 encoding and padding reads back as that value, and aligning lands past the padding |
| Resources.StringEntriesRoundTrip | DllReader.cs:296-300 | over pairs laid out one after the other up to the table's end, the pair loop appends exactly one `<key> -> <value>` line per pair, in order, and stops at the table's end |
| Resources.VersionTable | DllReader.cs:289-308 | a StringFileInfo table appends its LangId line first; VarFileInfo appends its name and skips tableLen - 30 bytes; any other name fails |
| Resources.StringTableRoundTrip | DllReader.cs:290-301 | a StringFileInfo table whose LangId reads back and whose pairs are laid out after it reads as the LangId line followed by one `<key> -> <value>` line per pair, in order, and ends where its length says |
| Resources.VarTableRoundTrip | DllReader.cs:302-305 | a VarFileInfo table reads as its name alone and ends where its length says |
| Resources.TableRoundTrip | DllReader.cs:285-308 | a table laid out at a four-byte boundary reads as its lines and ends after its own length |
| Resources.VersionTablesRoundTrip | DllReader.cs:284-309 | tables laid out one after the other up to the block's end read as the concatenation of their lines, in order |
| Resources.VersionFileInfo | DllReader.cs:274-310 | a block not named "VS_VERSION_INFO" fails; otherwise lines are only appended |
| Resources.VersionFileInfoRoundTrip | DllReader.cs:274-310 | a block laid out with the name VS_VERSION_INFO, the fixed file information and its tables reads as the concatenation of its tables' lines |
| Resources.LanguageEntriesBlocks | DllReader.cs:253-256 | a language directory yields the lines of the version blocks its data entries locate, at the file offset of each data entry's RVA, read in entry order |
| Resources.NameEntriesDirs | DllReader.cs:250-257 | a name directory yields the lines of the language directories its entries point to, in entry order |
| Resources.TypeEntriesVersionOnly | DllReader.cs:245-259 | when every root entry's name can be read, the walk descends exactly the entries named 16 (the Version type), in entry order |
| Resources.VersionTypesExact | DllReader.cs:247 | the entries selected are exactly those whose name is 16, in increasing order |
| Resources.VersionInfo | DllReader.cs:237-261 | a non-PE file has no resource directory (null reference) |
| Resources.VersionInfoFromRoot | DllReader.cs:237-261 | on a PE image, the lines are those of the name directories under the Version entries of the root found at the resource directory's RVA, in entry order |
| Resources.NoVersionTypeNoLines | DllReader.cs:245-247 | a root without a Version entry yields no lines |
| Resources.ResourceDirEnum.Open | DllReader.cs:935-945 | the enumerator opens exactly when `OpenDirectory` succeeds, at entry 0 |
| Resources.ResourceDirEnum.Child | DllReader.cs:946-952 | the child enumerator opens exactly when `OpenSubdirectory` succeeds |
| Resources.ResourceDirEnum.Next | DllReader.cs:953-959 | yields entry `i` while `i` < NumberOfIdEntries, then nothing; `i` always advances |
| Resources.ReadVersionFileInfo | DllReader.cs:274-310 | the cursor loops agree with `VersionFileInfo` |
| Resources.ReadVersionTable | DllReader.cs:289-308 | the cursor loop agrees with `VersionTable` |
| Resources.ReadStringEntries | DllReader.cs:296-300 | the cursor loop agrees with `StringEntries` |
| Resources.ReadLanguageEntries | DllReader.cs:253-256 | the enumerator loop agrees with `LanguageEntries` |
| Resources.ReadNameEntries | DllReader.cs:250-257 | the enumerator loop agrees with `NameEntries` |
| Resources.ReadTypeEntries | DllReader.cs:245-259 | the enumerator loop agrees with `TypeEntries` |
| Resources.ReadVersionInfo | DllReader.cs:237-261 | the three nested loops agree with `VersionInfo` |
| Resources.Read6Bytes | DllReader.cs:317-320 | the cursor read agrees with `PrefixAt` |
| Resources.ReadPrefixedString | DllReader.cs:327-333 | the cursor read agrees with `PrefixedStringAt` |
| Reader.LayoutAt | DllReader.cs:1218-1223 | the `#~` layout keeps the metadata, and its AssemblyRef and ModuleRef name columns are string columns |
| Reader.MetaDataLayout | DllReader.cs:221-223 | the metadata at an RVA is read from the same file, with the same name columns |
| Reader.TableRows | TableStream.cs:169-182 | a table's rows number exactly its row count and fit its columns |
| Reader.NamesIn | DllReader.cs:224-230 | one name per row, the row's string in the name column |
| Reader.NameColumnsAreStrings | TableStream.cs:509-518 | column 6 of AssemblyRef and column 0 of ModuleRef are `#Strings` columns |
| Reader.NoMetadataNoReferences | DllReader.cs:215-220 | without a CLI header, or with a zero metadata RVA, there are no references and no failure |
| Reader.NameWalkInRowOrder | DllReader.cs:224-230 | the references are the AssemblyRef names, then the ModuleRef names, in row order |
| Reader.NameWalkKeepsAssemblyNames | DllReader.cs:224-227 | when the ModuleRef rows cannot be read, the AssemblyRef names are kept and the failure reported |
| Reader.ReferencesFromMetaData | DllReader.cs:217-223 | with a non-zero metadata RVA the references are those of the metadata at that RVA |
| Reader.ReadTables | DllReader.cs:1218-1223 | the table stream opens exactly when its layout can be read, with every table's rows as `TableRows` gives |
| Reader.ReadLayout | DllReader.cs:221-223 | the metadata at an RVA opens exactly when `MetaDataLayout` succeeds, with the same error otherwise |
| Reader.DllReader.Open | DllReader.cs:97-136 | the reader opens exactly when the headers can be read, with no list computed yet |
| Reader.DllReader.AppendDescriptors | DllReader.cs:176-189 | the dependencies of one directory are appended in table order, and the walk's failure is returned |
| Reader.DllReader.AppendFrom | DllReader.cs:177-188 | the descriptor loop appends exactly the walk's items and returns its failure |
| Reader.DllReader.DllDependencies | DllReader.cs:171-204 | the first call returns the import walk, or its failure; later calls return the memoised list, even after a failed first walk |
| Reader.DllReader.AssemblyReferences | DllReader.cs:211-231 | the first call returns the reference walk, or its failure; later calls return the memoised list |
| Reader.DllReader.AppendMetaDataNames | DllReader.cs:221-230 | the names of the metadata at an RVA are appended, and its failure returned |
| Reader.DllReader.AppendLayoutNames | DllReader.cs:224-230 | the two row loops append the AssemblyRef and then the ModuleRef names |
| Reader.DllReader.AppendNames | DllReader.cs:224-226 | one row loop appends the name column of every row, in order |
| Reader.DllReader.FindExport | DllReader.cs:144-164 | the method agrees with the export search function |
| Reader.SearchExportNames | DllReader.cs:150-160 | the name loop agrees with `SearchNames` |
| Resolver.WithError | DllReader.cs:453 | only the error flag is added |
| Resolver.Visit | DllReader.cs:423-448 | an unresolved name is filed with an error the first time only and never queued; a known path gets one more reference, counted in NbRefDelayed when the parent is delayed and in NbRef otherwise; a new path is filed under it and queued unless delayed and not followed |
| Resolver.VisitAdvances | DllReader.cs:423-448 | one dependency only grows the dictionary, and the queue only gains new, distinct keys, so the unfiled paths plus the queue never grow |
| Resolver.VisitAllAdvances | DllReader.cs:421-449 | the same holds for all the dependencies of one file |
| Resolver.NodeStepAdvances | DllReader.cs:417-455 | reading one file, or failing to, keeps the same measure from growing |
| Resolver.VisitWellFormed | DllReader.cs:423-448 | every record stays filed under its own name, referenced at least once, and without error only if found |
| Resolver.VisitAllWellFormed | DllReader.cs:421-449 | the same holds for all the dependencies of one file |
| Resolver.NodeDependenciesImported | DllReader.cs:420-421 | the dependencies read from a file are `(name, 1, 0)` or `(name, 0, 1)` |
| Resolver.NodeStepWellFormed | DllReader.cs:417-455 | reading one file keeps every record well formed |
| Resolver.VisitAccounted | DllReader.cs:442-446 | every new key is queued, has an error, or is delayed and not followed |
| Resolver.VisitAllAccounted | DllReader.cs:421-449 | the same holds for all the dependencies of one file |
| Resolver.VisitAllKeys | DllReader.cs:421-449 | the dependencies of one file add exactly their own keys to the dictionary |
| Resolver.SourcedStep | DllReader.cs:417-455 | after a step every key is still a named file or a dependency of a file read |
| Resolver.NodeStepAccounted | DllReader.cs:417-455 | after a step every key is read, pending, in error, or delayed and not followed |
| Resolver.VisitAllFiles | DllReader.cs:421-449 | every dependency of a file read ends up filed |
| Resolver.NodeStepExpands | DllReader.cs:418-454 | a file read has an error, or all its dependencies filed |
| Resolver.OnceAfterStep | DllReader.cs:413-447 | no key is read twice, or pending after being read, unless it is one of the named files |
| Resolver.ReadNodeDependencies | DllReader.cs:420-421 | opening a path and reading its import tables agrees with `NodeDependencies` |
| Resolver.ProcessNode | DllReader.cs:418-454 | one iteration over `tmpToProcess` agrees with `NodeStep` |
| Resolver.VisitOne | DllReader.cs:422-448 | one dependency agrees with `Visit` |
| Resolver.ComputeAllFlags | DllReader.cs:458-462 | every record, and only those, has its flags computed |
| Resolver.FlagsClassify | DllReader.cs:458-462 | computed flags classify every record: Windows and MSVC runtime by list, delayed exactly when there are delayed references and no direct ones, and an error-free record is a found file |
| Resolver.SeedFiles | DllReader.cs:405-410 | a named file that cannot be found fails (null key); otherwise every named path is filed `(path, 1, 0)` and queued |
| Resolver.Round | DllReader.cs:413-456 | one round over the copied queue keeps the resolution invariant and never lets the measure grow |
| Resolver.StepAt | DllReader.cs:417-455 | one step of a round keeps the invariant, with the key read appended to those visited |
| Resolver.Step | DllReader.cs:417-455 | reading the first pending key keeps the invariant and advances |
| Resolver.ReadAllDependencies | DllReader.cs:399-466 | fails exactly when a named file cannot be found; otherwise every named path is a key, every key is a named path or a dependency of a file read, every record is classified, every file read is expanded, every key is read, in error, or delayed and not followed, and no key is read twice unless named twice |
| Program.FileNameHasExtension | Program.cs:103-107 | the file opened always ends in one of the three extensions, a name is extended at most once, and a name is kept exactly when it already has one |
| Program.NotAnImageIsUnable | Program.cs:108-116 | a file without the DOS or PE signature is unable, since it has no dependency list |
| Program.ReadChildren | Program.cs:107-117 | a pure CLR image yields its assembly reference names, any other image its DLL dependency names |
| Program.ReadNamed | Program.cs:103-107 | the file opened is the name or the name plus ".dll", and a missing file fails |
| Program.VisitingGrows | Program.cs:109-115 | a recursive call keeps every found name expanded and every unable name unreadable |
| Program.Collector.AddDependencies | Program.cs:94-122 | a seen name changes nothing; a new name ends in exactly one set, unable exactly when reading it fails; the sets stay disjoint and only grow; every name newly found was read and all its children visited |
| Program.Collect | Program.cs:52-54 | from the root, found and unable are disjoint, the root is in one, every found name's children are in one of them, every unable name fails to read, and nothing outside the root and the files' listings appears |

## Left out

- `MmfFile` (memory mapping) is not part of this model. A file is a byte sequence, and an out-of-range read is an `OutOfRange` failure instead of undefined memory access.
- `Util2.FindExistingFile` and the file system: the resolver takes a map from file name to full path (the first lookup directory holding it), and a map from path to file bytes; a missing path cannot be opened.
- `Program.Main`, `ResolveFileName`, the verbose printing and the `p_Level` indentation, `Close`/`Dispose`, every `ToString`, `GetTypeRefs` and `GetMemberRefs`: argument handling, console output, resource lifetime and presentation.
- `ReadResourceString` is never called by the modelled code.
- Text encoding: strings are UTF-16 code-unit sequences; `OrdinalIgnoreCase` and `InvariantCultureIgnoreCase` are both ASCII case folding.
- `MDGUID` holds 16 raw bytes instead of a `System.Guid`.
- Resolver.ReadAllDependencies: returns the dictionary rather than an array, so the order of the returned records is not modelled.
- Resolver.ReadAllDependencies: `NbRef` and `NbRefDelayed` are unbounded integers; 32-bit overflow of the counters is not modelled.
- Resolver.ReadAllDependencies: records are values filed by key. When the same file is named twice, DllReader.cs queues two objects sharing one key. Only the second is in the dictionary, and reading the first updates that one. Filing by key gives the same dictionary, because no record is delayed in the first round.
- Resources.VersionTable: its own contract states the LangId line, the VarFileInfo case and the unknown-name error; the pair lines are stated by `StringTableRoundTrip` for tables laid out as `EntriesEmbedded` describes.
- Resources.VersionFileInfo: its own contract states the VS_VERSION_INFO check; the lines read are stated by `VersionFileInfoRoundTrip` for blocks laid out as `BlockEmbedded` describes.
- Resources.VersionInfo: its own contract states the non-PE case; the walk from the root is stated by `VersionInfoFromRoot`, which assumes every root entry's name can be read.
- Resources.StringEntriesRoundTrip: the round trips cover bytes that a layout describes, with keys, values and the LangId free of zero code units; bytes the reader accepts that no layout describes (a table length that ends inside a string, say) are covered only by the step-by-step functions.
- Resources.ResourceDirEnum.Next: the entry pointer `pEntry` is derived from the index `i` instead of being a separate field.
- TableStream.Table.Rows: TableStream.cs keeps a partly filled row array when a row fails to read; here a failed read leaves the cache empty.
- Program.Collect: states that every collected name is the root or named by some file, not that it is reachable from the root.
- Program.Collector.AddDependencies: a stack overflow on very deep dependency chains is not modelled.
