/** The import tables and the export name table of a PE image, walked as
    `SetDllDependencies` and `FindExport` walk them (DllReader.cs).

    Both import tables are arrays of fixed-size descriptors ended by one
    whose first field is zero (Microsoft PE/COFF specification, ".idata
    Section" and "Delay-Load Import Tables"): 20-byte import directory
    entries with the name RVA at offset 12, and 32-byte delay-load
    descriptors with the name RVA at offset 4. */
module Imports {
  import opened Wrappers
  import opened Bytes
  import opened PeImage
  import opened Dependency

  /** The shape of a descriptor array and the counters each dependency it
      lists starts with. */
  datatype DescriptorKind = DescriptorKind(stride: nat, nameField: nat, nbRef: int, nbRefDelayed: int)

  /** 20-byte import directory entries, name RVA at offset 12: `(name, 1, 0)`. */
  const IMPORT_DESCRIPTORS := DescriptorKind(20, 12, 1, 0)
  /** 32-byte delay-load descriptors, name RVA at offset 4: `(name, 0, 1)`. */
  const DELAY_DESCRIPTORS := DescriptorKind(32, 4, 0, 1)

  /** A list built item by item that may stop on a failure: the items
      appended before it, and the failure if there was one. DllReader.cs sets
      its memoised list before walking, so a failed walk leaves these items
      behind. */
  datatype Walk<T> = Walk(items: seq<T>, failure: Option<Error>)
  {
    function AsResult(): (r: Result<seq<T>>)
      ensures r.Ok? <==> failure.None?
      ensures r.Ok? ==> r.value == items
    {
      if failure.None? then Ok(items) else Err(failure.value)
    }
  }

  /** The name of the DLL a descriptor at file offset `desc` imports: a
      zero-terminated string at the RVA stored in its name field. */
  function DescriptorName(data: seq<Byte>, h: Headers, desc: nat, nameField: nat): Result<NetString> {
    var rva :- U32(data, desc + nameField);
    var off :- Rva2Offset(data, h, rva);
    CString(data, off)
  }

  /** The dependency a descriptor at file offset `desc` names, with the
      counters of its kind. */
  function DependencyAt(data: seq<Byte>, h: Headers, desc: nat, kind: DescriptorKind): Result<DllDependency> {
    var name :- DescriptorName(data, h, desc, kind.nameField);
    Ok(NewDependency(name, kind.nbRef, kind.nbRefDelayed))
  }

  /** File offset of descriptor `k` of an array starting at `desc`. */
  function Nth(desc: nat, stride: nat, k: nat): nat
    decreases k
  {
    if k == 0 then desc else Nth(desc + stride, stride, k - 1)
  }

  /** The descriptor array starting at file offset `desc`, up to the first
      descriptor whose first field is zero: a dependency named by every
      descriptor before it, in table order. */
  function DescriptorWalk(data: seq<Byte>, h: Headers, desc: nat, kind: DescriptorKind): (w: Walk<DllDependency>)
    requires kind.stride > 0
    decreases |data| - desc
  {
    match U32(data, desc)
    case Err(e) => Walk([], Some(e))
    case Ok(first) =>
      if first == 0 then Walk([], None)
      else
        match DependencyAt(data, h, desc, kind)
        case Err(e) => Walk([], Some(e))
        case Ok(dep) =>
          var rest := DescriptorWalk(data, h, desc + kind.stride, kind);
          Walk([dep] + rest.items, rest.failure)
  }

  /** Descriptor `d` is one a walk lists as `dep`: its first field is not
      zero and it names `dep`. */
  predicate Listed(data: seq<Byte>, h: Headers, d: nat, kind: DescriptorKind, dep: DllDependency) {
    U32(data, d).Ok? && U32(data, d).value != 0 && DependencyAt(data, h, d, kind) == Ok(dep)
  }

  /** Item `k` of a walk is the dependency named by descriptor `k`, in
      table order. */
  lemma {:induction false} DescriptorWalkItems(data: seq<Byte>, h: Headers, desc: nat, kind: DescriptorKind)
    requires kind.stride > 0
    decreases |data| - desc
    ensures var w := DescriptorWalk(data, h, desc, kind);
      forall k :: 0 <= k < |w.items| ==> Listed(data, h, Nth(desc, kind.stride, k), kind, w.items[k])
  {
    var w := DescriptorWalk(data, h, desc, kind);
    if U32(data, desc).Ok? && U32(data, desc).value != 0 && DependencyAt(data, h, desc, kind).Ok? {
      var rest := DescriptorWalk(data, h, desc + kind.stride, kind);
      DescriptorWalkItems(data, h, desc + kind.stride, kind);
      assert w.items == [DependencyAt(data, h, desc, kind).value] + rest.items;
      forall k | 0 <= k < |w.items|
        ensures Listed(data, h, Nth(desc, kind.stride, k), kind, w.items[k])
      {
        if k > 0 {
          assert Nth(desc, kind.stride, k) == Nth(desc + kind.stride, kind.stride, k - 1);
          assert w.items[k] == rest.items[k - 1];
        }
      }
    }
  }

  /** A walk that ends without failure stops at the descriptor after its
      last item, whose first field is zero; one that fails stops there at a
      descriptor it could not read or whose name it could not read. */
  lemma {:induction false} DescriptorWalkEnd(data: seq<Byte>, h: Headers, desc: nat, kind: DescriptorKind)
    requires kind.stride > 0
    decreases |data| - desc
    ensures var w := DescriptorWalk(data, h, desc, kind);
      var d := Nth(desc, kind.stride, |w.items|);
      && (w.failure.None? ==> U32(data, d) == Ok(0))
      && (w.failure.Some? ==> U32(data, d).Err? || (U32(data, d).value != 0 && DependencyAt(data, h, d, kind).Err?))
  {
    var w := DescriptorWalk(data, h, desc, kind);
    if U32(data, desc).Ok? && U32(data, desc).value != 0 && DependencyAt(data, h, desc, kind).Ok? {
      var rest := DescriptorWalk(data, h, desc + kind.stride, kind);
      DescriptorWalkEnd(data, h, desc + kind.stride, kind);
      assert |w.items| == 1 + |rest.items| && w.failure == rest.failure;
      assert Nth(desc, kind.stride, |w.items|) == Nth(desc + kind.stride, kind.stride, |rest.items|);
    }
  }

  /** The descriptors of data directory `dir`: none when its RVA is zero. */
  function DirectoryWalk(data: seq<Byte>, h: Headers, dir: nat, kind: DescriptorKind): (w: Walk<DllDependency>)
    requires kind.stride > 0
  {
    match DirectoryRva(data, h, dir)
    case Err(e) => Walk([], Some(e))
    case Ok(rva) =>
      if rva == 0 then Walk([], None)
      else
        match Rva2Offset(data, h, rva)
        case Err(e) => Walk([], Some(e))
        case Ok(start) => DescriptorWalk(data, h, start, kind)
  }

  /** `SetDllDependencies`: the import descriptors, then the delay-load
      descriptors. An image that is not PE has no data directory to read. */
  function DllDependencyWalk(data: seq<Byte>, img: Image): (w: Walk<DllDependency>)
    ensures img.NotPe? ==> w == Walk([], Some(NullReference))
  {
    if img.NotPe? then Walk([], Some(NullReference))
    else
      var normal := DirectoryWalk(data, img.headers, IMPORT, IMPORT_DESCRIPTORS);
      if normal.failure.Some? then normal
      else
        var delayed := DirectoryWalk(data, img.headers, DELAY_IMPORT, DELAY_DESCRIPTORS);
        Walk(normal.items + delayed.items, delayed.failure)
  }

  /** Every dependency a walk lists carries the counters of its kind and no
      flags. */
  lemma {:induction false} DescriptorWalkCounters(data: seq<Byte>, h: Headers, desc: nat, kind: DescriptorKind)
    requires kind.stride > 0
    decreases |data| - desc
    ensures forall d :: d in DescriptorWalk(data, h, desc, kind).items ==>
              d.flags == {} && d.nbRef == kind.nbRef && d.nbRefDelayed == kind.nbRefDelayed
  {
    if U32(data, desc).Ok? && U32(data, desc).value != 0 && DependencyAt(data, h, desc, kind).Ok? {
      DescriptorWalkCounters(data, h, desc + kind.stride, kind);
    }
  }

  /** The list holds one `(name, 1, 0)` per import descriptor and then, once
      that table was read to its end, one `(name, 0, 1)` per delay-load
      descriptor, each in table order; it fails exactly when one of the two
      walks does. */
  lemma DllDependenciesInTableOrder(data: seq<Byte>, img: Image)
    requires img.Pe?
    ensures var w := DllDependencyWalk(data, img);
      var normal := DirectoryWalk(data, img.headers, IMPORT, IMPORT_DESCRIPTORS);
      var delayed := DirectoryWalk(data, img.headers, DELAY_IMPORT, DELAY_DESCRIPTORS);
      && (normal.failure.Some? ==> w == normal)
      && (normal.failure.None? ==> w.items == normal.items + delayed.items && w.failure == delayed.failure)
      && (forall d :: d in normal.items ==> d.flags == {} && d.nbRef == 1 && d.nbRefDelayed == 0)
      && (forall d :: d in delayed.items ==> d.flags == {} && d.nbRef == 0 && d.nbRefDelayed == 1)
  {
    var h := img.headers;
    var rva := DirectoryRva(data, h, IMPORT);
    if rva.Ok? && rva.value != 0 && Rva2Offset(data, h, rva.value).Ok? {
      DescriptorWalkCounters(data, h, Rva2Offset(data, h, rva.value).value, IMPORT_DESCRIPTORS);
    }
    var rva' := DirectoryRva(data, h, DELAY_IMPORT);
    if rva'.Ok? && rva'.value != 0 && Rva2Offset(data, h, rva'.value).Ok? {
      DescriptorWalkCounters(data, h, Rva2Offset(data, h, rva'.value).value, DELAY_DESCRIPTORS);
    }
  }

  /** Every dependency a walk lists is a direct one `(name, 1, 0)` or a
      delayed one `(name, 0, 1)`, without flags. */
  lemma DllDependencyWalkShapes(data: seq<Byte>, img: Image)
    ensures forall d :: d in DllDependencyWalk(data, img).items ==>
              d.flags == {} && ((d.nbRef == 1 && d.nbRefDelayed == 0) || (d.nbRef == 0 && d.nbRefDelayed == 1))
  {
    if img.Pe? {
      DllDependenciesInTableOrder(data, img);
    }
  }

  // ---------------------------------------------------------------------
  // Export names

  /** The loop of `FindExport` from name `i` on: entry `i` of the name
      pointer array at file offset `arr` holds an RVA, which DllReader.cs turns
      into a file offset relative to the array's own RVA `base` (32-bit
      subtraction) rather than through the section table. */
  function SearchNames(data: seq<Byte>, arr: nat, base: nat, count: nat, name: NetString, i: nat): (r: Result<bool>)
    decreases count - i
    ensures r == Ok(true) ==> exists k :: i <= k < count && ExportNameAt(data, arr, base, k).Ok?
                                && EqualsIgnoreCase(ExportNameAt(data, arr, base, k).value, name)
    ensures r == Ok(false) ==> forall k :: i <= k < count ==>
              ExportNameAt(data, arr, base, k).Ok? && !EqualsIgnoreCase(ExportNameAt(data, arr, base, k).value, name)
    // a failure comes from a name that cannot be read, before any match
    ensures r.Err? ==> exists k :: i <= k < count && ExportNameAt(data, arr, base, k).Err?
                          && r.error == ExportNameAt(data, arr, base, k).error
                          && forall j :: i <= j < k ==>
                               ExportNameAt(data, arr, base, j).Ok? && !EqualsIgnoreCase(ExportNameAt(data, arr, base, j).value, name)
  {
    if i >= count then Ok(false)
    else
      var s :- ExportNameAt(data, arr, base, i);
      if EqualsIgnoreCase(s, name) then Ok(true)
      else SearchNames(data, arr, base, count, name, i + 1)
  }

  /** Over a name array whose names can all be read, the search answers
      exactly whether one of them equals `name` ignoring case. */
  lemma SearchNamesExact(data: seq<Byte>, arr: nat, base: nat, count: nat, name: NetString, i: nat)
    requires forall k :: i <= k < count ==> ExportNameAt(data, arr, base, k).Ok?
    ensures SearchNames(data, arr, base, count, name, i)
            == Ok(exists k :: i <= k < count && EqualsIgnoreCase(ExportNameAt(data, arr, base, k).value, name))
  {
    var r := SearchNames(data, arr, base, count, name, i);
    var found := exists k :: i <= k < count && EqualsIgnoreCase(ExportNameAt(data, arr, base, k).value, name);
    if r.Ok? && r.value {
      var k :| i <= k < count && ExportNameAt(data, arr, base, k).Ok?
               && EqualsIgnoreCase(ExportNameAt(data, arr, base, k).value, name);
      assert found;
    } else if r.Ok? {
      assert !found;
    } else {
      assert false;
    }
  }

  /** The `k`-th exported name. */
  function ExportNameAt(data: seq<Byte>, arr: nat, base: nat, k: nat): Result<NetString> {
    var nameRva :- U32(data, arr + 4 * k);
    CString(data, arr + (nameRva - base) % TWO_32)
  }

  /** `FindExport`: whether the export directory names `name`, ignoring
      case. No export directory, or no name array, means no. The directory's
      NumberOfNames is at offset 24 and AddressOfNames at offset 32. */
  function FindExport(data: seq<Byte>, img: Image, name: NetString): (r: Result<bool>)
    ensures img.NotPe? ==> r == Err(NullReference)
    // no export directory: not found, without failure
    ensures img.Pe? && DirectoryRva(data, img.headers, EXPORT) == Ok(0) ==> r == Ok(false)
    ensures img.Pe? && DirectoryRva(data, img.headers, EXPORT).Ok? && DirectoryRva(data, img.headers, EXPORT).value != 0
            && Rva2Offset(data, img.headers, DirectoryRva(data, img.headers, EXPORT).value).Ok? ==>
              var dir := Rva2Offset(data, img.headers, DirectoryRva(data, img.headers, EXPORT).value).value;
              // no name array: not found, without failure
              && (U32(data, dir + 32) == Ok(0) ==> r == Ok(false))
              // otherwise the NumberOfNames names of the array are searched
              && (U32(data, dir + 32).Ok? && U32(data, dir + 32).value != 0
                  && Rva2Offset(data, img.headers, U32(data, dir + 32).value).Ok? ==>
                    r == SearchNames(data, Rva2Offset(data, img.headers, U32(data, dir + 32).value).value,
                                     U32(data, dir + 32).value, DWord(data, dir + 24), name, 0))
  {
    if img.NotPe? then Err(NullReference)
    else
      var h := img.headers;
      var rva :- DirectoryRva(data, h, EXPORT);
      if rva == 0 then Ok(false)
      else
        var exportDir :- Rva2Offset(data, h, rva);
        var base :- U32(data, exportDir + 32);
        if base == 0 then Ok(false)
        else
          var arr :- Rva2Offset(data, h, base);
          SearchNames(data, arr, base, DWord(data, exportDir + 24), name, 0)
  }
}
