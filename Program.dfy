/** The command-line tool's recursive listing: starting from one file, every
    file it names (assembly references for a pure CLR assembly, imported
    DLLs for any other image) is opened in turn; a name whose file cannot be
    opened or read is kept apart as "unable". */
module Program {
  import opened Wrappers
  import opened Bytes
  import opened PeImage
  import opened Dependency
  import opened Imports
  import opened Reader

  const DLL_EXT: NetString := S(".dll")
  const PYD_EXT: NetString := S(".pyd")
  const EXE_EXT: NetString := S(".exe")

  /** The files the tool can open, by the name it opens them with. */
  type Files = map<NetString, seq<Byte>>

  predicate HasDllExt(name: NetString) {
    EndsWithIgnoreCase(name, DLL_EXT) || EndsWithIgnoreCase(name, PYD_EXT) || EndsWithIgnoreCase(name, EXE_EXT)
  }

  /** The file opened for a name: the name itself when it already ends in
      ".dll", ".pyd" or ".exe" (in any case), the name with ".dll" appended
      otherwise. */
  function FileNameFor(name: NetString): NetString {
    if HasDllExt(name) then name else name + DLL_EXT
  }

  lemma EndsWithItself(s: NetString, suffix: NetString)
    ensures EndsWithIgnoreCase(s + suffix, suffix)
  {
    assert (s + suffix)[|s + suffix| - |suffix|..] == suffix;
  }

  /** The file opened always carries one of the three extensions, so a name
      is extended at most once. */
  lemma FileNameHasExtension(name: NetString)
    ensures HasDllExt(FileNameFor(name))
    ensures FileNameFor(FileNameFor(name)) == FileNameFor(name)
    ensures HasDllExt(name) <==> FileNameFor(name) == name
  {
    if !HasDllExt(name) {
      EndsWithItself(name, DLL_EXT);
      assert |FileNameFor(name)| == |name| + 4;
    }
  }

  function Names(deps: seq<DllDependency>): (r: seq<NetString>)
    ensures |r| == |deps| && forall i :: 0 <= i < |r| ==> r[i] == deps[i].name
  {
    seq(|deps|, i requires 0 <= i < |deps| => deps[i].name)
  }

  /** The names one file leads to: its assembly references when the image
      is pure CLR, the names of its DLL dependencies otherwise; an error when
      reading the file fails. */
  function Children(data: seq<Byte>): Result<seq<NetString>> {
    var img :- ReadImage(data);
    var pure :- IsPureClr(data, img);
    if pure then AssemblyReferenceWalk(data, img).AsResult()
    else
      var deps :- DllDependencyWalk(data, img).AsResult();
      Ok(Names(deps))
  }

  /** The names reached from `name`, or the error that makes it "unable". */
  function Reached(files: Files, name: NetString): Result<seq<NetString>> {
    var file := FileNameFor(name);
    if file !in files then Err(FileNotFound) else Children(files[file])
  }

  /** A file without the DOS or PE signature is opened but has neither a CLI
      header nor an import directory: it is unable with a null reference. */
  lemma NotAnImageIsUnable(data: seq<Byte>)
    requires ReadImage(data) == Ok(NotPe)
    ensures Children(data) == Err(NullReference)
  {
    assert IsPureClr(data, NotPe) == Ok(false);
    assert DllDependencyWalk(data, NotPe).AsResult() == Err(NullReference);
  }

  /** Every name some file of `files` leads to. */
  ghost function AllNames(files: Files): set<NetString> {
    set f, c | f in files && Children(files[f]).Ok? && c in Children(files[f]).value :: c
  }

  /** `universe` holds every name any listing leads to. */
  ghost predicate Closed(files: Files, universe: set<NetString>) {
    forall n :: Reached(files, n).Ok? ==> forall c :: c in Reached(files, n).value ==> c in universe
  }

  lemma AllNamesClosed(files: Files)
    ensures Closed(files, AllNames(files))
  {
    forall n | Reached(files, n).Ok?
      ensures forall c :: c in Reached(files, n).value ==> c in AllNames(files)
    {
      var f := FileNameFor(n);
      assert f in files && Children(files[f]) == Reached(files, n);
    }
  }

  /** A name in the found set was read, and every name it leads to has been
      visited (found or unable). */
  ghost predicate Expanded(files: Files, found: set<NetString>, unable: set<NetString>, x: NetString) {
    Reached(files, x).Ok? && forall c :: c in Reached(files, x).value ==> c in found || c in unable
  }

  /** Reads the names one file leads to through a `DllReader`. */
  method ReadChildren(data: seq<Byte>) returns (r: Result<seq<NetString>>)
    ensures r == Children(data)
  {
    var reader :- DllReader.Open(data);
    var pure :- IsPureClr(reader.data, reader.image);
    if pure {
      r := reader.AssemblyReferences();
    } else {
      var deps :- reader.DllDependencies();
      r := Ok(Names(deps));
    }
  }

  /** The `try` block of `AddDependencies` up to its loops: the name is
      given the ".dll" extension unless it has one of the three, and the
      file is opened and listed. */
  method ReadNamed(files: Files, name: NetString) returns (r: Result<seq<NetString>>)
    ensures r == Reached(files, name)
  {
    var hasDllExt := EndsWithIgnoreCase(name, DLL_EXT) || EndsWithIgnoreCase(name, PYD_EXT)
                     || EndsWithIgnoreCase(name, EXE_EXT);
    var file := if hasDllExt then name else name + DLL_EXT;
    if file !in files {
      return Err(FileNotFound);
    }
    r := ReadChildren(files[file]);
  }

  /** What holds while `AddDependencies(name)` visits the children of
      `name`, against the sets `found0` and `unable0` it started from. */
  ghost predicate Visiting(files: Files, universe: set<NetString>, found0: set<NetString>, unable0: set<NetString>,
                           name: NetString, found: set<NetString>, unable: set<NetString>)
  {
    && found !! unable && name in found
    && found0 + {name} <= found && unable0 <= unable
    && found + unable <= found0 + unable0 + universe
    && (forall x :: x in found && x !in found0 && x != name ==> Expanded(files, found, unable, x))
    && (forall x :: x in unable && x !in unable0 ==> Reached(files, x).Err?)
  }

  /** One recursive call keeps `Visiting`: the names it adds are expanded
      or unreadable, and visiting more names keeps every expanded name
      expanded. */
  lemma VisitingGrows(files: Files, universe: set<NetString>, found0: set<NetString>, unable0: set<NetString>,
                      name: NetString, found: set<NetString>, unable: set<NetString>,
                      found': set<NetString>, unable': set<NetString>)
    requires Visiting(files, universe, found0, unable0, name, found, unable)
    requires found' !! unable' && found <= found' && unable <= unable'
    requires found' + unable' <= found + unable + universe
    requires forall x :: x in found' && x !in found ==> Expanded(files, found', unable', x)
    requires forall x :: x in unable' && x !in unable ==> Reached(files, x).Err?
    ensures Visiting(files, universe, found0, unable0, name, found', unable')
  {
    forall x | x in found' && x !in found0 && x != name
      ensures Expanded(files, found', unable', x)
    {
      if x in found {
        assert Expanded(files, found, unable, x);
      }
    }
  }

  /** Visiting child `i` keeps the children before it visited. */
  lemma ChildrenVisited(names: seq<NetString>, i: nat, found0: set<NetString>, unable0: set<NetString>,
                        found: set<NetString>, unable: set<NetString>)
    requires i < |names| && found0 <= found && unable0 <= unable
    requires forall j :: 0 <= j < i ==> names[j] in found0 || names[j] in unable0
    requires names[i] in found || names[i] in unable
    ensures forall j :: 0 <= j < i + 1 ==> names[j] in found || names[j] in unable
  {
  }

  /** The two sets `AddDependencies` fills: the names read so far (`p_Dict`)
      and the names that could not be read (`p_Unable`). */
  class Collector {
    const files: Files
    var found: set<NetString>
    var unable: set<NetString>

    constructor (files: Files)
      ensures this.files == files && found == {} && unable == {}
    {
      this.files := files;
      found := {};
      unable := {};
    }

    /** `AddDependencies`: a name already seen is skipped; otherwise it is
        added to the found set before its file is read, and its children are
        visited in turn. When reading fails the name moves to the unable set.
        `universe` bounds every name the recursion can reach. */
    method AddDependencies(name: NetString, ghost universe: set<NetString>)
      requires name in universe && Closed(files, universe) && found !! unable
      modifies this
      decreases universe - (found + unable)
      ensures found !! unable
      ensures old(found) <= found && old(unable) <= unable
      ensures found + unable <= old(found + unable) + universe
      ensures name in found || name in unable
      ensures name in old(found + unable) ==> found == old(found) && unable == old(unable)
      ensures name !in old(found + unable) ==> (name in unable <==> Reached(files, name).Err?)
      ensures forall x :: x in found && x !in old(found) ==> Expanded(files, found, unable, x)
      ensures forall x :: x in unable && x !in old(unable) ==> Reached(files, x).Err?
    {
      if name in found || name in unable {
        return;
      }
      found := found + {name};
      var children := ReadNamed(files, name);
      if children.Err? {
        found := found - {name};
        unable := unable + {name};
        return;
      }
      var names := children.value;
      for i := 0 to |names|
        invariant Visiting(files, universe, old(found), old(unable), name, found, unable)
        invariant forall j :: 0 <= j < i ==> names[j] in found || names[j] in unable
      {
        ghost var found0, unable0 := found, unable;
        AddDependencies(names[i], universe);
        VisitingGrows(files, universe, old(found), old(unable), name, found0, unable0, found, unable);
        ChildrenVisited(names, i, found0, unable0, found, unable);
      }
    }
  }

  /** The listing the tool prints, from its first call on the file named on
      the command line: the root is classified, every found name was read
      and everything it leads to is classified, every unable name failed to
      read, and nothing outside the root and the files' listings appears. */
  method Collect(files: Files, root: NetString) returns (found: set<NetString>, unable: set<NetString>)
    ensures found !! unable
    ensures root in found || root in unable
    ensures root in unable <==> Reached(files, root).Err?
    ensures forall x :: x in found ==> Expanded(files, found, unable, x)
    ensures forall x :: x in unable ==> Reached(files, x).Err?
    ensures forall x :: x in found + unable ==> x == root || x in AllNames(files)
  {
    var collector := new Collector(files);
    ghost var universe := AllNames(files) + {root};
    AllNamesClosed(files);
    collector.AddDependencies(root, universe);
    found, unable := collector.found, collector.unable;
  }
}
