/** A DLL an image depends on (`DllDependency`), its classification flags
    (`DllFlags`) and the lists of well-known system DLLs (`SpecialDlls`),
    DllReader.cs. */
module Dependency {
  import opened Bytes

  /** `DllFlags`: IsDelayed = 1, IsWindows = 2, IsMsvcrt = 4, HasError = 8.
      A flags value is the set of its bits; OR-ing a bit in is a union. */
  datatype DllFlag = IsDelayed | IsWindows | IsMsvcrt | HasError

  /** A dependency: its name (a bare file name as imported, or a full path
      once resolved), its flags, and how many importers reference it directly
      (`nbRef`) or through a delay-load descriptor (`nbRefDelayed`). */
  datatype DllDependency = DllDependency(name: NetString, flags: set<DllFlag>, nbRef: int, nbRefDelayed: int)
  {
    /** The `IsDelayed` property: referenced at least once through a
        delay-load descriptor (not the IsDelayed flag). */
    predicate Delayed() {
      nbRefDelayed != 0
    }
  }

  /** `new DllDependency(name, nbRef, nbRefDelayed)`: no flags yet. */
  function NewDependency(name: NetString, nbRef: int, nbRefDelayed: int): (d: DllDependency)
    ensures d.name == name && d.flags == {} && d.nbRef == nbRef && d.nbRefDelayed == nbRefDelayed
  {
    DllDependency(name, {}, nbRef, nbRefDelayed)
  }

  const WINDOWS_DLLS: seq<NetString> := [
    S("activeds.dll"), S("advapi32.dll"), S("comdlg32.dll"), S("crypt32.dll"),
    S("dbghelp.dll"), S("gdi32.dll"), S("gdiplus.dll"), S("kernel32.dll"),
    S("mpr.dll"), S("msi.dll"), S("mswsock.dll"), S("netapi32.dll"),
    S("odbc32.dll"), S("odbccp32.dll"), S("ole32.dll"), S("oleaut32.dll"),
    S("psapi.dll"), S("query.dll"), S("rpcrt4.dll"), S("secur32.dll"),
    S("shell32.dll"), S("snmpapi.dll"), S("user32.dll"), S("uuid.dll"),
    S("version.dll"), S("wininet.dll"), S("winmm.dll"), S("winspool.dll"),
    S("ws2_32.dll"), S("wsock32.dll")]

  const MSVCRT_DLLS: seq<NetString> := [
    S("msvcm80.dll"), S("msvcm80d.dll"), S("msvcp80.dll"),
    S("msvcp80d.dll"), S("msvcr80.dll"), S("msvcr80d.dll")]

  /** `SpecialDlls.IsIn`: some entry of `names` equals `name` ignoring case. */
  function IsIn(name: NetString, names: seq<NetString>): (r: bool)
    ensures r <==> exists i :: 0 <= i < |names| && EqualsIgnoreCase(names[i], name)
  {
    if |names| == 0 then false
    else if EqualsIgnoreCase(names[0], name) then true
    else
      var r := IsIn(name, names[1..]);
      assert forall i :: 1 <= i < |names| ==> names[i] == names[1..][i - 1];
      r
  }

  predicate IsWindowsDll(name: NetString) {
    IsIn(name, WINDOWS_DLLS)
  }

  predicate IsMsvcrtDll(name: NetString) {
    IsIn(name, MSVCRT_DLLS)
  }

  /** `ComputeFlags`: ORs in IsWindows and IsMsvcrt by list membership, and
      IsDelayed when every reference is a delayed one. It only adds bits and
      leaves the name and the counters alone. */
  function ComputeFlags(d: DllDependency): (r: DllDependency)
    ensures r.name == d.name && r.nbRef == d.nbRef && r.nbRefDelayed == d.nbRefDelayed
    ensures d.flags <= r.flags
    ensures IsWindows in r.flags <==> IsWindows in d.flags || IsWindowsDll(d.name)
    ensures IsMsvcrt in r.flags <==> IsMsvcrt in d.flags || IsMsvcrtDll(d.name)
    ensures IsDelayed in r.flags <==> IsDelayed in d.flags || (d.nbRefDelayed != 0 && d.nbRef == 0)
    ensures HasError in r.flags <==> HasError in d.flags
  {
    var f1 := if IsWindowsDll(d.name) then d.flags + {IsWindows} else d.flags;
    var f2 := if IsMsvcrtDll(d.name) then f1 + {IsMsvcrt} else f1;
    var f3 := if d.nbRefDelayed != 0 && d.nbRef == 0 then f2 + {IsDelayed} else f2;
    d.(flags := f3)
  }

  /** Computing the flags twice changes nothing more. */
  lemma ComputeFlagsIdempotent(d: DllDependency)
    ensures ComputeFlags(ComputeFlags(d)) == ComputeFlags(d)
  {
    var once := ComputeFlags(d);
    var twice := ComputeFlags(once);
    assert twice.flags == once.flags;
  }

  /** Case-insensitive equality is an equivalence, so membership does not
      depend on the case of the name looked up. */
  lemma IsInIgnoresCase(a: NetString, b: NetString, names: seq<NetString>)
    requires EqualsIgnoreCase(a, b)
    ensures IsIn(a, names) <==> IsIn(b, names)
  {
    if IsIn(a, names) {
      var i :| 0 <= i < |names| && EqualsIgnoreCase(names[i], a);
      assert EqualsIgnoreCase(names[i], b);
    }
    if IsIn(b, names) {
      var i :| 0 <= i < |names| && EqualsIgnoreCase(names[i], b);
      assert EqualsIgnoreCase(names[i], a);
    }
  }
}
