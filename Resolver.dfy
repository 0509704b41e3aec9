/** `DllReader.ReadAllDependencies` (DllReader.cs): the transitive closure of
    the native dependencies of a set of files, as a dictionary from full path
    (or bare name, when the file cannot be found) to `DllDependency`. */
module Resolver {
  import opened Wrappers
  import opened Bytes
  import opened PeImage
  import opened Dependency
  import opened Imports
  import opened Reader

  /** What the resolver sees of the file system: the bytes of every file
      that can be opened, by path, and `FindExistingFile` over the lookup
      directories, as a map from a file name to the full path of the first
      directory holding it (no entry: `null`). */
  datatype FileSystem = FileSystem(files: map<NetString, seq<Byte>>, found: map<NetString, NetString>)

  /** The dictionary of `ReadAllDependencies`: one record per key, the record being
      the `DllDependency` object the key was first filed with. */
  type Dict = map<NetString, DllDependency>

  /** The dictionary and the list of records still to read (`toProcess`),
      by key. */
  datatype Work = Work(dict: Dict, queue: seq<NetString>)

  // ---------------------------------------------------------------------
  // One dependency, one file

  /** The key a dependency is filed under: its full path when it is found,
      else its bare name. */
  function KeyOf(fs: FileSystem, dep: DllDependency): NetString {
    if dep.name in fs.found then fs.found[dep.name] else dep.name
  }

  /** `DllFlags |= DllFlags.HasError`. */
  function WithError(d: DllDependency): (r: DllDependency)
    ensures r.name == d.name && r.nbRef == d.nbRef && r.nbRefDelayed == d.nbRefDelayed
    ensures r.flags == d.flags + {HasError}
  {
    d.(flags := d.flags + {HasError})
  }

  /** Whether the record of `parent` is delayed (`depProc.IsDelayed`). */
  predicate ParentDelayed(w: Work, parent: NetString) {
    parent in w.dict && w.dict[parent].Delayed()
  }

  /** The body of the inner loop of `ReadAllDependencies` for dependency
      `dep` of the file `parent` being read. */
  function Visit(fs: FileSystem, w: Work, parent: NetString, dep: DllDependency, recurseDelayed: bool): (r: Work)
    ensures r.dict.Keys == w.dict.Keys + {KeyOf(fs, dep)}
    ensures forall k :: k in w.dict && k != KeyOf(fs, dep) ==> r.dict[k] == w.dict[k]
    // a name that cannot be found is filed once, with an error, and never read
    ensures dep.name !in fs.found ==>
              && r.queue == w.queue
              && (dep.name in w.dict ==> r.dict == w.dict)
              && (dep.name !in w.dict ==> HasError in r.dict[dep.name].flags)
    // a path already filed gets one more reference, delayed iff the importer is
    ensures dep.name in fs.found && KeyOf(fs, dep) in w.dict ==>
              var before := w.dict[KeyOf(fs, dep)];
              var after := r.dict[KeyOf(fs, dep)];
              && r.queue == w.queue
              && after.name == before.name && after.flags == before.flags
              && after.nbRef == before.nbRef + (if ParentDelayed(w, parent) then 0 else 1)
              && after.nbRefDelayed == before.nbRefDelayed + (if ParentDelayed(w, parent) then 1 else 0)
    // a new path is filed under that path, and queued unless it is delayed
    // and delayed dependencies are not followed
    ensures dep.name in fs.found && KeyOf(fs, dep) !in w.dict ==>
              && r.dict[KeyOf(fs, dep)].name == KeyOf(fs, dep)
              && (r.queue == w.queue + [KeyOf(fs, dep)] <==> !dep.Delayed() || recurseDelayed)
              && (r.queue == w.queue <==> dep.Delayed() && !recurseDelayed)
  {
    if dep.name !in fs.found then
      if dep.name in w.dict then w
      else Work(w.dict[dep.name := WithError(dep)], w.queue)
    else
      var path := fs.found[dep.name];
      if path in w.dict then
        var found := w.dict[path];
        var bumped :=
          if ParentDelayed(w, parent) then found.(nbRefDelayed := found.nbRefDelayed + 1)
          else found.(nbRef := found.nbRef + 1);
        Work(w.dict[path := bumped], w.queue)
      else
        var added := dep.(name := path);
        Work(w.dict[path := added], if !added.Delayed() || recurseDelayed then w.queue + [path] else w.queue)
  }

  /** The inner loop of `ReadAllDependencies` over the dependencies `deps`
      of the file `parent`, in list order. */
  function VisitAll(fs: FileSystem, w: Work, parent: NetString, deps: seq<DllDependency>, recurseDelayed: bool): (r: Work)
    decreases |deps|
  {
    if deps == [] then w
    else Visit(fs, VisitAll(fs, w, parent, deps[..|deps| - 1], recurseDelayed), parent, deps[|deps| - 1], recurseDelayed)
  }

  /** `new DllReader(path).DllDependencies`: a path that names no file
      cannot be opened. */
  function NodeDependencies(fs: FileSystem, path: NetString): Result<seq<DllDependency>> {
    if path !in fs.files then Err(FileNotFound)
    else
      var img :- ReadImage(fs.files[path]);
      DllDependencyWalk(fs.files[path], img).AsResult()
  }

  /** One iteration of the `foreach` over `tmpToProcess`: the file filed
      under `key` is read and its dependencies visited; if reading it
      throws, its record gets the error flag instead. */
  function NodeStep(fs: FileSystem, w: Work, key: NetString, recurseDelayed: bool): (r: Work)
    requires key in w.dict
  {
    match NodeDependencies(fs, key)
    case Err(_) => Work(w.dict[key := WithError(w.dict[key])], w.queue)
    case Ok(deps) => VisitAll(fs, w, key, deps, recurseDelayed)
  }

  // ---------------------------------------------------------------------
  // What one step keeps

  /** A dependency as an import table lists it: `(name, 1, 0)` or
      `(name, 0, 1)`, without flags. */
  predicate Imported(d: DllDependency) {
    && d.flags == {}
    && ((d.nbRef == 1 && d.nbRefDelayed == 0) || (d.nbRef == 0 && d.nbRefDelayed == 1))
  }

  /** A record as the resolver keeps it before the flags are computed: filed
      under its own name, referenced at least once, with no flag but the
      error flag, and without error only if its key is a found path. */
  predicate Entry(fs: FileSystem, k: NetString, d: DllDependency) {
    && d.name == k
    && d.nbRef >= 0 && d.nbRefDelayed >= 0 && d.nbRef + d.nbRefDelayed >= 1
    && d.flags <= {HasError}
    && (HasError !in d.flags ==> k in fs.found.Values)
  }

  predicate WellFormed(fs: FileSystem, dict: Dict) {
    forall k :: k in dict ==> Entry(fs, k, dict[k])
  }

  /** The dictionary only grows: no key leaves, no error flag is cleared and
      no delayed reference is forgotten. */
  predicate Grows(before: Dict, after: Dict) {
    forall k :: k in before ==>
      && k in after
      && (HasError in before[k].flags ==> HasError in after[k].flags)
      && before[k].nbRefDelayed <= after[k].nbRefDelayed
  }

  /** From `w` to `r` the dictionary grows and the queue is extended by
      distinct keys that were not filed before, all of them found paths, so
      that the found paths not yet filed plus the queue never grow. */
  predicate Advances(c: set<NetString>, w: Work, r: Work) {
    && Grows(w.dict, r.dict)
    && |w.queue| <= |r.queue| && r.queue[..|w.queue|] == w.queue
    && (forall j :: |w.queue| <= j < |r.queue| ==> r.queue[j] !in w.dict && r.queue[j] in r.dict)
    && (forall a, b :: |w.queue| <= a < b < |r.queue| ==> r.queue[a] != r.queue[b])
    && |c - r.dict.Keys| + |r.queue| <= |c - w.dict.Keys| + |w.queue|
  }

  lemma AdvancesTransitive(c: set<NetString>, u: Work, v: Work, w: Work)
    requires Advances(c, u, v) && Advances(c, v, w)
    ensures Advances(c, u, w)
  {
    GrowsTransitive(u.dict, v.dict, w.dict);
    PrefixTransitive(u.queue, v.queue, w.queue);
    QueuedTransitive(u, v, w);
    DistinctTransitive(u.queue, v.queue, w.queue, v.dict);
  }

  lemma GrowsTransitive(a: Dict, b: Dict, c: Dict)
    requires Grows(a, b) && Grows(b, c)
    ensures Grows(a, c)
  {
  }

  lemma PrefixTransitive(u: seq<NetString>, v: seq<NetString>, w: seq<NetString>)
    requires |u| <= |v| && v[..|u|] == u
    requires |v| <= |w| && w[..|v|] == v
    ensures w[..|u|] == u
  {
    assert w[..|u|] == w[..|v|][..|u|];
  }

  /** Keys queued in two steps were unfiled before the first and are filed
      after the second. */
  lemma QueuedTransitive(u: Work, v: Work, w: Work)
    requires Grows(u.dict, v.dict) && Grows(v.dict, w.dict)
    requires |u.queue| <= |v.queue| <= |w.queue| && w.queue[..|v.queue|] == v.queue
    requires forall j :: |u.queue| <= j < |v.queue| ==> v.queue[j] !in u.dict && v.queue[j] in v.dict
    requires forall j :: |v.queue| <= j < |w.queue| ==> w.queue[j] !in v.dict && w.queue[j] in w.dict
    ensures forall j :: |u.queue| <= j < |w.queue| ==> w.queue[j] !in u.dict && w.queue[j] in w.dict
  {
    forall j | |u.queue| <= j < |w.queue|
      ensures w.queue[j] !in u.dict && w.queue[j] in w.dict
    {
      if j < |v.queue| {
        assert w.queue[j] == v.queue[j];
      }
    }
  }

  /** Keys queued in two steps are distinct when each step's are distinct
      and the first step's are filed in `mid` while the second's are not. */
  lemma DistinctTransitive(u: seq<NetString>, v: seq<NetString>, w: seq<NetString>, mid: Dict)
    requires |u| <= |v| <= |w| && w[..|v|] == v
    requires forall a, b :: |u| <= a < b < |v| ==> v[a] != v[b]
    requires forall a, b :: |v| <= a < b < |w| ==> w[a] != w[b]
    requires forall a :: |u| <= a < |v| ==> v[a] in mid
    requires forall b :: |v| <= b < |w| ==> w[b] !in mid
    ensures forall a, b :: |u| <= a < b < |w| ==> w[a] != w[b]
  {
    forall a, b | |u| <= a < b < |w|
      ensures w[a] != w[b]
    {
      if b < |v| {
        assert w[a] == v[a] && w[b] == v[b];
      } else if a < |v| {
        assert w[a] == v[a];
      }
    }
  }

  lemma VisitAdvances(fs: FileSystem, w: Work, parent: NetString, dep: DllDependency, recurseDelayed: bool)
    ensures Advances(fs.found.Values, w, Visit(fs, w, parent, dep, recurseDelayed))
  {
    var r := Visit(fs, w, parent, dep, recurseDelayed);
    VisitGrows(fs, w, parent, dep, recurseDelayed);
    if r.queue != w.queue {
      QueuedAdvances(fs.found.Values, w, r, KeyOf(fs, dep));
    } else {
      UnqueuedAdvances(fs.found.Values, w, r);
    }
  }

  /** Visiting one dependency only grows the dictionary. */
  lemma VisitGrows(fs: FileSystem, w: Work, parent: NetString, dep: DllDependency, recurseDelayed: bool)
    ensures Grows(w.dict, Visit(fs, w, parent, dep, recurseDelayed).dict)
  {
    var r := Visit(fs, w, parent, dep, recurseDelayed);
    var key := KeyOf(fs, dep);
    if key in w.dict {
      assert HasError in w.dict[key].flags ==> HasError in r.dict[key].flags;
    }
  }

  /** A step that grows the dictionary and queues nothing advances. */
  lemma UnqueuedAdvances(c: set<NetString>, w: Work, r: Work)
    requires Grows(w.dict, r.dict) && r.queue == w.queue
    ensures Advances(c, w, r)
  {
    assert r.queue[..|w.queue|] == w.queue;
    SubsetSize(c - r.dict.Keys, c - w.dict.Keys);
  }

  /** A step that files one new found path and queues it advances. */
  lemma QueuedAdvances(c: set<NetString>, w: Work, r: Work, key: NetString)
    requires Grows(w.dict, r.dict) && r.dict.Keys == w.dict.Keys + {key}
    requires key in c && key !in w.dict && r.queue == w.queue + [key]
    ensures Advances(c, w, r)
  {
    assert c - r.dict.Keys == (c - w.dict.Keys) - {key};
    assert r.queue[..|w.queue|] == w.queue;
  }

  lemma SubsetSize<T>(a: set<T>, b: set<T>)
    requires a <= b
    ensures |a| <= |b|
  {
    if a != {} {
      var x :| x in a;
      SubsetSize(a - {x}, b - {x});
    }
  }

  lemma {:induction false} VisitAllAdvances(fs: FileSystem, w: Work, parent: NetString, deps: seq<DllDependency>, recurseDelayed: bool)
    decreases |deps|
    ensures Advances(fs.found.Values, w, VisitAll(fs, w, parent, deps, recurseDelayed))
  {
    if deps == [] {
      assert w.queue[..|w.queue|] == w.queue;
    } else {
      var mid := VisitAll(fs, w, parent, deps[..|deps| - 1], recurseDelayed);
      VisitAllAdvances(fs, w, parent, deps[..|deps| - 1], recurseDelayed);
      VisitAdvances(fs, mid, parent, deps[|deps| - 1], recurseDelayed);
      AdvancesTransitive(fs.found.Values, w, mid, VisitAll(fs, w, parent, deps, recurseDelayed));
    }
  }

  lemma NodeStepAdvances(fs: FileSystem, w: Work, key: NetString, recurseDelayed: bool)
    requires key in w.dict
    ensures Advances(fs.found.Values, w, NodeStep(fs, w, key, recurseDelayed))
  {
    match NodeDependencies(fs, key)
    case Err(_) =>
      assert w.queue[..|w.queue|] == w.queue;
      assert NodeStep(fs, w, key, recurseDelayed).dict.Keys == w.dict.Keys;
    case Ok(deps) =>
      VisitAllAdvances(fs, w, key, deps, recurseDelayed);
  }

  /** Visiting an imported dependency keeps the dictionary well formed. */
  lemma VisitWellFormed(fs: FileSystem, w: Work, parent: NetString, dep: DllDependency, recurseDelayed: bool)
    requires WellFormed(fs, w.dict) && Imported(dep)
    ensures WellFormed(fs, Visit(fs, w, parent, dep, recurseDelayed).dict)
  {
    var r := Visit(fs, w, parent, dep, recurseDelayed);
    var key := KeyOf(fs, dep);
    forall k | k in r.dict
      ensures Entry(fs, k, r.dict[k])
    {
      if k != key {
        assert Entry(fs, k, w.dict[k]);
      } else if key in w.dict {
        assert Entry(fs, k, w.dict[k]);
      } else if dep.name in fs.found {
        assert key in fs.found.Values;
      }
    }
  }

  lemma {:induction false} VisitAllWellFormed(fs: FileSystem, w: Work, parent: NetString, deps: seq<DllDependency>, recurseDelayed: bool)
    requires WellFormed(fs, w.dict) && forall d :: d in deps ==> Imported(d)
    decreases |deps|
    ensures WellFormed(fs, VisitAll(fs, w, parent, deps, recurseDelayed).dict)
  {
    if deps != [] {
      var init := deps[..|deps| - 1];
      assert forall d :: d in init ==> d in deps;
      VisitAllWellFormed(fs, w, parent, init, recurseDelayed);
      VisitWellFormed(fs, VisitAll(fs, w, parent, init, recurseDelayed), parent, deps[|deps| - 1], recurseDelayed);
    }
  }

  /** Every dependency `NodeDependencies` lists is an imported one. */
  lemma NodeDependenciesImported(fs: FileSystem, path: NetString)
    requires NodeDependencies(fs, path).Ok?
    ensures forall d :: d in NodeDependencies(fs, path).value ==> Imported(d)
  {
    var data := fs.files[path];
    DllDependencyWalkShapes(data, ReadImage(data).value);
  }

  /** Reading one file keeps the dictionary well formed. */
  lemma NodeStepWellFormed(fs: FileSystem, w: Work, key: NetString, recurseDelayed: bool)
    requires key in w.dict && WellFormed(fs, w.dict)
    ensures WellFormed(fs, NodeStep(fs, w, key, recurseDelayed).dict)
  {
    match NodeDependencies(fs, key)
    case Err(_) =>
      var r := NodeStep(fs, w, key, recurseDelayed);
      forall k | k in r.dict
        ensures Entry(fs, k, r.dict[k])
      {
        assert Entry(fs, k, w.dict[k]);
      }
    case Ok(deps) =>
      NodeDependenciesImported(fs, key);
      VisitAllWellFormed(fs, w, key, deps, recurseDelayed);
  }

  /** Every key is accounted for: read already, still to be read, filed
      with an error, or delayed when delayed dependencies are not
      followed. */
  predicate Accounted(dict: Dict, visited: seq<NetString>, pending: seq<NetString>, recurseDelayed: bool) {
    forall k :: k in dict ==>
      || k in visited || k in pending
      || HasError in dict[k].flags
      || (!recurseDelayed && dict[k].nbRefDelayed >= 1)
  }

  lemma VisitAccounted(fs: FileSystem, w: Work, parent: NetString, dep: DllDependency, recurseDelayed: bool,
                       visited: seq<NetString>, rest: seq<NetString>)
    requires Accounted(w.dict, visited, rest + w.queue, recurseDelayed) && Imported(dep)
    ensures var r := Visit(fs, w, parent, dep, recurseDelayed);
      Accounted(r.dict, visited, rest + r.queue, recurseDelayed)
  {
    var r := Visit(fs, w, parent, dep, recurseDelayed);
    VisitAdvances(fs, w, parent, dep, recurseDelayed);
    var key := KeyOf(fs, dep);
    if key !in w.dict {
      if r.queue != w.queue {
        assert r.queue[|w.queue|] == key;
      }
    }
    AccountedExtends(w, r, visited, rest, recurseDelayed);
  }

  /** A step that grows the dictionary and extends the queue keeps every
      key accounted for when each key it files is queued, has the error
      flag, or is delayed and not followed. */
  lemma AccountedExtends(w: Work, r: Work, visited: seq<NetString>, rest: seq<NetString>, recurseDelayed: bool)
    requires Accounted(w.dict, visited, rest + w.queue, recurseDelayed)
    requires Grows(w.dict, r.dict) && |w.queue| <= |r.queue| && r.queue[..|w.queue|] == w.queue
    requires forall k :: k in r.dict && k !in w.dict ==>
               || k in r.queue || HasError in r.dict[k].flags
               || (!recurseDelayed && r.dict[k].nbRefDelayed >= 1)
    ensures Accounted(r.dict, visited, rest + r.queue, recurseDelayed)
  {
    forall k | k in r.dict
      ensures || k in visited || k in rest + r.queue
              || HasError in r.dict[k].flags
              || (!recurseDelayed && r.dict[k].nbRefDelayed >= 1)
    {
      if k in w.dict && k in rest + w.queue && k !in rest {
        var j :| 0 <= j < |w.queue| && w.queue[j] == k;
        assert r.queue[j] == k;
      }
    }
  }

  lemma {:induction false} VisitAllAccounted(fs: FileSystem, w: Work, parent: NetString, deps: seq<DllDependency>,
                                             recurseDelayed: bool, visited: seq<NetString>, rest: seq<NetString>)
    requires Accounted(w.dict, visited, rest + w.queue, recurseDelayed) && forall d :: d in deps ==> Imported(d)
    decreases |deps|
    ensures var r := VisitAll(fs, w, parent, deps, recurseDelayed);
      Accounted(r.dict, visited, rest + r.queue, recurseDelayed)
  {
    if deps != [] {
      var init := deps[..|deps| - 1];
      assert forall d :: d in init ==> d in deps;
      VisitAllAccounted(fs, w, parent, init, recurseDelayed, visited, rest);
      VisitAccounted(fs, VisitAll(fs, w, parent, init, recurseDelayed), parent, deps[|deps| - 1], recurseDelayed, visited, rest);
    }
  }

  /** Reading the first pending key moves it to the keys read and keeps
      every key accounted for. */
  lemma NodeStepAccounted(fs: FileSystem, w: Work, key: NetString, recurseDelayed: bool,
                          visited: seq<NetString>, rest: seq<NetString>)
    requires key in w.dict && Accounted(w.dict, visited, [key] + rest + w.queue, recurseDelayed)
    ensures var r := NodeStep(fs, w, key, recurseDelayed);
      Accounted(r.dict, visited + [key], rest + r.queue, recurseDelayed)
  {
    assert Accounted(w.dict, visited + [key], rest + w.queue, recurseDelayed) by {
      forall k | k in w.dict && k in [key] + rest + w.queue
        ensures k in visited + [key] || k in rest + w.queue
      {
        if k != key {
          assert k in rest + w.queue;
        }
      }
    }
    match NodeDependencies(fs, key)
    case Err(_) =>
    case Ok(deps) =>
      NodeDependenciesImported(fs, key);
      VisitAllAccounted(fs, w, key, deps, recurseDelayed, visited + [key], rest);
  }

  /** The file filed under `key` has been read: its record has the error
      flag if reading it failed, and otherwise every one of its dependencies
      is filed. */
  predicate Expanded(fs: FileSystem, dict: Dict, key: NetString) {
    match NodeDependencies(fs, key)
    case Err(_) => key in dict && HasError in dict[key].flags
    case Ok(deps) => forall dep :: dep in deps ==> KeyOf(fs, dep) in dict
  }

  lemma ExpandedGrows(fs: FileSystem, before: Dict, after: Dict, key: NetString)
    requires Expanded(fs, before, key) && Grows(before, after)
    ensures Expanded(fs, after, key)
  {
  }

  lemma {:induction false} VisitAllFiles(fs: FileSystem, w: Work, parent: NetString, deps: seq<DllDependency>, recurseDelayed: bool)
    decreases |deps|
    ensures forall dep :: dep in deps ==> KeyOf(fs, dep) in VisitAll(fs, w, parent, deps, recurseDelayed).dict
  {
    if deps != [] {
      var init := deps[..|deps| - 1];
      var mid := VisitAll(fs, w, parent, init, recurseDelayed);
      VisitAllFiles(fs, w, parent, init, recurseDelayed);
      forall dep | dep in deps
        ensures KeyOf(fs, dep) in VisitAll(fs, w, parent, deps, recurseDelayed).dict
      {
        if dep != deps[|deps| - 1] {
          var j :| 0 <= j < |deps| && deps[j] == dep;
          assert init[j] == dep;
        }
      }
    }
  }

  /** Reading a file expands it. */
  lemma NodeStepExpands(fs: FileSystem, w: Work, key: NetString, recurseDelayed: bool)
    requires key in w.dict
    ensures Expanded(fs, NodeStep(fs, w, key, recurseDelayed).dict, key)
  {
    match NodeDependencies(fs, key)
    case Err(_) =>
    case Ok(deps) =>
      VisitAllFiles(fs, w, key, deps, recurseDelayed);
  }

  /** Every key is read at most once, except the files the caller named,
      which are read once per time they were named: no key is read twice
      and no key read is pending again, unless it is one of `seeds`. */
  predicate Once(visited: seq<NetString>, pending: seq<NetString>, seeds: set<NetString>) {
    && (forall a, b :: 0 <= a < b < |visited| && visited[a] == visited[b] ==> visited[a] in seeds)
    && (forall a, b :: 0 <= a < |visited| && 0 <= b < |pending| && visited[a] == pending[b] ==> visited[a] in seeds)
    && (forall a, b :: 0 <= a < b < |pending| && pending[a] == pending[b] ==> pending[a] in seeds)
  }

  /** Reading the first pending key and queueing keys not filed before
      keeps every key read at most once. */
  lemma OnceAfterStep(visited: seq<NetString>, key: NetString, rest: seq<NetString>, queue: seq<NetString>,
                      r: seq<NetString>, seeds: set<NetString>, filed: set<NetString>)
    requires Once(visited, [key] + rest + queue, seeds)
    requires forall k :: k in visited ==> k in filed
    requires forall k :: k in [key] + rest + queue ==> k in filed
    requires |queue| <= |r| && r[..|queue|] == queue
    requires forall j :: |queue| <= j < |r| ==> r[j] !in filed
    requires forall a, b :: |queue| <= a < b < |r| ==> r[a] != r[b]
    ensures Once(visited + [key], rest + r, seeds)
  {
    var v := visited + [key];
    var before := [key] + rest + queue;
    var after := rest + r;
    assert forall b :: 0 <= b < |rest| + |queue| ==> after[b] == before[b + 1];
    forall a, b | 0 <= a < |v| && 0 <= b < |after| && v[a] == after[b]
      ensures v[a] in seeds
    {
      if b >= |rest| + |queue| {
        assert false;
      }
      if a < |visited| {
        assert visited[a] == before[b + 1];
      } else {
        assert before[0] == before[b + 1];
      }
    }
    forall a, b | 0 <= a < b < |after| && after[a] == after[b]
      ensures after[a] in seeds
    {
      if b >= |rest| + |queue| {
        assert false;
      }
      assert after[a] == before[a + 1] && after[b] == before[b + 1];
    }
    forall a, b | 0 <= a < b < |v| && v[a] == v[b]
      ensures v[a] in seeds
    {
      if b == |visited| {
        assert before[0] == key;
      }
    }
  }

  // ---------------------------------------------------------------------
  // The methods

  /** Opening the file and asking for its `DllDependencies`. */
  method ReadNodeDependencies(fs: FileSystem, path: NetString) returns (r: Result<seq<DllDependency>>)
    ensures r == NodeDependencies(fs, path)
  {
    if path !in fs.files {
      return Err(FileNotFound);
    }
    var reader :- DllReader.Open(fs.files[path]);
    r := reader.DllDependencies();
  }

  /** One iteration of the `foreach` over `tmpToProcess`. */
  method ProcessNode(fs: FileSystem, dict: Dict, queue: seq<NetString>, key: NetString, recurseDelayed: bool)
    returns (dict': Dict, queue': seq<NetString>)
    requires key in dict
    ensures Work(dict', queue') == NodeStep(fs, Work(dict, queue), key, recurseDelayed)
  {
    var deps := ReadNodeDependencies(fs, key);
    if deps.Err? {
      return dict[key := WithError(dict[key])], queue;
    }
    dict', queue' := dict, queue;
    for i := 0 to |deps.value|
      invariant Work(dict', queue') == VisitAll(fs, Work(dict, queue), key, deps.value[..i], recurseDelayed)
    {
      assert deps.value[..i + 1][..i] == deps.value[..i];
      dict', queue' := VisitOne(fs, dict', queue', key, deps.value[i], recurseDelayed);
    }
    assert deps.value[..|deps.value|] == deps.value;
  }

  /** The body of the inner loop: one dependency of the file filed under
      `parent`. */
  method VisitOne(fs: FileSystem, dict: Dict, queue: seq<NetString>, parent: NetString, dep: DllDependency,
                  recurseDelayed: bool)
    returns (dict': Dict, queue': seq<NetString>)
    ensures Work(dict', queue') == Visit(fs, Work(dict, queue), parent, dep, recurseDelayed)
  {
    dict', queue' := dict, queue;
    if dep.name !in fs.found {
      if dep.name !in dict {
        dict' := dict[dep.name := WithError(dep)];
      }
    } else {
      var path := fs.found[dep.name];
      if path in dict {
        var found := dict[path];
        if parent in dict && dict[parent].Delayed() {
          dict' := dict[path := found.(nbRefDelayed := found.nbRefDelayed + 1)];
        } else {
          dict' := dict[path := found.(nbRef := found.nbRef + 1)];
        }
      } else {
        var added := dep.(name := path);
        dict' := dict[path := added];
        if !added.Delayed() || recurseDelayed {
          queue' := queue + [path];
        }
      }
    }
  }

  /** The final `foreach` over the dictionary's values: `ComputeFlags` on
      every record. */
  method ComputeAllFlags(dict: Dict) returns (r: Dict)
    ensures r.Keys == dict.Keys
    ensures forall k :: k in dict ==> r[k] == ComputeFlags(dict[k])
  {
    r := dict;
    var rest := dict.Keys;
    while rest != {}
      invariant rest <= dict.Keys && r.Keys == dict.Keys
      invariant forall k :: k in dict ==> r[k] == if k in rest then dict[k] else ComputeFlags(dict[k])
      decreases |rest|
    {
      var k :| k in rest;
      r := r[k := ComputeFlags(r[k])];
      rest := rest - {k};
    }
  }

  // ---------------------------------------------------------------------
  // The whole resolution

  /** The full paths of the files the caller named. */
  function Seeds(fs: FileSystem, fileNames: seq<NetString>): set<NetString> {
    set f | f in fileNames && f in fs.found :: fs.found[f]
  }

  /** A record as `ReadAllDependencies` returns it: filed under its own
      name, referenced at least once, flagged Windows or MSVC runtime exactly
      when its name is on those lists, delayed exactly when every reference
      to it was a delayed one, and without error only if its key is a found
      path. */
  predicate Classified(fs: FileSystem, k: NetString, d: DllDependency) {
    && d.name == k
    && d.nbRef >= 0 && d.nbRefDelayed >= 0 && d.nbRef + d.nbRefDelayed >= 1
    && (IsWindows in d.flags <==> IsWindowsDll(k))
    && (IsMsvcrt in d.flags <==> IsMsvcrtDll(k))
    && (IsDelayed in d.flags <==> d.nbRefDelayed != 0 && d.nbRef == 0)
    && (HasError !in d.flags ==> k in fs.found.Values)
  }

  /** Computing the flags of well-formed records classifies them and keeps
      what the dictionary has learnt. */
  lemma FlagsClassify(fs: FileSystem, dict: Dict, flagged: Dict)
    requires WellFormed(fs, dict)
    requires flagged.Keys == dict.Keys && forall k :: k in dict ==> flagged[k] == ComputeFlags(dict[k])
    ensures forall k :: k in flagged ==> Classified(fs, k, flagged[k])
    ensures Grows(dict, flagged)
  {
    forall k | k in flagged
      ensures Classified(fs, k, flagged[k])
      ensures HasError in dict[k].flags ==> HasError in flagged[k].flags
      ensures dict[k].nbRefDelayed <= flagged[k].nbRefDelayed
    {
      RecordClassified(fs, k, dict[k]);
    }
  }

  /** Computing the flags of one well-formed record classifies it and keeps
      its error flag and its delayed references. */
  lemma RecordClassified(fs: FileSystem, k: NetString, d: DllDependency)
    requires Entry(fs, k, d)
    ensures Classified(fs, k, ComputeFlags(d))
    ensures HasError in d.flags ==> HasError in ComputeFlags(d).flags
    ensures d.nbRefDelayed <= ComputeFlags(d).nbRefDelayed
  {
  }

  lemma AccountedGrows(before: Dict, after: Dict, visited: seq<NetString>, pending: seq<NetString>, recurseDelayed: bool)
    requires Accounted(before, visited, pending, recurseDelayed)
    requires Grows(before, after) && after.Keys <= before.Keys
    ensures Accounted(after, visited, pending, recurseDelayed)
  {
  }

  /** `k` is the key of a dependency listed by one of the files read. */
  predicate Discovered(fs: FileSystem, visited: seq<NetString>, k: NetString) {
    exists v, d :: v in visited && NodeDependencies(fs, v).Ok? && d in NodeDependencies(fs, v).value && KeyOf(fs, d) == k
  }

  /** Every key of the dictionary is a named file or was discovered. */
  predicate Sourced(fs: FileSystem, dict: Dict, visited: seq<NetString>, seeds: set<NetString>) {
    forall k :: k in dict ==> k in seeds || Discovered(fs, visited, k)
  }

  /** The inner loop files exactly the keys of the dependencies it visits. */
  lemma {:induction false} VisitAllKeys(fs: FileSystem, w: Work, parent: NetString, deps: seq<DllDependency>, recurseDelayed: bool)
    decreases |deps|
    ensures VisitAll(fs, w, parent, deps, recurseDelayed).dict.Keys == w.dict.Keys + set d | d in deps :: KeyOf(fs, d)
  {
    if deps != [] {
      var init := deps[..|deps| - 1];
      VisitAllKeys(fs, w, parent, init, recurseDelayed);
      assert deps == init + [deps[|deps| - 1]];
      assert (set d | d in deps :: KeyOf(fs, d)) == (set d | d in init :: KeyOf(fs, d)) + {KeyOf(fs, deps[|deps| - 1])};
    }
  }

  /** Reading a file adds only the keys of its dependencies, all of them
      discovered by the read. */
  lemma SourcedStep(fs: FileSystem, w: Work, key: NetString, visited: seq<NetString>, seeds: set<NetString>, recurseDelayed: bool)
    requires key in w.dict && Sourced(fs, w.dict, visited, seeds)
    ensures Sourced(fs, NodeStep(fs, w, key, recurseDelayed).dict, visited + [key], seeds)
  {
    var r := NodeStep(fs, w, key, recurseDelayed);
    var visited' := visited + [key];
    if NodeDependencies(fs, key).Ok? {
      VisitAllKeys(fs, w, key, NodeDependencies(fs, key).value, recurseDelayed);
    }
    forall k | k in r.dict && k !in seeds
      ensures Discovered(fs, visited', k)
    {
      if k in w.dict {
        var v, d :| v in visited && NodeDependencies(fs, v).Ok? && d in NodeDependencies(fs, v).value && KeyOf(fs, d) == k;
        assert v in visited';
      } else {
        var d :| d in NodeDependencies(fs, key).value && KeyOf(fs, d) == k;
        assert key in visited';
      }
    }
  }

  /** What holds between steps of the resolution, `pending` being the keys
      still to read in order. */
  predicate Resolving(fs: FileSystem, dict: Dict, visited: seq<NetString>, pending: seq<NetString>,
                      seeds: set<NetString>, recurseDelayed: bool) {
    && WellFormed(fs, dict)
    && (forall k :: k in visited ==> k in dict && Expanded(fs, dict, k))
    && (forall k :: k in pending ==> k in dict)
    && seeds <= dict.Keys
    && Accounted(dict, visited, pending, recurseDelayed)
    && Once(visited, pending, seeds)
  }

  /** The `foreach` over the named files. */
  method SeedFiles(fs: FileSystem, fileNames: seq<NetString>) returns (r: Result<Work>)
    ensures r.Err? <==> exists f :: f in fileNames && f !in fs.found
    ensures r.Err? ==> r.error == NullReference
    ensures r.Ok? ==> Resolving(fs, r.value.dict, [], r.value.queue, Seeds(fs, fileNames), false)
    ensures r.Ok? ==> forall k :: k in r.value.dict ==> k in r.value.queue
    ensures r.Ok? ==> r.value.dict.Keys <= Seeds(fs, fileNames)
  {
    var dict: Dict := map[];
    var toProcess: seq<NetString> := [];
    for i := 0 to |fileNames|
      invariant forall j :: 0 <= j < i ==> fileNames[j] in fs.found
      invariant WellFormed(fs, dict)
      invariant forall k :: k in dict <==> k in toProcess
      invariant forall k :: k in toProcess ==> k in Seeds(fs, fileNames)
      invariant forall j :: 0 <= j < i ==> fs.found[fileNames[j]] in dict
    {
      if fileNames[i] !in fs.found {
        return Err(NullReference);
      }
      var filePath := fs.found[fileNames[i]];
      dict := dict[filePath := NewDependency(filePath, 1, 0)];
      toProcess := toProcess + [filePath];
    }
    assert Seeds(fs, fileNames) <= dict.Keys;
    r := Ok(Work(dict, toProcess));
  }

  /** One round of the `while` loop: every key of `tmp` read in order, the
      keys it queues collected in `toProcess`. */
  method Round(fs: FileSystem, dict: Dict, tmp: seq<NetString>, ghost visited: seq<NetString>,
               ghost seeds: set<NetString>, recurseDelayed: bool)
    returns (dict': Dict, toProcess: seq<NetString>, ghost visited': seq<NetString>)
    requires Resolving(fs, dict, visited, tmp, seeds, recurseDelayed)
    requires Sourced(fs, dict, visited, seeds)
    ensures Resolving(fs, dict', visited', toProcess, seeds, recurseDelayed)
    ensures Sourced(fs, dict', visited', seeds)
    ensures dict.Keys <= dict'.Keys
    ensures |fs.found.Values - dict'.Keys| + |toProcess| <= |fs.found.Values - dict.Keys|
  {
    dict', toProcess, visited' := dict, [], visited;
    ghost var c := fs.found.Values;
    assert tmp[0..] + toProcess == tmp;
    for i := 0 to |tmp|
      invariant Resolving(fs, dict', visited', tmp[i..] + toProcess, seeds, recurseDelayed)
      invariant Sourced(fs, dict', visited', seeds)
      invariant dict.Keys <= dict'.Keys
      invariant |c - dict'.Keys| + |toProcess| <= |c - dict.Keys|
    {
      ghost var w := Work(dict', toProcess);
      dict', toProcess := ProcessNode(fs, dict', toProcess, tmp[i], recurseDelayed);
      SourcedStep(fs, w, tmp[i], visited', seeds, recurseDelayed);
      visited' := StepAt(fs, w, Work(dict', toProcess), tmp, i, visited', seeds, recurseDelayed);
    }
    assert tmp[|tmp|..] + toProcess == toProcess;
  }

  /** `Step` for the key at index `i` of a round. */
  lemma StepAt(fs: FileSystem, w: Work, r: Work, tmp: seq<NetString>, i: nat, visited: seq<NetString>,
               seeds: set<NetString>, recurseDelayed: bool)
    returns (visited': seq<NetString>)
    requires i < |tmp| && Resolving(fs, w.dict, visited, tmp[i..] + w.queue, seeds, recurseDelayed)
    requires r == NodeStep(fs, w, tmp[i], recurseDelayed)
    ensures visited' == visited + [tmp[i]]
    ensures Resolving(fs, r.dict, visited', tmp[i + 1..] + r.queue, seeds, recurseDelayed)
    ensures w.dict.Keys <= r.dict.Keys
    ensures |fs.found.Values - r.dict.Keys| + |r.queue| <= |fs.found.Values - w.dict.Keys| + |w.queue|
  {
    SplitHead(tmp, i, w.queue);
    visited' := Step(fs, w, r, tmp[i], tmp[i + 1..], visited, seeds, recurseDelayed);
  }

  lemma SplitHead(tmp: seq<NetString>, i: nat, queue: seq<NetString>)
    requires i < |tmp|
    ensures tmp[i..] + queue == [tmp[i]] + tmp[i + 1..] + queue
  {
    assert tmp[i..] == [tmp[i]] + tmp[i + 1..];
  }

  /** Reading `key`, first of the pending keys, keeps the resolution going. */
  lemma Step(fs: FileSystem, w: Work, r: Work, key: NetString, rest: seq<NetString>, visited: seq<NetString>,
             seeds: set<NetString>, recurseDelayed: bool)
    returns (visited': seq<NetString>)
    requires Resolving(fs, w.dict, visited, [key] + rest + w.queue, seeds, recurseDelayed)
    requires r == NodeStep(fs, w, key, recurseDelayed)
    ensures visited' == visited + [key]
    ensures Resolving(fs, r.dict, visited', rest + r.queue, seeds, recurseDelayed)
    ensures Advances(fs.found.Values, w, r)
  {
    visited' := visited + [key];
    NodeStepWellFormed(fs, w, key, recurseDelayed);
    NodeStepAdvances(fs, w, key, recurseDelayed);
    NodeStepAccounted(fs, w, key, recurseDelayed, visited, rest);
    NodeStepExpands(fs, w, key, recurseDelayed);
    OnceAfterStep(visited, key, rest, w.queue, r.queue, seeds, w.dict.Keys);
    forall k | k in visited
      ensures Expanded(fs, r.dict, k)
    {
      ExpandedGrows(fs, w.dict, r.dict, k);
    }
    forall k | k in rest + r.queue
      ensures k in r.dict
    {
      if k !in rest + w.queue {
        var j :| 0 <= j < |r.queue| && r.queue[j] == k;
      }
    }
  }

  /** `ReadAllDependencies`: the named files are found and queued; then,
      round after round, every queued file is read and its dependencies
      filed, until a round queues nothing; finally every record has its
      flags computed. A named file that cannot be found makes the whole call
      fail (`dict[null]`). `visited` lists the keys read, in order. */
  method ReadAllDependencies(fs: FileSystem, fileNames: seq<NetString>, recurseDelayed: bool)
    returns (r: Result<Dict>, ghost visited: seq<NetString>)
    ensures r.Err? <==> exists f :: f in fileNames && f !in fs.found
    ensures r.Err? ==> r.error == NullReference
    ensures r.Ok? ==> forall f :: f in fileNames ==> f in fs.found && fs.found[f] in r.value
    ensures r.Ok? ==> forall k :: k in r.value ==> Classified(fs, k, r.value[k])
    ensures r.Ok? ==> forall k :: k in visited ==> k in r.value && Expanded(fs, r.value, k)
    ensures r.Ok? ==> Accounted(r.value, visited, [], recurseDelayed)
    ensures r.Ok? ==> Once(visited, [], Seeds(fs, fileNames))
    // and nothing else: every key is a named file or a dependency of a file read
    ensures r.Ok? ==> forall k :: k in r.value ==> k in Seeds(fs, fileNames) || Discovered(fs, visited, k)
  {
    visited := [];
    var seeded := SeedFiles(fs, fileNames);
    if seeded.Err? {
      return Err(seeded.error), visited;
    }
    var dict := seeded.value.dict;
    var toProcess := seeded.value.queue;
    ghost var seeds := Seeds(fs, fileNames);
    assert Resolving(fs, dict, visited, toProcess, seeds, recurseDelayed);
    while toProcess != []
      invariant Resolving(fs, dict, visited, toProcess, seeds, recurseDelayed)
      invariant Sourced(fs, dict, visited, seeds)
      decreases |fs.found.Values - dict.Keys|, |toProcess|
    {
      dict, toProcess, visited := Round(fs, dict, toProcess, visited, seeds, recurseDelayed);
    }
    var flagged := ComputeAllFlags(dict);
    FlagsClassify(fs, dict, flagged);
    forall k | k in visited
      ensures Expanded(fs, flagged, k)
    {
      ExpandedGrows(fs, dict, flagged, k);
    }
    AccountedGrows(dict, flagged, visited, [], recurseDelayed);
    r := Ok(flagged);
  }
}
