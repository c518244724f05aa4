/** The packages affected by a diff: those of the changed files, and everything that imports them. */
module Affected {
  import opened Wrappers
  import opened Reachability
  import opened ImportGraph

  /** A path as its components. */
  type FilePath = seq<string>

  datatype ChangeStatus = Added | Modified | Deleted | Renamed(old_: FilePath)

  datatype ChangedFile = ChangedFile(path: FilePath, status: ChangeStatus)

  datatype PackageNode = PackageNode(path: Package, files: seq<FilePath>)

  datatype Model = Model(packages: seq<PackageNode>, importEdges: seq<ImportEdge>)

  datatype BailOutReason =
    | ShallowCloneOrNoCommonHistory
    | GlobMatched(path: FilePath)
    | PackageClauseChanged(path: FilePath)
    | PackageFullyRemoved(path: FilePath)

  datatype AffectedResult = Packages(packages: set<Package>) | BailOut(reason: BailOutReason)

  function Parent(p: FilePath): Option<FilePath>
  {
    if p == [] then None else Some(p[..|p| - 1])
  }

  predicate IsGoPath(p: FilePath)
  {
    p != [] && var name := p[|p| - 1]; |name| > 3 && name[|name| - 3..] == ".go"
  }

  // ---------------------------------------------------------------------------
  // Importers
  // ---------------------------------------------------------------------------

  function ImportersOf(edges: seq<ImportEdge>, p: Package): set<Package>
  {
    set e | e in edges && e.to == p :: e.from
  }

  lemma OneMoreImporter(edges: seq<ImportEdge>, edge: ImportEdge, p: Package)
    ensures ImportersOf(edges + [edge], p) == ImportersOf(edges, p) + if p == edge.to then {edge.from} else {}
  {
  }

  method BuildReverseAdjacency(edges: seq<ImportEdge>) returns (adjacency: map<Package, set<Package>>)
    ensures IsReverseAdjacency(edges, adjacency)
  {
    adjacency := map[];
    for i := 0 to |edges|
      invariant IsReverseAdjacency(edges[..i], adjacency)
    {
      var edge := edges[i];
      var importers := if edge.to in adjacency then adjacency[edge.to] else {};
      AdjacencyStep(edges[..i], edge, adjacency);
      adjacency := adjacency[edge.to := importers + {edge.from}];
      assert edges[..i + 1] == edges[..i] + [edge];
    }
    assert edges[..|edges|] == edges;
  }

  lemma AdjacencyStep(edges: seq<ImportEdge>, edge: ImportEdge, adjacency: map<Package, set<Package>>)
    requires IsReverseAdjacency(edges, adjacency)
    ensures var importers := if edge.to in adjacency then adjacency[edge.to] else {};
            IsReverseAdjacency(edges + [edge], adjacency[edge.to := importers + {edge.from}])
  {
    forall p
      ensures ImportersOf(edges + [edge], p) == ImportersOf(edges, p) + if p == edge.to then {edge.from} else {}
    {
      OneMoreImporter(edges, edge, p);
    }
    hide ImportersOf;
  }

  /** The packages with an import path, of any length, to a seed. */
  ghost predicate ImportsSeed(g: set<(Package, Package)>, seeds: set<Package>, x: Package)
  {
    exists s :: s in seeds && Reaches(g, x, s)
  }

  /** All importers of the visited packages outside the queue have been visited. */
  ghost predicate Expanded(edges: seq<ImportEdge>, visited: set<Package>, queue: seq<Package>)
  {
    forall p :: p in visited && p !in queue ==> ImportersOf(edges, p) <= visited
  }

  method Enqueue(seeds: set<Package>) returns (queue: seq<Package>)
    ensures forall p :: p in queue <==> p in seeds
  {
    queue := [];
    var rest := seeds;
    while rest != {}
      invariant rest <= seeds
      invariant forall p :: p in queue <==> p in seeds - rest
      decreases |rest|
    {
      var s :| s in rest;
      queue := queue + [s];
      rest := rest - {s};
    }
  }

  /** `adjacency` maps each imported package to its importers. */
  ghost predicate IsReverseAdjacency(edges: seq<ImportEdge>, adjacency: map<Package, set<Package>>)
  {
    && (forall p :: p in adjacency <==> ImportersOf(edges, p) != {})
    && (forall p :: p in adjacency ==> adjacency[p] == ImportersOf(edges, p))
  }

  ghost predicate AllImportSeed(r: set<(Package, Package)>, seeds: set<Package>, visited: set<Package>)
  {
    forall x :: x in visited ==> ImportsSeed(r, seeds, x)
  }

  method ReverseBfs(adjacency: map<Package, set<Package>>, seeds: set<Package>, ghost edges: seq<ImportEdge>)
    returns (visited: set<Package>)
    requires IsReverseAdjacency(edges, adjacency)
    ensures forall x :: x in visited <==> ImportsSeed(ImportRelation(edges), seeds, x)
  {
    hide IsReverseAdjacency, Expanded, ImportersOf, ImportsSeed, AllImportSeed, ImportRelation, Reaches;
    visited := seeds;
    var queue := Enqueue(seeds);
    ghost var universe := seeds + set e | e in edges :: e.from;
    SeedsImportSeed(edges, seeds, queue);
    while queue != []
      invariant seeds <= visited <= universe
      invariant Expanded(edges, visited, queue)
      invariant AllImportSeed(ImportRelation(edges), seeds, visited)
      invariant forall p :: p in queue ==> p in visited
      decreases universe - visited, |queue|
    {
      var node := queue[0];
      assert node in queue;
      ghost var visited0, queue0 := visited, queue;
      queue := queue[1..];
      assert queue0 == [node] + queue;
      NodeImporters(edges, adjacency, seeds, visited, node);
      if node in adjacency {
        visited, queue := VisitAll(adjacency[node], visited, queue);
      }
      StillExpanded(edges, visited0, queue0, visited, queue);
      FewerLeft(universe, visited0, visited);
    }
    ExpandedIsComplete(edges, seeds, visited);
    AllImport(ImportRelation(edges), seeds, visited);
  }

  lemma FewerLeft(universe: set<Package>, visited: set<Package>, visited': set<Package>)
    requires visited <= visited' <= universe
    ensures visited == visited' || universe - visited' < universe - visited
  {
    if visited != visited' {
      var p :| p in visited' && p !in visited;
      assert p in universe - visited && p !in universe - visited';
    }
  }

  lemma AllImport(r: set<(Package, Package)>, seeds: set<Package>, visited: set<Package>)
    requires AllImportSeed(r, seeds, visited)
    ensures forall x :: x in visited ==> ImportsSeed(r, seeds, x)
  {
  }

  lemma SeedsImportSeed(edges: seq<ImportEdge>, seeds: set<Package>, queue: seq<Package>)
    requires forall p :: p in queue <==> p in seeds
    ensures AllImportSeed(ImportRelation(edges), seeds, seeds)
    ensures Expanded(edges, seeds, queue)
  {
    forall s | s in seeds ensures ImportsSeed(ImportRelation(edges), seeds, s) {
      ReachesSelf(ImportRelation(edges), s);
    }
  }

  /** The importers of a visited package, and what may be assumed of them. */
  lemma NodeImporters(edges: seq<ImportEdge>, adjacency: map<Package, set<Package>>, seeds: set<Package>,
                      visited: set<Package>, node: Package)
    requires IsReverseAdjacency(edges, adjacency) && node in visited
    requires AllImportSeed(ImportRelation(edges), seeds, visited)
    ensures node in adjacency ==> adjacency[node] == ImportersOf(edges, node)
    ensures node !in adjacency ==> ImportersOf(edges, node) == {}
    ensures ImportersOf(edges, node) <= set e | e in edges :: e.from
    ensures AllImportSeed(ImportRelation(edges), seeds, visited + ImportersOf(edges, node))
  {
    ImportersImport(edges, seeds, node);
  }

  lemma StillExpanded(edges: seq<ImportEdge>, visited: set<Package>, queue: seq<Package>,
                      visited': set<Package>, queue': seq<Package>)
    requires queue != [] && Expanded(edges, visited, queue)
    requires visited' == visited + ImportersOf(edges, queue[0])
    requires forall p :: p in queue' <==> p in queue[1..] || p in visited' - visited
    ensures Expanded(edges, visited', queue')
  {
    assert queue == [queue[0]] + queue[1..];
    hide ImportersOf;
  }

  lemma ImportersImport(edges: seq<ImportEdge>, seeds: set<Package>, node: Package)
    requires ImportsSeed(ImportRelation(edges), seeds, node)
    ensures forall p :: p in ImportersOf(edges, node) ==> ImportsSeed(ImportRelation(edges), seeds, p)
  {
    var r := ImportRelation(edges);
    forall p | p in ImportersOf(edges, node) ensures ImportsSeed(r, seeds, p) {
      var s :| s in seeds && Reaches(r, node, s);
      assert (p, node) in r;
      ReachesEdge(r, p, node);
      ReachesTrans(r, p, node, s);
    }
  }

  lemma ExpandedIsComplete(edges: seq<ImportEdge>, seeds: set<Package>, visited: set<Package>)
    requires seeds <= visited && Expanded(edges, visited, [])
    ensures forall x :: ImportsSeed(ImportRelation(edges), seeds, x) ==> x in visited
  {
    var r := ImportRelation(edges);
    forall x | ImportsSeed(r, seeds, x) ensures x in visited {
      var s :| s in seeds && Reaches(r, x, s);
      forall e | e in r && e.1 in visited ensures e.0 in visited {
        assert e.0 in ImportersOf(edges, e.1);
      }
      ClosedBackwardsReaches(r, visited, x, s);
    }
  }

  method VisitAll(importers: set<Package>, visited0: set<Package>, queue0: seq<Package>)
    returns (visited: set<Package>, queue: seq<Package>)
    ensures visited == visited0 + importers
    ensures queue0 <= queue && (visited == visited0 ==> queue == queue0)
    ensures forall p :: p in queue <==> p in queue0 || p in importers - visited0
  {
    visited, queue := visited0, queue0;
    var rest := importers;
    while rest != {}
      invariant rest <= importers
      invariant visited == visited0 + (importers - rest)
      invariant queue0 <= queue && (visited == visited0 ==> queue == queue0)
      invariant forall p :: p in queue <==> p in queue0 || p in (importers - rest) - visited0
      decreases |rest|
    {
      var importer :| importer in rest;
      if importer !in visited {
        visited := visited + {importer};
        queue := queue + [importer];
      }
      rest := rest - {importer};
    }
  }

  // ---------------------------------------------------------------------------
  // The package index
  // ---------------------------------------------------------------------------

  ghost predicate Lists(pkg: PackageNode, f: FilePath)
  {
    f in pkg.files
  }

  /** `f` lies directly in `dir`. */
  predicate LiesIn(f: FilePath, dir: FilePath)
  {
    |f| == |dir| + 1 && dir <= f
  }

  lemma ParentIff(f: FilePath, dir: FilePath)
    ensures Parent(f) == Some(dir) <==> LiesIn(f, dir)
  {
    if LiesIn(f, dir) {
      assert dir == f[..|dir|];
    }
  }

  ghost predicate HasFileIn(pkg: PackageNode, dir: FilePath)
  {
    exists f :: f in pkg.files && LiesIn(f, dir)
  }

  /** The last package, in model order, that lists `f`. */
  ghost predicate OwnsFile(packages: seq<PackageNode>, f: FilePath, p: Package)
  {
    exists i :: 0 <= i < |packages| && packages[i].path == p && Lists(packages[i], f)
                && forall j :: i < j < |packages| ==> !Lists(packages[j], f)
  }

  /** The first package, in model order, with a file directly in `dir`. */
  ghost predicate OwnsDirectory(packages: seq<PackageNode>, dir: FilePath, p: Package)
  {
    exists i :: 0 <= i < |packages| && packages[i].path == p && HasFileIn(packages[i], dir)
                && forall j :: 0 <= j < i ==> !HasFileIn(packages[j], dir)
  }

  ghost predicate FilesIndexed(packages: seq<PackageNode>, byFile: map<FilePath, Package>)
  {
    && (forall f :: f in byFile ==> OwnsFile(packages, f, byFile[f]))
    && (forall f, i :: 0 <= i < |packages| && Lists(packages[i], f) ==> f in byFile)
  }

  ghost predicate DirsIndexed(packages: seq<PackageNode>, byDir: map<FilePath, Package>)
  {
    && (forall d :: d in byDir ==> OwnsDirectory(packages, d, byDir[d]))
    && (forall d, i :: 0 <= i < |packages| && HasFileIn(packages[i], d) ==> d in byDir)
  }

  lemma FilesExtended(packages: seq<PackageNode>, pkg: PackageNode, before: map<FilePath, Package>,
                      after: map<FilePath, Package>)
    requires FilesIndexed(packages, before)
    requires forall f :: f in after <==> f in before || Lists(pkg, f)
    requires forall f :: f in after ==> after[f] == if Lists(pkg, f) then pkg.path else before[f]
    ensures FilesIndexed(packages + [pkg], after)
  {
    hide Lists;
    var all := packages + [pkg];
    forall f | f in after ensures OwnsFile(all, f, after[f]) {
      if Lists(pkg, f) {
        assert all[|packages|] == pkg;
      } else {
        assert OwnsFile(packages, f, before[f]);
        var i :| 0 <= i < |packages| && packages[i].path == before[f] && Lists(packages[i], f)
                 && forall j :: i < j < |packages| ==> !Lists(packages[j], f);
        assert all[i] == packages[i];
      }
    }
  }

  lemma DirsExtended(packages: seq<PackageNode>, pkg: PackageNode, before: map<FilePath, Package>,
                     after: map<FilePath, Package>)
    requires DirsIndexed(packages, before)
    requires forall d :: d in after <==> d in before || HasFileIn(pkg, d)
    requires forall d :: d in after ==> after[d] == if d in before then before[d] else pkg.path
    ensures DirsIndexed(packages + [pkg], after)
  {
    hide HasFileIn;
    var all := packages + [pkg];
    forall d | d in after ensures OwnsDirectory(all, d, after[d]) {
      if d in before {
        assert OwnsDirectory(packages, d, before[d]);
        var i :| 0 <= i < |packages| && packages[i].path == before[d] && HasFileIn(packages[i], d)
                 && forall j :: 0 <= j < i ==> !HasFileIn(packages[j], d);
        assert all[i] == packages[i];
      } else {
        assert all[|packages|] == pkg;
      }
    }
  }

  class PackageIndex {
    var byFile: map<FilePath, Package>
    var byDir: map<FilePath, Package>

    constructor (packages: seq<PackageNode>)
      ensures FilesIndexed(packages, byFile) && DirsIndexed(packages, byDir)
    {
      byFile := map[];
      byDir := map[];
      new;
      for i := 0 to |packages|
        invariant FilesIndexed(packages[..i], byFile) && DirsIndexed(packages[..i], byDir)
      {
        ghost var files, dirs := byFile, byDir;
        AddPackage(packages[i]);
        FilesExtended(packages[..i], packages[i], files, byFile);
        DirsExtended(packages[..i], packages[i], dirs, byDir);
        assert packages[..i + 1] == packages[..i] + [packages[i]];
      }
      assert packages[..|packages|] == packages;
    }

    /** Later packages overwrite the owner of a file, but not that of a directory. */
    method AddPackage(pkg: PackageNode)
      modifies this
      ensures forall f :: f in byFile <==> f in old(byFile) || Lists(pkg, f)
      ensures forall f :: f in byFile ==> byFile[f] == if Lists(pkg, f) then pkg.path else old(byFile)[f]
      ensures forall d :: d in byDir <==> d in old(byDir) || HasFileIn(pkg, d)
      ensures forall d :: d in byDir ==> byDir[d] == if d in old(byDir) then old(byDir)[d] else pkg.path
    {
      for k := 0 to |pkg.files|
        invariant forall f :: f in byFile <==> f in old(byFile) || f in pkg.files[..k]
        invariant forall f :: f in byFile ==> byFile[f] == if f in pkg.files[..k] then pkg.path else old(byFile)[f]
        invariant forall d :: d in byDir <==> d in old(byDir) || HasFileIn(PackageNode(pkg.path, pkg.files[..k]), d)
        invariant forall d :: d in byDir ==> byDir[d] == if d in old(byDir) then old(byDir)[d] else pkg.path
      {
        var file := pkg.files[k];
        assert pkg.files[..k + 1] == pkg.files[..k] + [file];
        byFile := byFile[file := pkg.path];
        var parent := Parent(file);
        if parent.Some? {
          ParentIff(file, parent.value);
        }
        if parent.Some? && parent.value !in byDir {
          byDir := byDir[parent.value := pkg.path];
        }
        OneMoreFile(pkg.path, pkg.files[..k], file);
      }
      assert pkg.files[..|pkg.files|] == pkg.files;
    }
  }

  lemma OneMoreFile(path: Package, files: seq<FilePath>, file: FilePath)
    ensures forall d :: HasFileIn(PackageNode(path, files + [file]), d)
                        <==> HasFileIn(PackageNode(path, files), d) || Parent(file) == Some(d)
  {
    hide Parent, LiesIn;
    forall d ensures HasFileIn(PackageNode(path, files + [file]), d)
                     <==> HasFileIn(PackageNode(path, files), d) || Parent(file) == Some(d)
    {
      assert file in files + [file];
      ParentIff(file, d);
      if HasFileIn(PackageNode(path, files), d) {
        var f :| f in files && LiesIn(f, d);
        assert f in files + [file];
      }
    }
  }

  // ---------------------------------------------------------------------------
  // The decision
  // ---------------------------------------------------------------------------

  /** The package of a changed file that still exists. */
  function ResolveChanged(byFile: map<FilePath, Package>, root: FilePath, changed: seq<ChangedFile>): set<Package>
  {
    set e | e in changed && !e.status.Deleted? && root + e.path in byFile :: byFile[root + e.path]
  }

  /** The path that a change took away. */
  function RemovedPath(e: ChangedFile): Option<FilePath>
  {
    var gone := match e.status
                case Deleted => Some(e.path)
                case Renamed(old_) => Some(old_)
                case _ => None;
    if gone.Some? && IsGoPath(gone.value) then gone else None
  }

  /** The package still living in the directory of a removed path. */
  function ResolveRemoved(byDir: map<FilePath, Package>, root: FilePath, path: FilePath): Option<Package>
  {
    var parent := Parent(root + path);
    if parent.Some? && parent.value in byDir then Some(byDir[parent.value]) else None
  }

  /** A file with a name before its extension `.go`. */
  ghost predicate IsGoFile(p: FilePath)
  {
    p != [] && exists stem :: stem != "" && p[|p| - 1] == stem + ".go"
  }

  /** The change took the `.go` file `p` away: it was deleted, or renamed to something else. */
  ghost predicate TakesAway(e: ChangedFile, p: FilePath)
  {
    (e == ChangedFile(p, Deleted) || e.status == Renamed(p)) && IsGoFile(p)
  }

  lemma GoPathIff(p: FilePath)
    ensures IsGoPath(p) <==> IsGoFile(p)
  {
    if IsGoPath(p) {
      var name := p[|p| - 1];
      assert name == name[..|name| - 3] + ".go";
    }
  }

  lemma RemovedPathIff(e: ChangedFile, p: FilePath)
    ensures RemovedPath(e) == Some(p) <==> TakesAway(e, p)
  {
    hide IsGoPath, IsGoFile;
    GoPathIff(p);
  }

  /** The directory of a removed file. */
  function DirOf(root: FilePath, p: FilePath): FilePath
  {
    root + if p == [] then [] else p[..|p| - 1]
  }

  /** The change took the `.go` file `p` away, and no package has a file in its directory any more. */
  ghost predicate EmptiesPackage(m: Model, root: FilePath, e: ChangedFile, p: FilePath)
  {
    TakesAway(e, p) && forall i :: 0 <= i < |m.packages| ==> !HasFileIn(m.packages[i], DirOf(root, p))
  }

  /** `pkg` is the package of a changed file, or survives in the directory that a `.go` file was taken away from. */
  ghost predicate IsSeed(m: Model, root: FilePath, changed: seq<ChangedFile>, pkg: Package)
  {
    exists e :: e in changed &&
      ((e.status != Deleted && OwnsFile(m.packages, root + e.path, pkg))
       || exists p :: TakesAway(e, p) && OwnsDirectory(m.packages, DirOf(root, p), pkg))
  }

  /** The first change, in diff order, whose path satisfies `hit`. */
  method FirstHit(changed: seq<ChangedFile>, hit: ChangedFile -> bool) returns (e: Option<ChangedFile>)
    ensures e.None? ==> forall c :: c in changed ==> !hit(c)
    ensures e.Some? ==> exists i :: 0 <= i < |changed| && changed[i] == e.value && hit(changed[i])
                                    && forall j :: 0 <= j < i ==> !hit(changed[j])
  {
    for i := 0 to |changed|
      invariant forall j :: 0 <= j < i ==> !hit(changed[j])
    {
      if hit(changed[i]) {
        return Some(changed[i]);
      }
    }
    return None;
  }

  /** The seed packages, or the first removed path whose directory no package lives in any more. */
  method CollectSeeds(changed: seq<ChangedFile>, root: FilePath, m: Model)
      returns (seeds: set<Package>, gone: Option<FilePath>)
    ensures gone.None? ==> forall e, p :: e in changed ==> !EmptiesPackage(m, root, e, p)
    ensures gone.None? ==> forall p :: p in seeds <==> IsSeed(m, root, changed, p)
    ensures gone.Some?
            ==> exists i :: 0 <= i < |changed| && EmptiesPackage(m, root, changed[i], gone.value)
                            && forall j, p :: 0 <= j < i ==> !EmptiesPackage(m, root, changed[j], p)
  {
    hide OwnsFile, OwnsDirectory, EmptiesPackage, IsSeed, FilesIndexed, DirsIndexed;
    var index := new PackageIndex(m.packages);
    var byFile, byDir := index.byFile, index.byDir;
    seeds := ResolveChanged(byFile, root, changed);
    for i := 0 to |changed|
      invariant forall k, p :: 0 <= k < i ==> !EmptiesPackage(m, root, changed[k], p)
      invariant seeds == ResolveChanged(byFile, root, changed) + SurvivorsOf(byDir, root, changed[..i])
    {
      assert changed[..i + 1] == changed[..i] + [changed[i]];
      forall p ensures EmptiesPackage(m, root, changed[i], p)
                       <==> RemovedPath(changed[i]) == Some(p) && ResolveRemoved(byDir, root, p).None?
      {
        RemovedIffNoDirectory(m, root, changed[i], p, byDir);
      }
      SurvivorsStep(byDir, root, changed[..i], changed[i]);
      var removed := RemovedPath(changed[i]);
      if removed.Some? {
        var key := ResolveRemoved(byDir, root, removed.value);
        if key.None? {
          return {}, removed;
        }
        seeds := seeds + {key.value};
      }
    }
    assert changed[..|changed|] == changed;
    SeedsAreRight(m, root, changed, byFile, byDir);
    gone := None;
  }

  /** The answer is the importers, of any depth, of the seeds. */
  ghost predicate IsClosure(m: Model, root: FilePath, changed: seq<ChangedFile>, packages: set<Package>)
  {
    forall x :: x in packages
        <==> exists s :: IsSeed(m, root, changed, s) && Reaches(ImportRelation(m.importEdges), x, s)
  }

  /** `globHit` and `clauseChanged` are the answers of the glob matcher and of the diff reader. */
  method ComputeAffected(diff: Option<seq<ChangedFile>>, globHit: FilePath -> bool, clauseChanged: FilePath -> bool,
                         root: FilePath, m: Model) returns (result: AffectedResult)
    ensures diff.None? <==> result == BailOut(ShallowCloneOrNoCommonHistory)
    ensures result.BailOut? && result.reason.GlobMatched? <==>
              diff.Some? && exists e :: e in diff.value && globHit(e.path)
    ensures result.BailOut? && result.reason.PackageClauseChanged? <==>
              && diff.Some? && (forall e :: e in diff.value ==> !globHit(e.path))
              && exists e :: e in diff.value && e.status.Modified? && clauseChanged(e.path)
    ensures result.BailOut? && result.reason.PackageFullyRemoved? <==>
              && diff.Some?
              && (forall e :: e in diff.value ==> !globHit(e.path) && !(e.status.Modified? && clauseChanged(e.path)))
              && exists e, p :: e in diff.value && EmptiesPackage(m, root, e, p)
    ensures result.Packages? ==> IsClosure(m, root, diff.value, result.packages)
    // each bail-out names the first path, in diff order, that causes it
    ensures result.BailOut? && result.reason.GlobMatched? ==>
              exists i :: 0 <= i < |diff.value| && diff.value[i].path == result.reason.path
                          && globHit(diff.value[i].path)
                          && forall j :: 0 <= j < i ==> !globHit(diff.value[j].path)
    ensures result.BailOut? && result.reason.PackageClauseChanged? ==>
              exists i :: 0 <= i < |diff.value| && diff.value[i].path == result.reason.path
                          && diff.value[i].status.Modified? && clauseChanged(diff.value[i].path)
                          && forall j :: 0 <= j < i
                               ==> !(diff.value[j].status.Modified? && clauseChanged(diff.value[j].path))
    ensures result.BailOut? && result.reason.PackageFullyRemoved? ==>
              exists i :: 0 <= i < |diff.value| && EmptiesPackage(m, root, diff.value[i], result.reason.path)
                          && forall j, p :: 0 <= j < i ==> !EmptiesPackage(m, root, diff.value[j], p)
  {
    if diff.None? {
      return BailOut(ShallowCloneOrNoCommonHistory);
    }
    hide Reaches, EmptiesPackage, IsSeed, IsClosure;
    var changed := diff.value;
    if changed == [] {
      NothingChanged(m, root);
      return Packages({});
    }
    var hit := FirstHit(changed, (e: ChangedFile) => globHit(e.path));
    if hit.Some? {
      return BailOut(GlobMatched(hit.value.path));
    }
    hit := FirstHit(changed, (e: ChangedFile) => e.status.Modified? && clauseChanged(e.path));
    if hit.Some? {
      return BailOut(PackageClauseChanged(hit.value.path));
    }
    var seeds, gone := CollectSeeds(changed, root, m);
    if gone.Some? {
      return BailOut(PackageFullyRemoved(gone.value));
    }
    var adjacency := BuildReverseAdjacency(m.importEdges);
    var affected := ReverseBfs(adjacency, seeds, m.importEdges);
    ClosureOfSeeds(m, root, changed, seeds, affected);
    result := Packages(affected);
  }

  lemma NothingChanged(m: Model, root: FilePath)
    ensures IsClosure(m, root, [], {})
  {
    hide Reaches;
  }

  lemma ClosureOfSeeds(m: Model, root: FilePath, changed: seq<ChangedFile>, seeds: set<Package>, affected: set<Package>)
    requires forall p :: p in seeds <==> IsSeed(m, root, changed, p)
    requires forall x :: x in affected <==> ImportsSeed(ImportRelation(m.importEdges), seeds, x)
    ensures IsClosure(m, root, changed, affected)
  {
    hide Reaches, IsSeed;
    var r := ImportRelation(m.importEdges);
    forall x ensures x in affected <==> exists s :: IsSeed(m, root, changed, s) && Reaches(r, x, s) {
      if x in affected {
        var s :| s in seeds && Reaches(r, x, s);
        assert IsSeed(m, root, changed, s) && Reaches(r, x, s);
      }
    }
  }

  function SurvivorsOf(byDir: map<FilePath, Package>, root: FilePath, changed: seq<ChangedFile>): set<Package>
  {
    set e | e in changed && RemovedPath(e).Some? && ResolveRemoved(byDir, root, RemovedPath(e).value).Some?
      :: ResolveRemoved(byDir, root, RemovedPath(e).value).value
  }

  lemma SurvivorsStep(byDir: map<FilePath, Package>, root: FilePath, changed: seq<ChangedFile>, e: ChangedFile)
    ensures SurvivorsOf(byDir, root, changed + [e]) == SurvivorsOf(byDir, root, changed) +
              if RemovedPath(e).Some? && ResolveRemoved(byDir, root, RemovedPath(e).value).Some?
              then {ResolveRemoved(byDir, root, RemovedPath(e).value).value} else {}
  {
    hide RemovedPath, ResolveRemoved;
  }

  lemma RemovedIffNoDirectory(m: Model, root: FilePath, e: ChangedFile, p: FilePath, byDir: map<FilePath, Package>)
    requires DirsIndexed(m.packages, byDir)
    ensures EmptiesPackage(m, root, e, p) <==> RemovedPath(e) == Some(p) && ResolveRemoved(byDir, root, p).None?
  {
    hide HasFileIn, RemovedPath, TakesAway;
    RemovedPathIff(e, p);
    if TakesAway(e, p) {
      RemovedDirectory(root, e, p);
      var d := DirOf(root, p);
      if d in byDir {
        assert OwnsDirectory(m.packages, d, byDir[d]);
      }
    }
  }

  lemma RemovedDirectory(root: FilePath, e: ChangedFile, p: FilePath)
    requires TakesAway(e, p)
    ensures Parent(root + p) == Some(DirOf(root, p))
  {
    assert root + p[..|p| - 1] == (root + p)[..|root + p| - 1];
  }

  lemma SeedsAreRight(m: Model, root: FilePath, changed: seq<ChangedFile>, byFile: map<FilePath, Package>,
                      byDir: map<FilePath, Package>)
    requires FilesIndexed(m.packages, byFile) && DirsIndexed(m.packages, byDir)
    ensures forall pkg :: pkg in ResolveChanged(byFile, root, changed) + SurvivorsOf(byDir, root, changed)
              <==> IsSeed(m, root, changed, pkg)
  {
    hide *;
    forall pkg ensures pkg in ResolveChanged(byFile, root, changed) <==> ChangedSeed(m, root, changed, pkg) {
      ResolvedAreSeeds(m, root, changed, byFile, pkg);
    }
    forall pkg ensures pkg in SurvivorsOf(byDir, root, changed) <==> SurvivingSeed(m, root, changed, pkg) {
      SurvivorsAreSeeds(m, root, changed, byDir, pkg);
    }
    forall pkg
      ensures IsSeed(m, root, changed, pkg)
              <==> ChangedSeed(m, root, changed, pkg) || SurvivingSeed(m, root, changed, pkg)
    {
      SeedKinds(m, root, changed, pkg);
    }
  }

  ghost predicate ChangedSeed(m: Model, root: FilePath, changed: seq<ChangedFile>, pkg: Package)
  {
    exists e :: e in changed && e.status != Deleted && OwnsFile(m.packages, root + e.path, pkg)
  }

  ghost predicate SurvivingSeed(m: Model, root: FilePath, changed: seq<ChangedFile>, pkg: Package)
  {
    exists e, p :: e in changed && TakesAway(e, p) && OwnsDirectory(m.packages, DirOf(root, p), pkg)
  }

  lemma SeedKinds(m: Model, root: FilePath, changed: seq<ChangedFile>, pkg: Package)
    ensures IsSeed(m, root, changed, pkg)
            <==> ChangedSeed(m, root, changed, pkg) || SurvivingSeed(m, root, changed, pkg)
  {
    hide OwnsFile, OwnsDirectory, TakesAway, DirOf;
  }

  lemma OwnerIsUnique(packages: seq<PackageNode>, f: FilePath, p: Package, q: Package)
    ensures OwnsFile(packages, f, p) && OwnsFile(packages, f, q) ==> p == q
    ensures OwnsDirectory(packages, f, p) && OwnsDirectory(packages, f, q) ==> p == q
  {
    hide Lists, HasFileIn;
  }

  lemma ResolvedAreSeeds(m: Model, root: FilePath, changed: seq<ChangedFile>, byFile: map<FilePath, Package>,
                         pkg: Package)
    requires FilesIndexed(m.packages, byFile)
    ensures pkg in ResolveChanged(byFile, root, changed) <==> ChangedSeed(m, root, changed, pkg)
  {
    forall f ensures f in byFile && byFile[f] == pkg <==> OwnsFile(m.packages, f, pkg) {
      FileOwner(m.packages, byFile, f, pkg);
    }
    hide OwnsFile, FilesIndexed;
  }

  lemma FileOwner(packages: seq<PackageNode>, byFile: map<FilePath, Package>, f: FilePath, pkg: Package)
    requires FilesIndexed(packages, byFile)
    ensures f in byFile && byFile[f] == pkg <==> OwnsFile(packages, f, pkg)
  {
    hide Lists;
    if OwnsFile(packages, f, pkg) {
      assert f in byFile;
      hide OwnsFile;
      OwnerIsUnique(packages, f, pkg, byFile[f]);
    }
  }

  lemma DirectoryOwner(packages: seq<PackageNode>, byDir: map<FilePath, Package>, d: FilePath, pkg: Package)
    requires DirsIndexed(packages, byDir)
    ensures d in byDir && byDir[d] == pkg <==> OwnsDirectory(packages, d, pkg)
  {
    hide HasFileIn;
    if OwnsDirectory(packages, d, pkg) {
      assert d in byDir;
      hide OwnsDirectory;
      OwnerIsUnique(packages, d, pkg, byDir[d]);
    }
  }

  lemma SurvivorsAreSeeds(m: Model, root: FilePath, changed: seq<ChangedFile>, byDir: map<FilePath, Package>,
                          pkg: Package)
    requires DirsIndexed(m.packages, byDir)
    ensures pkg in SurvivorsOf(byDir, root, changed) <==> SurvivingSeed(m, root, changed, pkg)
  {
    forall e, p | TakesAway(e, p)
      ensures ResolveRemoved(byDir, root, p) == Some(pkg) <==> OwnsDirectory(m.packages, DirOf(root, p), pkg)
    {
      RemovedDirectory(root, e, p);
      DirectoryOwner(m.packages, byDir, DirOf(root, p), pkg);
    }
    forall e, p ensures RemovedPath(e) == Some(p) <==> TakesAway(e, p) {
      RemovedPathIff(e, p);
    }
    hide RemovedPath, ResolveRemoved, TakesAway, OwnsDirectory, DirOf, DirsIndexed;
  }

  // ---------------------------------------------------------------------------
  // What a narrowed answer promises
  // ---------------------------------------------------------------------------

  /** It holds the package of every changed file that is still there, and of every directory a `.go` file left. */
  lemma AnswerHoldsSeeds(m: Model, root: FilePath, changed: seq<ChangedFile>, packages: set<Package>, p: Package)
    requires IsClosure(m, root, changed, packages) && IsSeed(m, root, changed, p)
    ensures p in packages
  {
    ReachesSelf(ImportRelation(m.importEdges), p);
  }

  /** In particular of the directory that a deleted or renamed `.go` file was in. */
  lemma AnswerHoldsSurvivor(m: Model, root: FilePath, changed: seq<ChangedFile>, packages: set<Package>, e: ChangedFile,
                            p: FilePath, pkg: Package)
    requires IsClosure(m, root, changed, packages) && e in changed
    requires (e == ChangedFile(p, Deleted) || e.status == Renamed(p)) && IsGoFile(p)
    requires OwnsDirectory(m.packages, DirOf(root, p), pkg)
    ensures pkg in packages
  {
    hide OwnsDirectory, OwnsFile, IsClosure, IsGoFile;
    assert TakesAway(e, p);
    AnswerHoldsSeeds(m, root, changed, packages, pkg);
  }

  /** It is closed under importers, and nothing smaller that holds the seeds is. */
  lemma AnswerIsLeastClosed(m: Model, root: FilePath, changed: seq<ChangedFile>, packages: set<Package>,
                            other: set<Package>)
    requires IsClosure(m, root, changed, packages)
    ensures ClosedBackwards(ImportRelation(m.importEdges), packages)
    ensures ClosedBackwards(ImportRelation(m.importEdges), other)
            && (forall p :: IsSeed(m, root, changed, p) ==> p in other) ==>
              packages <= other
  {
    var r := ImportRelation(m.importEdges);
    forall e | e in r && e.1 in packages ensures e.0 in packages {
      var s :| IsSeed(m, root, changed, s) && Reaches(r, e.1, s);
      ReachesEdge(r, e.0, e.1);
      ReachesTrans(r, e.0, e.1, s);
    }
    if ClosedBackwards(r, other) && forall p :: IsSeed(m, root, changed, p) ==> p in other {
      forall x | x in packages ensures x in other {
        var s :| IsSeed(m, root, changed, s) && Reaches(r, x, s);
        ClosedBackwardsReaches(r, other, x, s);
      }
    }
  }
}
