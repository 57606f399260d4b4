/** The meaning of loading a module graph, without a cache: a depth-first walk over
    "pinned module, else overlay, else disk". `ModuleLoader` is proved against it. */
module ImportGraph {
  type Path = string
  type Specifier = string
  type NodeId = nat

  datatype Option<+T> = None | Some(value: T)

  datatype LoadError =
    | ImportCycle(cycle: seq<Path>)
    | NotFound(path: Path)
    | ParseFailure(path: Path)
    | IncludeNotFound(path: Path, specifier: Specifier)

  datatype Result<+T> = Success(value: T) | Failure(error: LoadError) {
    predicate IsFailure() { Failure? }
    function PropagateFailure<U>(): Result<U> requires Failure? { Failure(error) }
    function Extract(): T requires Success? { value }
  }

  /** The import and include sites of a parsed source, in order and with repetitions. */
  datatype Syntax = Syntax(imports: seq<Specifier>, includes: seq<Specifier>)

  /** The parser and the two path resolvers. Resolved paths are already absolute. */
  datatype Language = Language(
    parse: string -> Option<Syntax>,
    resolve: (Specifier, Path) -> Path,
    resolveInclude: (Specifier, Path) -> Path)

  datatype Storage = SourceFile | Snapshot

  datatype Included = Included(specifier: Specifier, path: Path, source: string)
  datatype Edge = Edge(specifier: Specifier, path: Path)

  /** What one module contributes by itself. */
  datatype Inputs = Inputs(storage: Storage, source: string, edges: seq<Edge>)

  /** A module whose revision is fixed, whatever the disk and the overlays say. */
  datatype Pinned = Pinned(storage: Storage, source: string, edges: seq<Edge>, includes: seq<Included>)

  datatype World = World(
    language: Language,
    disk: map<Path, string>,
    overlays: map<Path, string>,
    ghost pinned: map<Path, Pinned>)

  datatype Tree = Tree(
    path: Path, storage: Storage, source: string, includes: seq<Included>,
    dependencies: seq<Dependency>)
  datatype Dependency = Dependency(specifier: Specifier, target: Tree)

  /* ---------- what a path contributes by itself ---------- */

  /** First occurrences, in order: `[...new Set(values)]`. */
  function Distinct<T(==,!new)>(values: seq<T>): (r: seq<T>)
    ensures forall v :: v in r <==> v in values
    ensures forall i, j :: 0 <= i < j < |r| ==> r[i] != r[j]
  {
    if values == [] then []
    else
      var init := Distinct(values[..|values| - 1]);
      var last := values[|values| - 1];
      assert values == values[..|values| - 1] + [last];
      if last in init then init else init + [last]
  }

  /** Overlay text always wins over the disk revision. */
  function EffectiveSource(w: World, path: Path): Option<string> {
    if path in w.overlays then Some(w.overlays[path])
    else if path in w.disk then Some(w.disk[path])
    else None
  }

  function ImportEdges(language: Language, path: Path, specifiers: seq<Specifier>): (r: seq<Edge>)
    ensures |r| == |specifiers|
    ensures forall i :: 0 <= i < |r| ==> r[i] == Edge(specifiers[i], language.resolve(specifiers[i], path))
  {
    seq(|specifiers|, i requires 0 <= i < |specifiers| =>
      Edge(specifiers[i], language.resolve(specifiers[i], path)))
  }

  ghost function OwnInputs(w: World, path: Path): Result<Inputs> {
    if path in w.pinned then
      Success(Inputs(w.pinned[path].storage, w.pinned[path].source, w.pinned[path].edges))
    else match EffectiveSource(w, path)
      case None => Failure(NotFound(path))
      case Some(source) =>
        match w.language.parse(source)
        case None => Failure(ParseFailure(path))
        case Some(syntax) =>
          Success(Inputs(SourceFile, source,
                         ImportEdges(w.language, path, Distinct(syntax.imports))))
  }

  /** Included files are read from disk only; an overlay does not shadow them. */
  function ReadIncludes(w: World, path: Path, specifiers: seq<Specifier>): (r: Result<seq<Included>>)
    ensures r.Success? ==> |r.value| == |specifiers|
  {
    if specifiers == [] then Success([])
    else
      var included := w.language.resolveInclude(specifiers[0], path);
      if included !in w.disk then Failure(IncludeNotFound(path, specifiers[0]))
      else
        var rest :- ReadIncludes(w, path, specifiers[1..]);
        Success([Included(specifiers[0], included, w.disk[included])] + rest)
  }

  ghost function OwnIncludes(w: World, path: Path): Result<seq<Included>>
    requires OwnInputs(w, path).Success?
  {
    if path in w.pinned then Success(w.pinned[path].includes)
    else
      ReadIncludes(w, path,
                   Distinct(w.language.parse(EffectiveSource(w, path).value).value.includes))
  }

  /* ---------- the uncached load ---------- */

  ghost function Universe(w: World): set<Path> {
    w.pinned.Keys + w.overlays.Keys + w.disk.Keys
  }

  function PathSet(active: seq<Path>): set<Path> {
    set p | p in active
  }

  function IndexOf(active: seq<Path>, path: Path): (i: nat)
    requires path in active
    ensures i < |active| && active[i] == path && path !in active[..i]
  {
    if active[0] == path then 0 else 1 + IndexOf(active[1..], path)
  }

  ghost function Remaining(w: World, active: seq<Path>): nat {
    |Universe(w) - PathSet(active)|
  }

  lemma RemainingShrinks(w: World, active: seq<Path>, path: Path)
    requires path in Universe(w) && path !in active
    ensures Remaining(w, active + [path]) < Remaining(w, active)
  {
    var before := Universe(w) - PathSet(active);
    var after := Universe(w) - PathSet(active + [path]);
    assert path in active + [path];
    assert after <= before - {path};
    SubsetSize(after, before - {path});
  }

  lemma SubsetSize<T>(a: set<T>, b: set<T>)
    requires a <= b
    ensures |a| <= |b|
  {
    if a != {} {
      var x :| x in a;
      SubsetSize(a - {x}, b - {x});
    }
  }

  /** A from-scratch recursive load: no cache and no memo. It terminates on every file set
      because the active paths are distinct existing modules. */
  ghost function Load(w: World, path: Path, active: seq<Path>): Result<Tree>
    decreases Remaining(w, active), 1, 0
  {
    if path in active then Failure(ImportCycle(active[IndexOf(active, path)..] + [path]))
    else
      var own :- OwnInputs(w, path);
      RemainingShrinks(w, active, path);
      var dependencies :- LoadEdges(w, own.edges, active + [path]);
      var includes :- OwnIncludes(w, path);
      Success(Tree(path, own.storage, own.source, includes, dependencies))
  }

  ghost function LoadEdges(w: World, edges: seq<Edge>, active: seq<Path>): (r: Result<seq<Dependency>>)
    decreases Remaining(w, active), 2, |edges|
  {
    if edges == [] then Success([])
    else
      var target :- Load(w, edges[0].path, active);
      var rest :- LoadEdges(w, edges[1..], active);
      Success([Dependency(edges[0].specifier, target)] + rest)
  }

  /* ---------- import paths: when a load can fail with a cycle ---------- */

  /** `from` imports `to` directly. */
  ghost predicate Imports(w: World, from: Path, to: Path) {
    OwnInputs(w, from).Success? &&
    exists i :: 0 <= i < |OwnInputs(w, from).value.edges| && OwnInputs(w, from).value.edges[i].path == to
  }

  ghost predicate Chain(w: World, p: seq<Path>) {
    p != [] && forall i :: 0 < i < |p| ==> Imports(w, p[i - 1], p[i])
  }

  /** A walk along import edges. */
  ghost predicate Walk(w: World, from: Path, to: Path, p: seq<Path>) {
    Chain(w, p) && p[0] == from && p[|p| - 1] == to
  }

  ghost predicate Reaches(w: World, from: Path, to: Path) {
    exists p :: Walk(w, from, to, p)
  }

  ghost predicate IsCycle(w: World, p: seq<Path>) {
    |p| >= 2 && Chain(w, p) && p[0] == p[|p| - 1]
  }

  /* ---------- trees that a load can return ---------- */

  ghost predicate Denotes(w: World, t: Tree)
    decreases t
  {
    && OwnInputs(w, t.path).Success?
    && OwnIncludes(w, t.path) == Success(t.includes)
    && var own := OwnInputs(w, t.path).value;
    && t.storage == own.storage
    && t.source == own.source
    && |t.dependencies| == |own.edges|
    && forall i {:trigger t.dependencies[i]} :: 0 <= i < |t.dependencies| ==>
         && t.dependencies[i].specifier == own.edges[i].specifier
         && t.dependencies[i].target.path == own.edges[i].path
         && Denotes(w, t.dependencies[i].target)
  }

  ghost function Paths(t: Tree): set<Path>
    decreases t
  {
    {t.path} + set i, p | 0 <= i < |t.dependencies| && p in Paths(t.dependencies[i].target) :: p
  }

  ghost function DependencyPaths(ds: seq<Dependency>): set<Path> {
    set i, p | 0 <= i < |ds| && p in Paths(ds[i].target) :: p
  }

  function Size(t: Tree): nat
    decreases t
  {
    1 + SizeOf(t.dependencies)
  }

  function SizeOf(ds: seq<Dependency>): nat
    decreases ds
  {
    if ds == [] then 0 else Size(ds[0].target) + SizeOf(ds[1..])
  }

  lemma {:induction false} SizeOfMember(ds: seq<Dependency>, i: nat)
    requires i < |ds|
    ensures Size(ds[i].target) <= SizeOf(ds)
  {
    if i > 0 {
      SizeOfMember(ds[1..], i - 1);
    }
  }

  /** A path determines its tree: no two revisions of one module coexist in one load. */
  lemma {:induction false} DenotesUnique(w: World, t: Tree, u: Tree)
    requires Denotes(w, t) && Denotes(w, u) && t.path == u.path
    ensures t == u
    decreases t
  {
    forall i | 0 <= i < |t.dependencies|
      ensures t.dependencies[i] == u.dependencies[i]
    {
      DenotesUnique(w, t.dependencies[i].target, u.dependencies[i].target);
    }
  }

  lemma {:induction false} SubtreeAt(w: World, t: Tree, p: Path) returns (s: Tree)
    requires Denotes(w, t) && p in Paths(t)
    ensures Denotes(w, s) && s.path == p && Size(s) <= Size(t) && Paths(s) <= Paths(t)
    ensures p != t.path ==> Size(s) < Size(t)
    decreases t
  {
    if p == t.path {
      s := t;
    } else {
      var i :| 0 <= i < |t.dependencies| && p in Paths(t.dependencies[i].target);
      s := SubtreeAt(w, t.dependencies[i].target, p);
      SizeOfMember(t.dependencies, i);
    }
  }

  /** A module never occurs below itself in a tree that a load returned. */
  lemma {:induction false} DenotesAcyclic(w: World, t: Tree)
    requires Denotes(w, t)
    ensures t.path !in DependencyPaths(t.dependencies)
  {
    if t.path in DependencyPaths(t.dependencies) {
      var i :| 0 <= i < |t.dependencies| && t.path in Paths(t.dependencies[i].target);
      var s := SubtreeAt(w, t.dependencies[i].target, t.path);
      DenotesUnique(w, s, t);
      SizeOfMember(t.dependencies, i);
    }
  }

  lemma {:induction false} LoadSound(w: World, path: Path, active: seq<Path>)
    requires Load(w, path, active).Success?
    ensures var t := Load(w, path, active).value;
            t.path == path && Denotes(w, t) && Paths(t) !! PathSet(active)
    decreases Remaining(w, active), 1, 0
  {
    var own := OwnInputs(w, path).value;
    RemainingShrinks(w, active, path);
    LoadEdgesSound(w, own.edges, active + [path]);
    var t := Load(w, path, active).value;
    PathsOf(t);
    AppendedPaths(active, path);
  }

  lemma PathsOf(t: Tree)
    ensures Paths(t) == {t.path} + DependencyPaths(t.dependencies)
  {
  }

  lemma AppendedPaths(active: seq<Path>, path: Path)
    ensures PathSet(active + [path]) == PathSet(active) + {path}
  {
  }

  lemma {:induction false} LoadEdgesSound(w: World, edges: seq<Edge>, active: seq<Path>)
    requires LoadEdges(w, edges, active).Success?
    ensures var ds := LoadEdges(w, edges, active).value;
            && |ds| == |edges|
            && (forall i {:trigger ds[i]} :: 0 <= i < |ds| ==>
                 && ds[i].specifier == edges[i].specifier
                 && ds[i].target.path == edges[i].path
                 && Denotes(w, ds[i].target))
            && DependencyPaths(ds) !! PathSet(active)
    decreases Remaining(w, active), 2, |edges|
  {
    if edges != [] {
      LoadSound(w, edges[0].path, active);
      LoadEdgesSound(w, edges[1..], active);
      var ds := LoadEdges(w, edges, active).value;
      var rest := LoadEdges(w, edges[1..], active).value;
      forall p | p in DependencyPaths(ds) ensures p !in PathSet(active) {
        var i :| 0 <= i < |ds| && p in Paths(ds[i].target);
        if i > 0 {
          assert ds[i] == rest[i - 1];
          assert p in DependencyPaths(rest);
        }
      }
    }
  }

  lemma {:induction false} LoadComplete(w: World, t: Tree, active: seq<Path>)
    requires Denotes(w, t) && Paths(t) !! PathSet(active)
    ensures Load(w, t.path, active) == Success(t)
    decreases t, 1, 0
  {
    assert t.path in Paths(t);
    RemainingShrinks(w, active, t.path);
    DenotesAcyclic(w, t);
    var own := OwnInputs(w, t.path).value;
    var inner := active + [t.path];
    forall i | 0 <= i < |t.dependencies| ensures Paths(t.dependencies[i].target) !! PathSet(inner) {
      forall p | p in Paths(t.dependencies[i].target) ensures p !in inner {
        assert p in Paths(t) && p in DependencyPaths(t.dependencies);
      }
    }
    LoadEdgesComplete(w, t, own.edges, t.dependencies, inner);
  }

  lemma {:induction false} LoadEdgesComplete(w: World, t: Tree, edges: seq<Edge>, ds: seq<Dependency>, active: seq<Path>)
    requires |ds| == |edges|
    requires forall i :: 0 <= i < |ds| ==> ds[i] in t.dependencies
    requires forall i {:trigger ds[i]} :: 0 <= i < |ds| ==>
               && ds[i].specifier == edges[i].specifier
               && ds[i].target.path == edges[i].path
               && Denotes(w, ds[i].target)
               && Paths(ds[i].target) !! PathSet(active)
    ensures LoadEdges(w, edges, active) == Success(ds)
    decreases t, 0, |edges|
  {
    if edges != [] {
      assert ds[0] in t.dependencies;
      LoadComplete(w, ds[0].target, active);
      LoadEdgesComplete(w, t, edges[1..], ds[1..], active);
      assert ds == [ds[0]] + ds[1..];
    }
  }

  /** An uncached load succeeds exactly when the module has a finite tree that avoids the
      active paths, and then it returns that tree. */
  lemma LoadIffDenotes(w: World, path: Path, active: seq<Path>, t: Tree)
    ensures Load(w, path, active) == Success(t) <==>
            t.path == path && Denotes(w, t) && Paths(t) !! PathSet(active)
  {
    if Load(w, path, active) == Success(t) {
      LoadSound(w, path, active);
    }
    if t.path == path && Denotes(w, t) && Paths(t) !! PathSet(active) {
      LoadComplete(w, t, active);
    }
  }

  /* ---------- cycle errors ---------- */

  lemma ReachesThrough(w: World, from: Path, next: Path, to: Path)
    requires Imports(w, from, next) && Reaches(w, next, to)
    ensures Reaches(w, from, to)
  {
    var p :| Walk(w, next, to, p);
    var q := [from] + p;
    forall i | 0 < i < |q| ensures Imports(w, q[i - 1], q[i]) {
      assert q[i] == p[i - 1];
      assert i > 1 ==> q[i - 1] == p[i - 2];
    }
    assert Walk(w, from, to, q);
  }

  lemma ReachesSelf(w: World, path: Path)
    ensures Reaches(w, path, path)
  {
    assert Walk(w, path, path, [path]);
  }

  lemma ChainExtends(w: World, p: seq<Path>, next: Path)
    requires p == [] || (Chain(w, p) && Imports(w, p[|p| - 1], next))
    ensures Chain(w, p + [next])
  {
    var q := p + [next];
    forall i | 0 < i < |q| ensures Imports(w, q[i - 1], q[i]) {
      if i < |p| {
        assert q[i - 1] == p[i - 1] && q[i] == p[i];
      }
    }
  }

  lemma ChainSlice(w: World, p: seq<Path>, from: nat, to: nat)
    requires Chain(w, p) && from < to <= |p|
    ensures Chain(w, p[from..to]) && Reaches(w, p[from], p[to - 1])
  {
    var q := p[from..to];
    forall i | 0 < i < |q| ensures Imports(w, q[i - 1], q[i]) {
      assert q[i - 1] == p[from + i - 1] && q[i] == p[from + i];
    }
    assert Walk(w, p[from], p[to - 1], q);
  }

  /** A cycle error always names a real cycle of imports that the root reaches. */
  lemma {:induction false} CycleErrorIsReal(w: World, path: Path, active: seq<Path>)
    requires Chain(w, active + [path])
    requires Load(w, path, active).Failure? && Load(w, path, active).error.ImportCycle?
    ensures var c := Load(w, path, active).error.cycle;
            IsCycle(w, c) && Reaches(w, (active + [path])[0], c[0])
    decreases Remaining(w, active), 1, 0
  {
    var stack := active + [path];
    if path in active {
      var k := IndexOf(active, path);
      assert active[k..] + [path] == stack[k..|stack|];
      ChainSlice(w, stack, k, |stack|);
      ChainSlice(w, stack, 0, k + 1);
    } else {
      var own := OwnInputs(w, path).value;
      RemainingShrinks(w, active, path);
      if LoadEdges(w, own.edges, stack).Failure? {
        EdgesCycleErrorIsReal(w, path, own.edges, 0, stack);
      } else {
        assert OwnIncludes(w, path).Failure?;
        IncludeErrors(w, path);
      }
    }
  }

  lemma IncludeErrors(w: World, path: Path)
    requires OwnInputs(w, path).Success? && OwnIncludes(w, path).Failure?
    ensures OwnIncludes(w, path).error.IncludeNotFound?
  {
    ReadIncludesErrors(w, path, Distinct(w.language.parse(EffectiveSource(w, path).value).value.includes));
  }

  lemma {:induction false} ReadIncludesErrors(w: World, path: Path, specifiers: seq<Specifier>)
    requires ReadIncludes(w, path, specifiers).Failure?
    ensures ReadIncludes(w, path, specifiers).error.IncludeNotFound?
  {
    if w.language.resolveInclude(specifiers[0], path) in w.disk {
      ReadIncludesErrors(w, path, specifiers[1..]);
    }
  }

  lemma {:induction false} EdgesCycleErrorIsReal(w: World, path: Path, edges: seq<Edge>, k: nat, stack: seq<Path>)
    requires Chain(w, stack) && stack[|stack| - 1] == path
    requires OwnInputs(w, path).Success? && k <= |OwnInputs(w, path).value.edges|
    requires edges == OwnInputs(w, path).value.edges[k..]
    requires LoadEdges(w, edges, stack).Failure? && LoadEdges(w, edges, stack).error.ImportCycle?
    ensures var c := LoadEdges(w, edges, stack).error.cycle;
            IsCycle(w, c) && Reaches(w, stack[0], c[0])
    decreases Remaining(w, stack), 2, |edges|
  {
    assert OwnInputs(w, path).value.edges[k] == edges[0];
    assert Imports(w, path, edges[0].path);
    if Load(w, edges[0].path, stack).Failure? {
      ChainExtends(w, stack, edges[0].path);
      CycleErrorIsReal(w, edges[0].path, stack);
    } else {
      EdgesCycleErrorIsReal(w, path, edges[1..], k + 1, stack);
    }
  }

  /** Every walk from the root of a returned tree stays inside the tree, and goes down. */
  lemma {:induction false} WalkDescends(w: World, t: Tree, p: seq<Path>, to: Path) returns (s: Tree)
    requires Denotes(w, t) && Walk(w, t.path, to, p)
    ensures Denotes(w, s) && s.path == to && (|p| > 1 ==> Size(s) < Size(t))
    ensures |p| == 1 ==> s == t
    ensures to in Paths(t)
    decreases |p|
  {
    if |p| == 1 {
      s := t;
    } else {
      assert Imports(w, p[0], p[1]);
      var i :| 0 <= i < |OwnInputs(w, t.path).value.edges| && OwnInputs(w, t.path).value.edges[i].path == p[1];
      var d := t.dependencies[i];
      var q := p[1..];
      assert forall j :: 0 < j < |q| ==> q[j - 1] == p[j] && q[j] == p[j + 1];
      assert Walk(w, d.target.path, to, q);
      s := WalkDescends(w, d.target, q, to);
      SizeOfMember(t.dependencies, i);
    }
  }

  lemma CycleMeansFailure(w: World, path: Path, c: seq<Path>)
    requires IsCycle(w, c) && Reaches(w, path, c[0])
    ensures Load(w, path, []).Failure?
  {
    if Load(w, path, []).Success? {
      LoadSound(w, path, []);
      var t := Load(w, path, []).value;
      var p :| Walk(w, path, c[0], p);
      var s := WalkDescends(w, t, p, c[0]);
      assert Walk(w, c[0], c[0], c);
      var u := WalkDescends(w, s, c, c[0]);
      DenotesUnique(w, s, u);
    }
  }

  ghost predicate Readable(w: World, path: Path) {
    OwnInputs(w, path).Success? && OwnIncludes(w, path).Success?
  }

  lemma {:induction false} OnlyCyclesFail(w: World, path: Path, active: seq<Path>)
    requires forall q :: Reaches(w, path, q) ==> Readable(w, q)
    requires Load(w, path, active).Failure?
    ensures Load(w, path, active).error.ImportCycle?
    decreases Remaining(w, active), 1, 0
  {
    if path !in active {
      ReachesSelf(w, path);
      RemainingShrinks(w, active, path);
      OnlyCyclesFailEdges(w, path, OwnInputs(w, path).value.edges, 0, active + [path]);
    }
  }

  lemma {:induction false} OnlyCyclesFailEdges(w: World, path: Path, edges: seq<Edge>, k: nat, active: seq<Path>)
    requires forall q :: Reaches(w, path, q) ==> Readable(w, q)
    requires OwnInputs(w, path).Success? && k <= |OwnInputs(w, path).value.edges|
    requires edges == OwnInputs(w, path).value.edges[k..]
    requires LoadEdges(w, edges, active).Failure?
    ensures LoadEdges(w, edges, active).error.ImportCycle?
    decreases Remaining(w, active), 2, |edges|
  {
    var next := edges[0].path;
    assert OwnInputs(w, path).value.edges[k] == edges[0];
    assert Imports(w, path, next);
    if Load(w, next, active).Failure? {
      forall q | Reaches(w, next, q) ensures Readable(w, q) {
        ReachesThrough(w, path, next, q);
      }
      OnlyCyclesFail(w, next, active);
    } else {
      OnlyCyclesFailEdges(w, path, edges[1..], k + 1, active);
    }
  }

  /** When every reachable module can be read and parsed, loading fails exactly when the
      reachable import graph has a cycle, and then it fails with a cycle error. */
  lemma CycleErrorExactly(w: World, path: Path)
    requires forall q :: Reaches(w, path, q) ==> Readable(w, q)
    ensures Load(w, path, []).Failure? <==> exists c :: IsCycle(w, c) && Reaches(w, path, c[0])
    ensures Load(w, path, []).Failure? ==> Load(w, path, []).error.ImportCycle?
  {
    if Load(w, path, []).Failure? {
      OnlyCyclesFail(w, path, []);
      CycleErrorIsReal(w, path, []);
    } else {
      forall c | IsCycle(w, c) ensures !Reaches(w, path, c[0]) {
        if Reaches(w, path, c[0]) {
          CycleMeansFailure(w, path, c);
        }
      }
    }
  }
}
