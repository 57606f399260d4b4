/** The persistent workspace graph: overlays, dirty marks, roots and staged commits over the
    module cache. Each operation is atomic; a staged state is committed whole or dropped. */
module Workspace {
  import opened ImportGraph
  import opened ModuleLoader

  const MAX_SAFE_INTEGER: int := 0x1F_FFFF_FFFF_FFFF

  datatype Overlay = Overlay(source: string, version: int)

  datatype State = State(
    nodes: seq<Node>, loaded: Cache, overlays: map<Path, Overlay>,
    dirty: set<Path>, roots: set<Path>, overlaySequence: int)

  datatype Reply<+T> =
    | Done(value: T)
    | LoadFailed(error: LoadError)
    | UnsafeVersion(path: Path, version: int)
    | StaleVersion(path: Path, version: int)

  datatype StagedOverlay = StagedOverlay(path: Path, source: string, version: Option<int>)

  predicate Safe(version: int) {
    -MAX_SAFE_INTEGER <= version <= MAX_SAFE_INTEGER
  }

  function Sources(overlays: map<Path, Overlay>): map<Path, string> {
    map p | p in overlays :: overlays[p].source
  }

  /* ---------- the invariant ---------- */

  ghost predicate SelfConsistent(language: Language, nodes: seq<Node>, n: Node)
    requires forall k :: 0 <= k < |n.dependencies| ==> n.dependencies[k].node < |nodes|
  {
    n.storage == SourceFile ==>
      && language.parse(n.source).Some?
      && EdgesOf(nodes, n) == ImportEdges(language, n.path, Distinct(language.parse(n.source).value.imports))
  }

  /** A cached node either waits on a dirty input or agrees with its effective inputs. */
  ghost predicate Current(w: World, nodes: seq<Node>, dirty: set<Path>, path: Path, id: NodeId)
    requires Arena(nodes)
  {
    && id < |nodes| && nodes[id].path == path
    && SelfConsistent(w.language, nodes, nodes[id])
    && (path in w.pinned ==> nodes[id].storage == Snapshot)
    && (OwnsChangedInput(nodes[id], dirty) || Matches(w, nodes, nodes[id]))
  }

  ghost predicate BaseOk(w: World) {
    PinnedOk(w) && forall p :: p in w.pinned ==> w.pinned[p].storage == Snapshot
  }

  ghost predicate StateOk(w: World, nodes: seq<Node>, loaded: Cache, dirty: set<Path>) {
    && BaseOk(w) && Arena(nodes) && w.pinned.Keys <= loaded.Keys
    && forall p :: p in loaded ==> Current(w, nodes, dirty, p, loaded[p])
  }

  /* ---------- the world that a load sees ---------- */

  /** Cached modules that wait on a dirty input and are not yet shadowed by a newer overlay. */
  ghost predicate IsHeld(w: World, nodes: seq<Node>, loaded: Cache, dirty: set<Path>, path: Path) {
    path in loaded && loaded[path] < |nodes| && OwnsChangedInput(nodes[loaded[path]], dirty) && Keeps(w, nodes[loaded[path]])
  }

  ghost function PayloadOf(nodes: seq<Node>, n: Node): Pinned
    requires forall k :: 0 <= k < |n.dependencies| ==> n.dependencies[k].node < |nodes|
  {
    Pinned(n.storage, n.source, EdgesOf(nodes, n), n.includes)
  }

  /** The effective sources, except that a held module keeps its cached revision. */
  ghost function HeldWorld(w: World, nodes: seq<Node>, loaded: Cache, dirty: set<Path>): World
    requires Arena(nodes)
  {
    World(w.language, w.disk, w.overlays,
          w.pinned + map p | p in loaded && IsHeld(w, nodes, loaded, dirty, p) :: PayloadOf(nodes, nodes[loaded[p]]))
  }

  lemma HeldInputs(w: World, nodes: seq<Node>, loaded: Cache, dirty: set<Path>, path: Path)
    requires StateOk(w, nodes, loaded, dirty)
    ensures var h := HeldWorld(w, nodes, loaded, dirty);
            if IsHeld(w, nodes, loaded, dirty, path) then
              var n := nodes[loaded[path]];
              && OwnInputs(h, path) == Success(Inputs(n.storage, n.source, EdgesOf(nodes, n)))
              && OwnIncludes(h, path) == Success(n.includes)
            else
              && OwnInputs(h, path) == OwnInputs(w, path)
              && (OwnInputs(w, path).Success? ==> OwnIncludes(h, path) == OwnIncludes(w, path))
  {
    var h := HeldWorld(w, nodes, loaded, dirty);
    if !IsHeld(w, nodes, loaded, dirty, path) && path !in w.pinned && OwnInputs(w, path).Success? {
      ReadIncludesSameDisk(w, h, path, Distinct(w.language.parse(EffectiveSource(w, path).value).value.includes));
    }
  }

  lemma {:induction false} ReadIncludesSameDisk(w: World, h: World, path: Path, specifiers: seq<Specifier>)
    requires w.language == h.language && w.disk == h.disk
    ensures ReadIncludes(w, path, specifiers) == ReadIncludes(h, path, specifiers)
  {
    if specifiers != [] {
      ReadIncludesSameDisk(w, h, path, specifiers[1..]);
    }
  }

  lemma HeldCacheOk(w: World, nodes: seq<Node>, loaded: Cache, dirty: set<Path>)
    requires StateOk(w, nodes, loaded, dirty)
    ensures StoreOk(HeldWorld(w, nodes, loaded, dirty), nodes, loaded)
  {
    var h := HeldWorld(w, nodes, loaded, dirty);
    forall p | p in loaded ensures EntryOk(h, nodes, p, loaded[p]) {
      assert Current(w, nodes, dirty, p, loaded[p]);
      HeldInputs(w, nodes, loaded, dirty, p);
    }
    forall p, i | p in h.pinned && 0 <= i < |h.pinned[p].edges|
      ensures h.pinned[p].edges[i].path in h.pinned
              || h.pinned[p].edges[i].path == h.language.resolve(h.pinned[p].edges[i].specifier, p)
    {
      if IsHeld(w, nodes, loaded, dirty, p) {
        assert Current(w, nodes, dirty, p, loaded[p]);
      }
    }
  }

  /** With nothing dirty in the cache, a load sees exactly the effective sources. */
  lemma NothingHeld(w: World, nodes: seq<Node>, loaded: Cache, dirty: set<Path>)
    requires Arena(nodes)
    requires forall p :: p in loaded ==> loaded[p] < |nodes| && !OwnsChangedInput(nodes[loaded[p]], dirty)
    ensures HeldWorld(w, nodes, loaded, dirty) == w
  {
    var h := HeldWorld(w, nodes, loaded, dirty);
    assert h.pinned == w.pinned;
  }

  /** Worlds in which every path contributes the same. */
  ghost predicate SameInputs(w: World, h: World) {
    forall p ::
      && OwnInputs(w, p) == OwnInputs(h, p)
      && (OwnInputs(w, p).Success? ==> OwnIncludes(w, p) == OwnIncludes(h, p))
  }

  lemma {:induction false} SameLoad(w: World, h: World, path: Path, active: seq<Path>)
    requires SameInputs(w, h)
    ensures ImportGraph.Load(w, path, active) == ImportGraph.Load(h, path, active)
    decreases Remaining(w, active), 1, 0
  {
    hide OwnInputs, OwnIncludes;
    if path !in active && OwnInputs(w, path).Success? {
      HasInputs(w, path);
      RemainingShrinks(w, active, path);
      SameLoadEdges(w, h, OwnInputs(w, path).value.edges, active + [path]);
    }
  }

  lemma HasInputs(w: World, path: Path)
    requires OwnInputs(w, path).Success?
    ensures path in Universe(w)
  {
  }

  lemma StateIsArena(w: World, nodes: seq<Node>, loaded: Cache, dirty: set<Path>)
    requires StateOk(w, nodes, loaded, dirty)
    ensures Arena(nodes)
  {
  }

  lemma {:induction false} SameLoadEdges(w: World, h: World, edges: seq<Edge>, active: seq<Path>)
    requires SameInputs(w, h)
    ensures LoadEdges(w, edges, active) == LoadEdges(h, edges, active)
    decreases Remaining(w, active), 2, |edges|
  {
    hide SameInputs;
    if edges != [] {
      SameLoad(w, h, edges[0].path, active);
      SameLoadEdges(w, h, edges[1..], active);
    }
  }

  /** A further load sees what the last one saw. */
  lemma StillSeen(w: World, start: Start, dirty: set<Path>, left: set<Path>, after: Op)
    requires StateOk(w, start.nodes, start.cache, dirty) && StateOk(w, after.nodes, after.entries, left)
    requires StoreOk(HeldWorld(w, start.nodes, start.cache, dirty), after.nodes, after.entries)
    ensures SameInputs(HeldWorld(w, start.nodes, start.cache, dirty), HeldWorld(w, after.nodes, after.entries, left))
  {
    hide OwnInputs, OwnIncludes, StateOk, Matches, OwnsChangedInput, Keeps;
    StateIsArena(w, start.nodes, start.cache, dirty);
    StateIsArena(w, after.nodes, after.entries, left);
    var h := HeldWorld(w, start.nodes, start.cache, dirty);
    forall p
      ensures OwnInputs(h, p) == OwnInputs(HeldWorld(w, after.nodes, after.entries, left), p)
      ensures OwnInputs(h, p).Success? ==> OwnIncludes(h, p) == OwnIncludes(HeldWorld(w, after.nodes, after.entries, left), p)
    {
      StillSeenAt(w, start, dirty, left, after, p);
    }
  }

  lemma StillSeenAt(w: World, start: Start, dirty: set<Path>, left: set<Path>, after: Op, p: Path)
    requires StateOk(w, start.nodes, start.cache, dirty) && StateOk(w, after.nodes, after.entries, left)
    requires StoreOk(HeldWorld(w, start.nodes, start.cache, dirty), after.nodes, after.entries)
    ensures var h, later := HeldWorld(w, start.nodes, start.cache, dirty), HeldWorld(w, after.nodes, after.entries, left);
            OwnInputs(h, p) == OwnInputs(later, p) && (OwnInputs(h, p).Success? ==> OwnIncludes(h, p) == OwnIncludes(later, p))
  {
    HeldInputs(w, start.nodes, start.cache, dirty, p);
    HeldInputs(w, after.nodes, after.entries, left, p);
    if p in after.entries {
      EntryNow(w, start, dirty, left, after, p);
    } else {
      NotCached(w, start, dirty, after, p);
    }
  }

  lemma NotCached(w: World, start: Start, dirty: set<Path>, after: Op, p: Path)
    requires Arena(start.nodes) && StoreOk(HeldWorld(w, start.nodes, start.cache, dirty), after.nodes, after.entries) && p !in after.entries
    ensures !IsHeld(w, start.nodes, start.cache, dirty, p)
  {
  }

  /** The entry after a load agrees with what the load saw; if it is not held, also with the sources. */
  lemma EntryNow(w: World, start: Start, dirty: set<Path>, left: set<Path>, after: Op, p: Path)
    requires Arena(start.nodes) && StateOk(w, after.nodes, after.entries, left) && p in after.entries
    requires StoreOk(HeldWorld(w, start.nodes, start.cache, dirty), after.nodes, after.entries)
    ensures after.entries[p] < |after.nodes|
    ensures var h, n := HeldWorld(w, start.nodes, start.cache, dirty), after.nodes[after.entries[p]];
            && n.path == p && Arena(after.nodes)
            && (Keeps(w, n) ==> Matches(h, after.nodes, n))
            && (IsHeld(w, start.nodes, start.cache, dirty, p) ==> Keeps(w, n))
            && (Keeps(w, n) && !IsHeld(w, after.nodes, after.entries, left, p) ==> Matches(w, after.nodes, n))
  {
    hide OwnInputs, OwnIncludes;
    assert EntryOk(HeldWorld(w, start.nodes, start.cache, dirty), after.nodes, p, after.entries[p]);
    assert Current(w, after.nodes, left, p, after.entries[p]);
  }

  /** A load in the held world keeps the invariant, also when the changed inputs that were
      invalidated before it are no longer dirty. */
  lemma LoadKeepsState(w: World, start: Start, dirty: set<Path>, changed: set<Path>,
                       path: Path, before: Op, after: Op, r: Result<NodeId>)
    requires StateOk(w, start.nodes, start.cache, dirty)
    requires forall p :: p in start.cache ==> !OwnsChangedInput(start.nodes[start.cache[p]], changed)
    requires Outcome(HeldWorld(w, start.nodes, start.cache, dirty), path, [], start, before, after, r) && r.Success?
    ensures StateOk(w, after.nodes, after.entries, dirty - changed)
  {
    hide ImportGraph.Load, Unfold, MemoOk, Intact;
    var h := HeldWorld(w, start.nodes, start.cache, dirty);
    forall p | p in after.entries ensures Current(w, after.nodes, dirty - changed, p, after.entries[p]) {
      assert EntryOk(h, after.nodes, p, after.entries[p]);
      if Keeps(h, after.nodes[after.entries[p]]) {
        KeptIsCurrent(w, start, dirty, changed, after, p);
      } else {
        UnkeptIsOld(h, path, start, before, after, r, p);
        OldIsCurrent(w, start, dirty, changed, after, p);
      }
    }
  }

  lemma KeptIsCurrent(w: World, start: Start, dirty: set<Path>, changed: set<Path>, after: Op, p: Path)
    requires StateOk(w, start.nodes, start.cache, dirty)
    requires forall q :: q in start.cache ==> !OwnsChangedInput(start.nodes[start.cache[q]], changed)
    requires Arena(after.nodes) && start.nodes <= after.nodes && p in after.entries && after.entries[p] < |after.nodes|
    requires after.nodes[after.entries[p]].path == p
    requires Matches(HeldWorld(w, start.nodes, start.cache, dirty), after.nodes, after.nodes[after.entries[p]])
    ensures Current(w, after.nodes, dirty - changed, p, after.entries[p])
  {
    HeldInputs(w, start.nodes, start.cache, dirty, p);
    var n := after.nodes[after.entries[p]];
    if IsHeld(w, start.nodes, start.cache, dirty, p) {
      var old_ := start.nodes[start.cache[p]];
      assert Current(w, start.nodes, dirty, p, start.cache[p]);
      assert n.source == old_.source && n.includes == old_.includes && n.storage == old_.storage;
      assert OwnsChangedInput(old_, dirty) && !OwnsChangedInput(old_, changed);
    }
  }

  lemma CompletedIsKept(h: World, path: Path, start: Start, before: Op, after: Op, r: Result<NodeId>, p: Path)
    requires Outcome(h, path, [], start, before, after, r) && r.Success? && p in after.rebound
    ensures after.rebound[p] < |after.nodes| && Keeps(h, after.nodes[after.rebound[p]])
    ensures p in after.entries && after.entries[p] == after.rebound[p]
  {
    assert CompletedOk(h, after.nodes, after.entries, after.rebound, p);
    assert EntryOk(h, after.nodes, p, after.entries[p]);
  }

  lemma UnkeptIsOld(h: World, path: Path, start: Start, before: Op, after: Op, r: Result<NodeId>, p: Path)
    requires Outcome(h, path, [], start, before, after, r) && r.Success?
    requires p in after.entries && after.entries[p] < |after.nodes| && !Keeps(h, after.nodes[after.entries[p]])
    ensures p in start.cache && start.cache[p] == after.entries[p]
  {
    hide ImportGraph.Load, Unfold, MemoOk, Keeps;
    if p in after.rebound {
      CompletedIsKept(h, path, start, before, after, r, p);
    }
  }

  lemma OldIsCurrent(w: World, start: Start, dirty: set<Path>, changed: set<Path>, after: Op, p: Path)
    requires StateOk(w, start.nodes, start.cache, dirty)
    requires forall q :: q in start.cache ==> !OwnsChangedInput(start.nodes[start.cache[q]], changed)
    requires Arena(after.nodes) && start.nodes <= after.nodes
    requires p in start.cache && p in after.entries && after.entries[p] == start.cache[p]
    ensures Current(w, after.nodes, dirty - changed, p, after.entries[p])
  {
    assert Current(w, start.nodes, dirty, p, start.cache[p]);
    var n := start.nodes[start.cache[p]];
    assert after.nodes[after.entries[p]] == n;
    assert EdgesOf(after.nodes, n) == EdgesOf(start.nodes, n);
  }

  /** Dropping entries and marking more inputs dirty keeps the invariant. */
  lemma DirtierStateOk(w: World, nodes: seq<Node>, loaded: Cache, dirty: set<Path>, less: Cache, more: set<Path>)
    requires StateOk(w, nodes, loaded, dirty)
    requires less.Keys <= loaded.Keys && w.pinned.Keys <= less.Keys && forall p :: p in less ==> less[p] == loaded[p]
    requires dirty <= more
    ensures StateOk(w, nodes, less, more)
  {
    forall p | p in less ensures Current(w, nodes, more, p, less[p]) {
      assert Current(w, nodes, dirty, p, loaded[p]);
    }
  }

  lemma InvalidatedStateOk(w: World, nodes: seq<Node>, loaded: Cache, dirty: set<Path>, changed: set<Path>)
    requires StateOk(w, nodes, loaded, dirty)
    ensures StateOk(w, nodes, WithoutInputs(nodes, loaded, changed), dirty)
    ensures forall p :: p in WithoutInputs(nodes, loaded, changed) ==>
              loaded[p] < |nodes| && !OwnsChangedInput(nodes[WithoutInputs(nodes, loaded, changed)[p]], changed)
  {
    var less := WithoutInputs(nodes, loaded, changed);
    forall p | p in loaded ensures loaded[p] < |nodes| && nodes[loaded[p]].path == p {
      assert Current(w, nodes, dirty, p, loaded[p]);
    }
    forall p | p in w.pinned ensures p in less {
      assert Current(w, nodes, dirty, p, loaded[p]);
    }
    DirtierStateOk(w, nodes, loaded, dirty, less, dirty);
  }

  /** A change of one path's effective source or disk text is absorbed by a dirty mark on it. */
  lemma ChangedWorldOk(w: World, w': World, nodes: seq<Node>, loaded: Cache, dirty: set<Path>, path: Path)
    requires StateOk(w, nodes, loaded, dirty)
    requires w'.language == w.language && w'.pinned == w.pinned
    requires forall p :: p != path ==> EffectiveSource(w', p) == EffectiveSource(w, p)
    requires forall p :: p != path ==> (p in w'.disk <==> p in w.disk) && (p in w.disk ==> w'.disk[p] == w.disk[p])
    ensures StateOk(w', nodes, loaded, dirty + {path})
  {
    forall p | p in loaded ensures Current(w', nodes, dirty + {path}, p, loaded[p]) {
      assert Current(w, nodes, dirty, p, loaded[p]);
      var n := nodes[loaded[p]];
      if !OwnsChangedInput(n, dirty + {path}) {
        StillMatches(w, w', nodes, n, path);
      }
    }
  }

  lemma StillMatches(w: World, w': World, nodes: seq<Node>, n: Node, path: Path)
    requires forall k :: 0 <= k < |n.dependencies| ==> n.dependencies[k].node < |nodes|
    requires w'.language == w.language && w'.pinned == w.pinned
    requires n.path in w.pinned || EffectiveSource(w', n.path) == EffectiveSource(w, n.path)
    requires forall p :: p != path ==> (p in w'.disk <==> p in w.disk) && (p in w.disk ==> w'.disk[p] == w.disk[p])
    requires n.path in w.pinned || forall included :: included in n.includes ==> included.path != path
    requires Matches(w, nodes, n)
    ensures Matches(w', nodes, n)
  {
    if n.path !in w.pinned {
      SameIncludes(w, w', n.path, Distinct(w.language.parse(EffectiveSource(w, n.path).value).value.includes), n.includes);
    }
  }

  lemma {:induction false} SameIncludes(w: World, w': World, path: Path, specifiers: seq<Specifier>, includes: seq<Included>)
    requires w'.language == w.language
    requires ReadIncludes(w, path, specifiers) == Success(includes)
    requires forall included :: included in includes ==>
               (included.path in w.disk ==> included.path in w'.disk && w'.disk[included.path] == w.disk[included.path])
    ensures ReadIncludes(w', path, specifiers) == Success(includes)
  {
    if specifiers != [] {
      var rest := ReadIncludes(w, path, specifiers[1..]).value;
      assert includes[0] in includes && includes[1..] == rest;
      SameIncludes(w, w', path, specifiers[1..], includes[1..]);
    }
  }

  /* ---------- reachability over cached edges ---------- */

  ghost predicate CachedImport(nodes: seq<Node>, loaded: Cache, from: Path, to: Path) {
    from in loaded && loaded[from] < |nodes| &&
    exists k :: 0 <= k < |nodes[loaded[from]].dependencies| &&
                nodes[loaded[from]].dependencies[k].node < |nodes| &&
                nodes[nodes[loaded[from]].dependencies[k].node].path == to
  }

  ghost predicate CachedWalk(nodes: seq<Node>, loaded: Cache, from: Path, to: Path, p: seq<Path>) {
    && p != [] && p[0] == from && p[|p| - 1] == to
    && forall i :: 0 < i < |p| ==> CachedImport(nodes, loaded, p[i - 1], p[i])
  }

  ghost predicate CachedReach(nodes: seq<Node>, loaded: Cache, from: Path, to: Path) {
    exists p :: CachedWalk(nodes, loaded, from, to, p)
  }

  lemma CachedReachSelf(nodes: seq<Node>, loaded: Cache, path: Path)
    ensures CachedReach(nodes, loaded, path, path)
  {
    assert CachedWalk(nodes, loaded, path, path, [path]);
  }

  lemma CachedReachStep(nodes: seq<Node>, loaded: Cache, from: Path, mid: Path, to: Path)
    requires CachedReach(nodes, loaded, from, mid) && CachedImport(nodes, loaded, mid, to)
    ensures CachedReach(nodes, loaded, from, to)
  {
    var p :| CachedWalk(nodes, loaded, from, mid, p);
    var q := p + [to];
    forall i | 0 < i < |q| ensures CachedImport(nodes, loaded, q[i - 1], q[i]) {
      assert i < |p| ==> q[i - 1] == p[i - 1] && q[i] == p[i];
    }
    assert CachedWalk(nodes, loaded, from, to, q);
  }

  lemma {:induction false} ClosedContainsReach(nodes: seq<Node>, loaded: Cache, visited: set<Path>, p: seq<Path>, from: Path, to: Path)
    requires CachedWalk(nodes, loaded, from, to, p) && from in visited
    requires forall a, b :: a in visited && CachedImport(nodes, loaded, a, b) ==> b in visited
    ensures to in visited
    decreases |p|
  {
    if |p| > 1 {
      assert CachedImport(nodes, loaded, p[0], p[1]);
      var q := p[1..];
      forall i | 0 < i < |q| ensures CachedImport(nodes, loaded, q[i - 1], q[i]) {
        assert q[i - 1] == p[i] && q[i] == p[i + 1];
      }
      ClosedContainsReach(nodes, loaded, visited, q, p[1], to);
    }
  }

  /** Everything a worklist over cached edges can ever hold. */
  ghost function Known(nodes: seq<Node>, roots: set<Path>): set<Path> {
    roots + set i | 0 <= i < |nodes| :: nodes[i].path
  }

  ghost predicate CacheInArena(nodes: seq<Node>, loaded: Cache) {
    Arena(nodes) && forall p :: p in loaded ==> loaded[p] < |nodes| && nodes[loaded[p]].path == p
  }

  /** The worklist state: what is visited or pending is reachable, and edges stay covered. */
  ghost predicate Exploring(nodes: seq<Node>, loaded: Cache, roots: set<Path>, visited: set<Path>, pending: seq<Path>) {
    && (forall r :: r in roots ==> r in visited || r in pending)
    && (forall p :: p in visited || p in pending ==>
          p in Known(nodes, roots) && exists r :: r in roots && CachedReach(nodes, loaded, r, p))
    && (forall a, b :: a in visited && CachedImport(nodes, loaded, a, b) ==> b in visited || b in pending)
  }

  function DependencyPathsOf(nodes: seq<Node>, n: Node): (r: seq<Path>)
    requires forall k :: 0 <= k < |n.dependencies| ==> n.dependencies[k].node < |nodes|
    ensures |r| == |n.dependencies|
    ensures forall k :: 0 <= k < |r| ==> r[k] == nodes[n.dependencies[k].node].path
  {
    seq(|n.dependencies|, k requires 0 <= k < |n.dependencies| => nodes[n.dependencies[k].node].path)
  }

  lemma ExploringSkips(nodes: seq<Node>, loaded: Cache, roots: set<Path>, visited: set<Path>, pending: seq<Path>)
    requires Exploring(nodes, loaded, roots, visited, pending) && pending != []
    requires pending[|pending| - 1] in visited
    ensures Exploring(nodes, loaded, roots, visited, pending[..|pending| - 1])
  {
    hide CachedReach, CachedImport, Known;
    assert pending == pending[..|pending| - 1] + [pending[|pending| - 1]];
  }

  lemma ExploringVisits(nodes: seq<Node>, loaded: Cache, roots: set<Path>, visited: set<Path>, pending: seq<Path>, next: seq<Path>)
    requires CacheInArena(nodes, loaded)
    requires Exploring(nodes, loaded, roots, visited, pending) && pending != []
    requires var path := pending[|pending| - 1];
             if path in loaded then next == DependencyPathsOf(nodes, nodes[loaded[path]]) else next == []
    ensures Exploring(nodes, loaded, roots, visited + {pending[|pending| - 1]}, pending[..|pending| - 1] + next)
  {
    hide CachedReach, CachedImport, Known, CacheInArena;
    var path := pending[|pending| - 1];
    var more := pending[..|pending| - 1] + next;
    assert pending == pending[..|pending| - 1] + [path];
    ImportsAre(nodes, loaded, roots, path, next);
    assert path in pending;
    var root :| root in roots && CachedReach(nodes, loaded, root, path);
    forall b | b in next ensures CachedReach(nodes, loaded, root, b) {
      CachedReachStep(nodes, loaded, root, path, b);
    }
    assert forall p :: p in pending <==> p in pending[..|pending| - 1] || p == path;
    assert forall p :: p in more <==> p in pending[..|pending| - 1] || p in next;
    forall p | p in visited + {path} || p in more
      ensures p in Known(nodes, roots) && exists r :: r in roots && CachedReach(nodes, loaded, r, p)
    {
      if p in next {
        assert root in roots && CachedReach(nodes, loaded, root, p);
      } else {
        assert p in visited || p in pending;
      }
    }
  }

  lemma ImportsAre(nodes: seq<Node>, loaded: Cache, roots: set<Path>, path: Path, next: seq<Path>)
    requires CacheInArena(nodes, loaded)
    requires if path in loaded then next == DependencyPathsOf(nodes, nodes[loaded[path]]) else next == []
    ensures forall b :: b in next <==> CachedImport(nodes, loaded, path, b)
    ensures forall b :: b in next ==> b in Known(nodes, roots)
  {
    if path in loaded {
      var n := nodes[loaded[path]];
      forall b | CachedImport(nodes, loaded, path, b) ensures b in next {
        var k :| 0 <= k < |n.dependencies| && n.dependencies[k].node < |nodes| && nodes[n.dependencies[k].node].path == b;
        assert next[k] == b;
      }
    }
  }

  method Elements(s: set<Path>) returns (r: seq<Path>)
    ensures forall p :: p in r <==> p in s
  {
    r := [];
    var rest := s;
    while rest != {}
      invariant rest <= s && forall p :: p in r <==> p in s - rest
      decreases rest
    {
      var p :| p in rest;
      r := r + [p];
      rest := rest - {p};
    }
  }

  /** The cached paths that some root reaches. */
  method WorkspaceActivePaths(nodes: seq<Node>, loaded: Cache, roots: set<Path>) returns (active: set<Path>)
    requires CacheInArena(nodes, loaded)
    ensures forall p :: p in active <==> p in loaded && exists r :: r in roots && CachedReach(nodes, loaded, r, p)
  {
    hide CachedReach;
    active := {};
    var visited: set<Path> := {};
    var pending := Elements(roots);
    forall r | r in roots ensures CachedReach(nodes, loaded, r, r) {
      CachedReachSelf(nodes, loaded, r);
    }
    while pending != []
      invariant Exploring(nodes, loaded, roots, visited, pending)
      invariant forall p :: p in active <==> p in visited && p in loaded
      decreases Known(nodes, roots) - visited, |pending|
    {
      var path := pending[|pending| - 1];
      ghost var before := pending;
      if path in visited {
        ExploringSkips(nodes, loaded, roots, visited, pending);
        pending := pending[..|pending| - 1];
        continue;
      }
      assert path in Known(nodes, roots);
      if path !in loaded {
        ExploringVisits(nodes, loaded, roots, visited, pending, []);
        assert pending[..|pending| - 1] + [] == pending[..|pending| - 1];
        visited, pending := visited + {path}, pending[..|pending| - 1];
        continue;
      }
      active := active + {path};
      var next := DependencyPathsOf(nodes, nodes[loaded[path]]);
      ExploringVisits(nodes, loaded, roots, visited, pending, next);
      visited, pending := visited + {path}, pending[..|pending| - 1] + next;
    }
    forall p, r | r in roots && CachedReach(nodes, loaded, r, p) ensures p in visited {
      ClosedReach(nodes, loaded, visited, r, p);
    }
  }

  lemma ClosedReach(nodes: seq<Node>, loaded: Cache, visited: set<Path>, from: Path, to: Path)
    requires CachedReach(nodes, loaded, from, to) && from in visited
    requires forall a, b :: a in visited && CachedImport(nodes, loaded, a, b) ==> b in visited
    ensures to in visited
  {
    var p :| CachedWalk(nodes, loaded, from, to, p);
    ClosedContainsReach(nodes, loaded, visited, p, from, to);
  }

  method WorkspacePathReaches(nodes: seq<Node>, loaded: Cache, root: Path, target: Path) returns (reaches: bool)
    requires CacheInArena(nodes, loaded)
    ensures reaches <==> CachedReach(nodes, loaded, root, target)
  {
    hide CachedReach;
    var visited: set<Path> := {};
    var pending := [root];
    ghost var roots := {root};
    CachedReachSelf(nodes, loaded, root);
    while pending != []
      invariant Exploring(nodes, loaded, roots, visited, pending)
      invariant target !in visited
      decreases Known(nodes, roots) - visited, |pending|
    {
      var path := pending[|pending| - 1];
      if path in visited {
        ExploringSkips(nodes, loaded, roots, visited, pending);
        pending := pending[..|pending| - 1];
        continue;
      }
      assert path in Known(nodes, roots) && path in pending;
      if path == target { return true; }
      if path !in loaded {
        ExploringVisits(nodes, loaded, roots, visited, pending, []);
        assert pending[..|pending| - 1] + [] == pending[..|pending| - 1];
        visited, pending := visited + {path}, pending[..|pending| - 1];
        continue;
      }
      var next := DependencyPathsOf(nodes, nodes[loaded[path]]);
      ExploringVisits(nodes, loaded, roots, visited, pending, next);
      visited, pending := visited + {path}, pending[..|pending| - 1] + next;
    }
    reaches := false;
    if CachedReach(nodes, loaded, root, target) {
      ClosedReach(nodes, loaded, visited, root, target);
    }
  }

  /* ---------- staging unsaved overlays ---------- */

  function NextVersion(s: State, path: Path): int {
    var previous := if path in s.overlays then s.overlays[path].version else 0;
    (if s.overlaySequence > previous then s.overlaySequence else previous) + 1
  }

  /** Stages one overlay. The state also comes back when the entry is refused. */
  function StageOne(s: State, e: StagedOverlay): (State, Reply<()>) {
    if e.path in s.overlays && s.overlays[e.path].source == e.source
       && (e.version.None? || e.version.value == s.overlays[e.path].version)
    then (s, Done(()))
    else
      var version := if e.version.Some? then e.version.value else NextVersion(s, e.path);
      var numbered := if e.version.Some? then s else s.(overlaySequence := version);
      if !Safe(version) then (numbered, UnsafeVersion(e.path, version))
      else if e.path in s.overlays && version <= s.overlays[e.path].version then
        (numbered, StaleVersion(e.path, version))
      else
        (numbered.(overlays := s.overlays[e.path := Overlay(e.source, version)],
                   dirty := s.dirty + {e.path}, roots := s.roots + {e.path}), Done(()))
  }

  function StageAll(s: State, entries: seq<StagedOverlay>): (State, Reply<()>)
    decreases |entries|
  {
    if entries == [] then (s, Done(()))
    else
      var (next, reply) := StageOne(s, entries[0]);
      if reply.Done? then StageAll(next, entries[1..]) else (next, reply)
  }

  predicate IsRestage(s: State, e: StagedOverlay) {
    e.path in s.overlays && s.overlays[e.path].source == e.source
    && (e.version.None? || e.version.value == s.overlays[e.path].version)
  }

  /** Overlay versions only grow. */
  ghost predicate Advances(s: State, t: State) {
    && s.overlaySequence <= t.overlaySequence
    && forall p :: p in s.overlays ==> p in t.overlays && s.overlays[p].version <= t.overlays[p].version
  }

  lemma StageOneAdvances(s: State, e: StagedOverlay)
    ensures StageOne(s, e).1.Done? ==> Advances(s, StageOne(s, e).0)
    ensures IsRestage(s, e) ==> StageOne(s, e) == (s, Done(()))
    ensures StageOne(s, e).1.Done? && !IsRestage(s, e) ==>
              var t := StageOne(s, e).0;
              e.path in t.overlays && (e.path in s.overlays ==> s.overlays[e.path].version < t.overlays[e.path].version)
    ensures !StageOne(s, e).1.Done? ==> (StageOne(s, e).0 == s <==> e.version.Some?)
    ensures !StageOne(s, e).1.Done? ==> StageOne(s, e).0.overlays == s.overlays && s.overlaySequence <= StageOne(s, e).0.overlaySequence
  {
  }

  lemma {:induction false} StageAllAdvances(s: State, entries: seq<StagedOverlay>)
    ensures forall p :: p in s.overlays ==>
              p in StageAll(s, entries).0.overlays && s.overlays[p].version <= StageAll(s, entries).0.overlays[p].version
    decreases |entries|
  {
    if entries != [] {
      StageOneAdvances(s, entries[0]);
      if StageOne(s, entries[0]).1.Done? {
        StageAllAdvances(StageOne(s, entries[0]).0, entries[1..]);
      }
    }
  }

  /** Staging a batch is not atomic: entries before the refused one stay. */
  lemma FailedBatchKeepsItsPrefix()
    ensures var s := State([], map[], map[], {}, {}, 0);
            var entries := [StagedOverlay("a", "x", None), StagedOverlay("b", "y", Some(MAX_SAFE_INTEGER + 1))];
            !StageAll(s, entries).1.Done? && StageAll(s, entries).0 != s && "a" in StageAll(s, entries).0.overlays
  {
    var s := State([], map[], map[], {}, {}, 0);
    var entries := [StagedOverlay("a", "x", None), StagedOverlay("b", "y", Some(MAX_SAFE_INTEGER + 1))];
    var t := StageOne(s, entries[0]).0;
    assert StageOne(s, entries[0]).1.Done?;
    assert entries[1..] == [entries[1]];
    assert StageAll(t, [entries[1]]) == StageOne(t, entries[1]);
  }

  /** A refused batch leaves the state untouched exactly when every entry before the refused one
      restages what is already there, and the refused one names its version itself. */
  lemma {:induction false} FailedBatchUntouchedIff(s: State, entries: seq<StagedOverlay>, k: nat)
    requires k < |entries| && !StageAll(s, entries).1.Done?
    requires StageAll(s, entries[..k]).1.Done? && !StageOne(StageAll(s, entries[..k]).0, entries[k]).1.Done?
    ensures StageAll(s, entries).0 == s <==>
            (forall i :: 0 <= i < k ==> IsRestage(s, entries[i])) && entries[k].version.Some?
    decreases |entries|
  {
    StageOneAdvances(s, entries[0]);
    if k == 0 {
      assert entries[..0] == [];
    } else {
      var next := StageOne(s, entries[0]).0;
      assert entries[..k][0] == entries[0] && entries[..k][1..] == entries[1..][..k - 1];
      if IsRestage(s, entries[0]) {
        FailedBatchUntouchedIff(s, entries[1..], k - 1);
        assert forall i :: 0 < i < k ==> entries[i] == entries[1..][i - 1];
      } else {
        StageAllAdvances(next, entries[1..]);
      }
    }
  }

  /** Wherever the module includes the file, it holds this text of it. */
  ghost predicate IncludesText(n: Node, path: Path, contents: Option<string>) {
    forall i :: 0 <= i < |n.includes| && n.includes[i].path == path ==> contents == Some(n.includes[i].source)
  }

  /** A language in which the module "m" includes "p", and nothing imports anything. */
  function Including(source: string): Option<Syntax> {
    Some(Syntax([], if source == "m" then ["p"] else []))
  }

  const INCLUDING: Language := Language(Including, (specifier, importer) => specifier, (specifier, importer) => specifier)

  /** A pinned module, and a clean module that includes the file at the pinned path. */
  ghost function PinnedInclude(text: string): World {
    World(INCLUDING, map["p" := text, "m" := "m"], map[], map["p" := Pinned(Snapshot, "old", [], [])])
  }

  const PIN: Node := Node("p", Snapshot, "old", [], [])
  const INCLUDER: Node := Node("m", SourceFile, "m", [Included("p", "p", "old")], [])

  lemma OneInclude(text: string)
    ensures OwnInputs(PinnedInclude(text), "m") == Success(Inputs(SourceFile, "m", []))
    ensures OwnIncludes(PinnedInclude(text), "m") == Success([Included("p", "p", text)])
    ensures Including("m") == Some(Syntax([], ["p"])) && Distinct<Specifier>([]) == [] && Distinct<Specifier>(["p"]) == ["p"]
  {
    var none: seq<Specifier>, one: seq<Specifier> := [], ["p"];
    assert one[..0] == none && one[1..] == none && none + one == one;
    assert Distinct(none) == none;
    assert Distinct(one) == one;
    assert ReadIncludes(PinnedInclude(text), "m", none) == Success([]);
    assert [Included("p", "p", text)] + [] == [Included("p", "p", text)];
    assert ReadIncludes(PinnedInclude(text), "m", one) == Success([Included("p", "p", text)]);
    assert ImportEdges(INCLUDING, "m", none) == [];
  }

  lemma NoEdges(nodes: seq<Node>)
    ensures EdgesOf(nodes, PIN) == [] && EdgesOf(nodes, INCLUDER) == []
  {
  }

  /** A change of the file at a pinned path leaves such a module stale, with nothing marked dirty. */
  lemma PinnedIncludeGoesStale()
    ensures var nodes, loaded := [PIN, INCLUDER], map["p" := 0, "m" := 1];
            StateOk(PinnedInclude("old"), nodes, loaded, {}) && !StateOk(PinnedInclude("new"), nodes, loaded, {})
  {
    hide OwnIncludes, OwnInputs, EdgesOf, Distinct, Including;
    var nodes, loaded := [PIN, INCLUDER], map["p" := 0, "m" := 1];
    NoEdges(nodes);
    OneInclude("old");
    OneInclude("new");
    PinHeld("old");
    assert ImportEdges(INCLUDING, "m", []) == [];
    assert Current(PinnedInclude("old"), nodes, {}, "p", 0);
    assert Current(PinnedInclude("old"), nodes, {}, "m", 1);
    assert "old" != "new" by { assert "old"[0] != "new"[0]; }
    assert [Included("p", "p", "old")][0] != [Included("p", "p", "new")][0];
    assert !Current(PinnedInclude("new"), nodes, {}, "m", 1);
    assert "m" in loaded;
  }

  lemma PinHeld(text: string)
    ensures OwnInputs(PinnedInclude(text), "p") == Success(Inputs(Snapshot, "old", []))
    ensures OwnIncludes(PinnedInclude(text), "p") == Success([])
  {
  }

  /** Each node is what an uncached load of its path returns in this world. */
  ghost predicate Loads(w: World, nodes: seq<Node>, ids: seq<NodeId>) {
    Arena(nodes) && forall k :: 0 <= k < |ids| ==>
      ids[k] < |nodes| && ImportGraph.Load(w, nodes[ids[k]].path, []) == Success(Unfold(nodes, ids[k]))
  }

  /** The path is a cached module that some root reaches, or a file that such a module includes. */
  ghost predicate ActiveInput(nodes: seq<Node>, loaded: Cache, roots: set<Path>, path: Path) {
    exists q :: q in loaded && loaded[q] < |nodes|
                && (exists root :: root in roots && CachedReach(nodes, loaded, root, q))
                && (path == q || exists i :: 0 <= i < |nodes[loaded[q]].includes| && nodes[loaded[q]].includes[i].path == path)
  }

  class WorkspaceGraph {
    const language: Language
    const pinnedPaths: set<Path>
    ghost const pinned: map<Path, Pinned>
    // the file system outside the graph
    var disk: map<Path, string>
    var state: State

    /** Overlay over disk, except for the pinned modules. */
    ghost function WorldOf(s: State): World
      reads this
    {
      World(language, disk, Sources(s.overlays), pinned)
    }

    ghost predicate Holds(s: State)
      reads this
    {
      pinned.Keys == pinnedPaths && StateOk(WorldOf(s), s.nodes, s.loaded, s.dirty)
    }

    ghost predicate Valid()
      reads this
    {
      Holds(state)
    }

    /** Starts from pinned snapshot modules, given with the nodes that they refer to. */
    constructor (language: Language, disk: map<Path, string>, modules: seq<Node>, pinnedModules: Cache)
      requires Arena(modules)
      requires forall p :: p in pinnedModules ==>
                 && pinnedModules[p] < |modules| && modules[pinnedModules[p]].path == p
                 && modules[pinnedModules[p]].storage == Snapshot
                 && forall e :: e in EdgesOf(modules, modules[pinnedModules[p]]) ==>
                      e.path in pinnedModules || e.path == language.resolve(e.specifier, p)
      ensures Valid() && this.language == language && this.disk == disk && pinnedPaths == pinnedModules.Keys
      ensures state == State(modules, pinnedModules, map[], {}, {}, 0)
    {
      this.language, this.disk, pinnedPaths := language, disk, pinnedModules.Keys;
      pinned := map p | p in pinnedModules :: PayloadOf(modules, modules[pinnedModules[p]]);
      state := State(modules, pinnedModules, map[], {}, {}, 0);
    }

    /** Loads `path` into a staged state; `changed` was already invalidated there. */
    method LoadCurrent(path: Path, staged: State, ghost changed: set<Path>) returns (r: Reply<NodeId>, after: State)
      requires Holds(staged)
      requires forall p :: p in staged.loaded ==>
                 staged.loaded[p] < |staged.nodes| && !OwnsChangedInput(staged.nodes[staged.loaded[p]], changed)
      ensures after == staged.(nodes := after.nodes, loaded := after.loaded)
      ensures r.Done? || r.LoadFailed?
      ensures staged.nodes <= after.nodes
      ensures var seen := HeldWorld(WorldOf(staged), staged.nodes, staged.loaded, staged.dirty);
              && (r.LoadFailed? ==> ImportGraph.Load(seen, path, []) == Failure(r.error))
              && (r.Done? ==>
                    && Arena(after.nodes) && r.value < |after.nodes|
                    && ImportGraph.Load(seen, path, []) == Success(Unfold(after.nodes, r.value)))
      ensures r.Done? ==> StateOk(WorldOf(staged), after.nodes, after.loaded, staged.dirty - changed)
      ensures r.Done? ==>
                SameInputs(HeldWorld(WorldOf(staged), staged.nodes, staged.loaded, staged.dirty),
                           HeldWorld(WorldOf(staged), after.nodes, after.loaded, staged.dirty - changed))
    {
      hide StateOk, Outcome, StoreOk, ImportGraph.Load, Unfold, OwnsChangedInput, HeldWorld, SameInputs;
      StateArena(WorldOf(staged), staged);
      ghost var held := HeldWorld(WorldOf(staged), staged.nodes, staged.loaded, staged.dirty).pinned;
      var seen := World(language, disk, Sources(staged.overlays), held);
      assert seen == HeldWorld(WorldOf(staged), staged.nodes, staged.loaded, staged.dirty) by {
        HeldShape(WorldOf(staged), staged);
      }
      HeldCacheOk(WorldOf(staged), staged.nodes, staged.loaded, staged.dirty);
      var cache := new ModuleCache(staged.nodes, staged.loaded);
      ghost var start, before := Start(staged.nodes, staged.loaded), Op(staged.nodes, staged.loaded, map[]);
      var loaded := cache.Load(seen, path);
      ghost var done := cache.Now();
      OutcomeFacts(seen, path, start, before, done, loaded);
      after := staged.(nodes := cache.nodes, loaded := cache.entries);
      if loaded.Failure? {
        r := LoadFailed(loaded.error);
      } else {
        r := Done(loaded.value);
        LoadKeepsState(WorldOf(staged), start, staged.dirty, changed, path, before, done, loaded);
        StillSeen(WorldOf(staged), start, staged.dirty, staged.dirty - changed, done);
      }
    }

    lemma StateArena(w: World, s: State)
      requires StateOk(w, s.nodes, s.loaded, s.dirty)
      ensures CacheInArena(s.nodes, s.loaded)
    {
      forall p | p in s.loaded ensures s.loaded[p] < |s.nodes| && s.nodes[s.loaded[p]].path == p {
        assert Current(w, s.nodes, s.dirty, p, s.loaded[p]);
      }
    }

    lemma HeldShape(w: World, s: State)
      requires Arena(s.nodes)
      ensures var h := HeldWorld(w, s.nodes, s.loaded, s.dirty);
              h.language == w.language && h.disk == w.disk && h.overlays == w.overlays
    {
    }

    lemma OutcomeFacts(w: World, path: Path, start: Start, before: Op, after: Op, r: Result<NodeId>)
      requires Outcome(w, path, [], start, before, after, r)
      ensures Arena(after.nodes) && StartOk(start) && before.nodes <= after.nodes && StoreOk(w, after.nodes, after.entries)
      ensures r.Failure? ==> ImportGraph.Load(w, path, []) == Failure(r.error)
      ensures r.Success? ==> r.value < |after.nodes| && ImportGraph.Load(w, path, []) == Success(Unfold(after.nodes, r.value))
    {
    }

    /** Invalidates the changed inputs, loads, and then forgets that they were dirty. */
    method RefreshKnownChanges(path: Path, changed: set<Path>, staged: State) returns (r: Reply<NodeId>, after: State)
      requires Holds(staged)
      ensures r.Done? || r.LoadFailed?
      ensures var seen := SeenAfter(staged, changed);
              && (r.LoadFailed? ==> ImportGraph.Load(seen, path, []) == Failure(r.error))
              && (r.Done? ==>
                    && Arena(after.nodes) && r.value < |after.nodes|
                    && ImportGraph.Load(seen, path, []) == Success(Unfold(after.nodes, r.value)))
      ensures r.Done? ==>
                && after == staged.(nodes := after.nodes, loaded := after.loaded, dirty := staged.dirty - changed)
                && Holds(after)
    {
      hide StateOk, ImportGraph.Load, Unfold, OwnsChangedInput, HeldWorld;
      StateArena(WorldOf(staged), staged);
      if changed == {} {
        NothingInvalidated(WorldOf(staged), staged);
        r, after := LoadCurrent(path, staged, changed);
        return;
      }
      var cache := new ModuleCache(staged.nodes, staged.loaded);
      var _ := cache.InvalidateLoadedInputs(changed);
      InvalidatedStateOk(WorldOf(staged), staged.nodes, staged.loaded, staged.dirty, changed);
      r, after := LoadCurrent(path, staged.(loaded := cache.entries), changed);
      if r.Done? {
        after := after.(dirty := after.dirty - changed);
      }
    }

    /** What a load sees once the changed inputs are invalidated. */
    ghost function SeenAfter(staged: State, changed: set<Path>): World
      requires Arena(staged.nodes)
      reads this
    {
      HeldWorld(WorldOf(staged), staged.nodes, WithoutInputs(staged.nodes, staged.loaded, changed), staged.dirty)
    }

    lemma NothingInvalidated(w: World, s: State)
      requires StateOk(w, s.nodes, s.loaded, s.dirty)
      ensures WithoutInputs(s.nodes, s.loaded, {}) == s.loaded && s.dirty - {} == s.dirty
      ensures forall p :: p in s.loaded ==> s.loaded[p] < |s.nodes| && !OwnsChangedInput(s.nodes[s.loaded[p]], {})
    {
      forall p | p in s.loaded ensures s.loaded[p] < |s.nodes| {
        assert Current(w, s.nodes, s.dirty, p, s.loaded[p]);
      }
    }

    /** Returns exactly what a from-scratch load returns, or its error; a failure commits nothing. */
    method RefreshAfterKnownChanges(path: Path) returns (r: Reply<NodeId>)
      requires Valid()
      modifies this`state
      ensures Valid() && WorldOf(state) == old(WorldOf(state))
      ensures r.Done? || r.LoadFailed?
      ensures r.LoadFailed? ==> state == old(state) && ImportGraph.Load(old(WorldOf(state)), path, []) == Failure(r.error)
      ensures r.Done? ==>
                && r.value < |state.nodes|
                && ImportGraph.Load(WorldOf(state), path, []) == Success(Unfold(state.nodes, r.value))
                && state == old(state).(nodes := state.nodes, loaded := state.loaded, dirty := {}, roots := old(state.roots) + {path})
    {
      hide ImportGraph.Load, Unfold, OwnsChangedInput, HeldWorld, Current;
      var staged := state.(roots := state.roots + {path});
      var after;
      r, after := RefreshKnownChanges(path, staged.dirty, staged);
      InvalidatedStateOk(WorldOf(staged), staged.nodes, staged.loaded, staged.dirty, staged.dirty);
      NothingHeld(WorldOf(staged), staged.nodes, WithoutInputs(staged.nodes, staged.loaded, staged.dirty), staged.dirty);
      if r.Done? {
        assert staged.dirty - staged.dirty == {};
        state := after;
      }
    }

    /** Installs a newer overlay text and loads its module. Other dirty inputs stay pending: the
        load sees those modules at their cached revision. */
    method UpdateOverlay(path: Path, source: string, version: Option<int>) returns (r: Reply<NodeId>)
      requires Valid()
      modifies this`state
      ensures Valid()
      ensures !r.Done? ==> state == old(state)
      ensures var next := if version.Some? then version.value else NextVersion(old(state), path);
              var again := path in old(state.overlays) && old(state.overlays)[path] == Overlay(source, next);
              && (r.UnsafeVersion? <==> !Safe(next))
              && (r.StaleVersion? <==> Safe(next) && !again && path in old(state.overlays) && next <= old(state.overlays)[path].version)
              && (r.Done? ==>
                    && state.overlays == old(state.overlays)[path := Overlay(source, next)]
                    && state.dirty == (if again then old(state.dirty) else old(state.dirty) - {path})
                    && state.roots == old(state.roots) + {path}
                    && state.overlaySequence == (if version.Some? then old(state.overlaySequence) else next))
      ensures r.Done? ==> r.value < |state.nodes| && state.nodes[r.value].path == path
      ensures var next := if version.Some? then version.value else NextVersion(old(state), path);
              var seen := old(SeenWithOverlay(state, path, Overlay(source, next)));
              && (r.Done? ==> Arena(state.nodes) && ImportGraph.Load(seen, path, []) == Success(Unfold(state.nodes, r.value)))
              && (r.LoadFailed? ==> ImportGraph.Load(seen, path, []) == Failure(r.error))
    {
      hide ImportGraph.Load, OwnsChangedInput, HeldWorld, Current, SameInputs;
      var staged := state.(roots := state.roots + {path});
      var next := if version.Some? then version.value else NextVersion(staged, path);
      if version.None? { staged := staged.(overlaySequence := next); }
      if !Safe(next) { return UnsafeVersion(path, next); }
      var after;
      if path in staged.overlays && staged.overlays[path] == Overlay(source, next) {
        NothingInvalidated(WorldOf(staged), staged);
        r, after := LoadCurrent(path, staged, {});
        if r.Done? {
          LoadSound(HeldWorld(WorldOf(staged), staged.nodes, staged.loaded, staged.dirty), path, []);
          assert staged.overlays[path := Overlay(source, next)] == staged.overlays;
          state := after;
        }
        return;
      }
      if path in staged.overlays && next <= staged.overlays[path].version {
        return StaleVersion(path, next);
      }
      ghost var was := WorldOf(staged);
      staged := staged.(overlays := staged.overlays[path := Overlay(source, next)], dirty := staged.dirty + {path});
      ChangedWorldOk(was, WorldOf(staged), staged.nodes, staged.loaded, state.dirty, path);
      r, after := RefreshKnownChanges(path, {path}, staged);
      if r.Done? {
        LoadSound(SeenAfter(staged, {path}), path, []);
        assert state.dirty + {path} - {path} == state.dirty - {path};
        state := after;
      }
    }

    /** What the load of an updated overlay sees: the new text, the cached revisions of other dirty
        modules, and the effective sources. The same overlay again drops nothing from the cache. */
    ghost function SeenWithOverlay(s: State, path: Path, overlay: Overlay): World
      requires Arena(s.nodes)
      reads this
    {
      if path in s.overlays && s.overlays[path] == overlay then HeldWorld(WorldOf(s), s.nodes, s.loaded, s.dirty)
      else SeenAfter(s.(overlays := s.overlays[path := overlay], dirty := s.dirty + {path}), {path})
    }

    /** What the loads after a closed overlay see. */
    ghost function SeenWithoutOverlay(s: State, path: Path): World
      requires Arena(s.nodes)
      reads this
    {
      var t := s.(overlays := s.overlays - {path}, loaded := WithoutInputs(s.nodes, s.loaded, {path}), dirty := s.dirty - {path});
      HeldWorld(WorldOf(t), t.nodes, t.loaded, t.dirty)
    }

    /** Records overlays without loading anything. */
    method StageOverlays(entries: seq<StagedOverlay>) returns (r: Reply<()>)
      requires Valid()
      modifies this`state
      ensures Valid()
      ensures (state, r) == StageAll(old(state), entries)
    {
      var i := 0;
      assert entries[0..] == entries;
      while i < |entries|
        invariant 0 <= i <= |entries|
        invariant Valid()
        invariant StageAll(state, entries[i..]) == StageAll(old(state), entries)
      {
        var entry := entries[i];
        assert entries[i..][0] == entry && entries[i..][1..] == entries[i + 1..];
        var previous := state.overlays;
        if entry.path in previous && previous[entry.path].source == entry.source
           && (entry.version.None? || entry.version.value == previous[entry.path].version)
        {
          i := i + 1;
          continue;
        }
        ghost var before := state;
        var next := if entry.version.Some? then entry.version.value else NextVersion(state, entry.path);
        if entry.version.None? { state := state.(overlaySequence := next); }
        if !Safe(next) { return UnsafeVersion(entry.path, next); }
        if entry.path in previous && next <= previous[entry.path].version {
          return StaleVersion(entry.path, next);
        }
        ghost var was := WorldOf(state);
        state := state.(overlays := previous[entry.path := Overlay(entry.source, next)],
                        dirty := state.dirty + {entry.path}, roots := state.roots + {entry.path});
        ChangedWorldOk(was, WorldOf(state), state.nodes, state.loaded, before.dirty, entry.path);
        i := i + 1;
      }
      assert entries[i..] == [];
      r := Done(());
    }

    /** Lets the disk text show through again and reloads the roots that reached the overlay. */
    method CloseOverlay(path: Path) returns (r: Reply<seq<NodeId>>, ghost affected: set<Path>)
      requires Valid()
      modifies this`state
      ensures Valid()
      ensures !r.Done? ==> state == old(state)
      ensures path !in old(state.overlays) ==> r == Done([]) && state == old(state)
      ensures path in old(state.overlays) ==>
                && (forall root :: root in affected <==>
                      root in old(state.roots) && CachedReach(old(state.nodes), old(state.loaded), root, path))
                && (r.Done? ==>
                      && state.overlays == old(state.overlays) - {path}
                      && state.dirty == old(state.dirty) - {path}
                      && state.roots == old(state.roots) && state.overlaySequence == old(state.overlaySequence)
                      && (forall root :: root in affected <==>
                            exists k :: 0 <= k < |r.value| && r.value[k] < |state.nodes| && state.nodes[r.value[k]].path == root))
      ensures path in old(state.overlays) ==>
                var seen := old(SeenWithoutOverlay(state, path));
                && (r.Done? ==> Loads(seen, state.nodes, r.value))
                && (r.LoadFailed? ==> exists root :: root in affected && ImportGraph.Load(seen, root, []) == Failure(r.error))
                && (r.Done? || r.LoadFailed?)
    {
      affected := {};
      if path !in state.overlays { return Done([]), {}; }
      hide ImportGraph.Load, OwnsChangedInput, HeldWorld, Current, CachedReach, StateOk, Arena, Loads;
      var affectedRoots := RootsReaching(path);
      affected := set root | root in affectedRoots;
      ghost var was := WorldOf(state);
      var staged := state.(overlays := state.overlays - {path}, dirty := state.dirty + {path});
      ChangedWorldOk(was, WorldOf(staged), staged.nodes, staged.loaded, state.dirty, path);
      var cache := new ModuleCache(staged.nodes, staged.loaded);
      StateArena(WorldOf(staged), staged);
      var _ := cache.InvalidateLoadedInputs({path});
      DropDirty(WorldOf(staged), staged, {path});
      staged := staged.(loaded := cache.entries, dirty := staged.dirty - {path});
      assert staged.dirty == state.dirty - {path};
      var loaded, after := LoadRoots(affectedRoots, staged);
      if !loaded.Done? { return loaded, affected; }
      state := after;
      r := loaded;
      forall root | root in affected
        ensures exists k :: 0 <= k < |r.value| && r.value[k] < |state.nodes| && state.nodes[r.value[k]].path == root
      {
        var k :| 0 <= k < |affectedRoots| && affectedRoots[k] == root;
        assert r.value[k] < |state.nodes|;
      }
    }

    /** The roots whose cached graph contains the path. */
    method RootsReaching(path: Path) returns (reaching: seq<Path>)
      requires Valid()
      ensures forall root :: root in reaching <==>
                root in state.roots && CachedReach(state.nodes, state.loaded, root, path)
    {
      hide CachedReach;
      StateArena(WorldOf(state), state);
      reaching := [];
      var rest := state.roots;
      while rest != {}
        invariant rest <= state.roots
        invariant forall root :: root in reaching <==>
                    root in state.roots - rest && CachedReach(state.nodes, state.loaded, root, path)
        decreases rest
      {
        var root :| root in rest;
        var reaches := WorkspacePathReaches(state.nodes, state.loaded, root, path);
        rest := rest - {root};
        if reaches { reaching := reaching + [root]; }
      }
    }

    /** Loads the roots in turn; what an earlier load did to the cache does not show in a later one. */
    method LoadRoots(roots: seq<Path>, staged: State) returns (r: Reply<seq<NodeId>>, after: State)
      requires Holds(staged)
      ensures r.Done? || r.LoadFailed?
      ensures after == staged.(nodes := after.nodes, loaded := after.loaded)
      ensures var seen := HeldWorld(WorldOf(staged), staged.nodes, staged.loaded, staged.dirty);
              && (r.Done? ==> Loads(seen, after.nodes, r.value))
              && (r.LoadFailed? ==> exists root :: root in roots && ImportGraph.Load(seen, root, []) == Failure(r.error))
      ensures r.Done? ==>
                && Holds(after) && |r.value| == |roots|
                && forall k :: 0 <= k < |roots| ==> r.value[k] < |after.nodes| && after.nodes[r.value[k]].path == roots[k]
    {
      hide ImportGraph.Load, OwnsChangedInput, HeldWorld, StateOk, Unfold, SameInputs, Loads;
      after := staged;
      var loaded: seq<NodeId> := [];
      var i := 0;
      StateArena(WorldOf(staged), staged);
      ghost var seen := HeldWorld(WorldOf(staged), staged.nodes, staged.loaded, staged.dirty);
      NoLoads(seen, after.nodes);
      SeesItself(seen);
      while i < |roots|
        invariant 0 <= i <= |roots| && |loaded| == i
        invariant after == staged.(nodes := after.nodes, loaded := after.loaded)
        invariant Holds(after)
        invariant forall k :: 0 <= k < i ==> loaded[k] < |after.nodes| && after.nodes[loaded[k]].path == roots[k]
        invariant Loads(seen, after.nodes, loaded) && Arena(after.nodes)
        invariant SameInputs(seen, HeldWorld(WorldOf(after), after.nodes, after.loaded, after.dirty))
      {
        SameLoad(seen, HeldWorld(WorldOf(after), after.nodes, after.loaded, after.dirty), roots[i], []);
        NothingInvalidated(WorldOf(after), after);
        ghost var before := after;
        var reply;
        reply, after := LoadCurrent(roots[i], after, {});
        if !reply.Done? { return LoadFailed(reply.error), after; }
        LoadSound(HeldWorld(WorldOf(before), before.nodes, before.loaded, before.dirty), roots[i], []);
        UnfoldPath(after.nodes, reply.value);
        StateArena(WorldOf(before), before);
        MoreLoads(seen, before.nodes, after.nodes, loaded, reply.value);
        SeesOn(seen, HeldWorld(WorldOf(before), before.nodes, before.loaded, before.dirty),
               HeldWorld(WorldOf(after), after.nodes, after.loaded, after.dirty));
        loaded := loaded + [reply.value];
        i := i + 1;
      }
      r := Done(loaded);
    }

    lemma SeesItself(w: World)
      ensures SameInputs(w, w)
    {
    }

    lemma SeesOn(w: World, h: World, k: World)
      requires SameInputs(w, h) && SameInputs(h, k)
      ensures SameInputs(w, k)
    {
      hide OwnInputs, OwnIncludes;
    }

    lemma NoLoads(w: World, nodes: seq<Node>)
      requires Arena(nodes)
      ensures Loads(w, nodes, [])
    {
    }

    lemma MoreLoads(w: World, nodes: seq<Node>, more: seq<Node>, loaded: seq<NodeId>, id: NodeId)
      requires Loads(w, nodes, loaded) && Arena(more) && nodes <= more && id < |more|
      requires ImportGraph.Load(w, more[id].path, []) == Success(Unfold(more, id))
      ensures Loads(w, more, loaded + [id])
    {
      hide ImportGraph.Load, Unfold;
      forall k | 0 <= k < |loaded|
        ensures loaded[k] < |more| && ImportGraph.Load(w, more[loaded[k]].path, []) == Success(Unfold(more, loaded[k]))
      {
        assert more[loaded[k]] == nodes[loaded[k]];
        UnfoldStable(nodes, more, loaded[k]);
      }
    }

    lemma UnfoldPath(nodes: seq<Node>, id: NodeId)
      requires Arena(nodes) && id < |nodes|
      ensures Unfold(nodes, id).path == nodes[id].path
    {
    }

    lemma DropDirty(w: World, s: State, changed: set<Path>)
      requires StateOk(w, s.nodes, s.loaded, s.dirty)
      ensures StateOk(w, s.nodes, WithoutInputs(s.nodes, s.loaded, changed), s.dirty - changed)
    {
      InvalidatedStateOk(w, s.nodes, s.loaded, s.dirty, changed);
      var left := WithoutInputs(s.nodes, s.loaded, changed);
      forall p | p in left ensures Current(w, s.nodes, s.dirty - changed, p, left[p]) {
        assert Current(w, s.nodes, s.dirty, p, left[p]);
      }
    }

    /** Forgets a root, with every module and dirty mark that no other root needs. */
    method ReleaseRoot(path: Path)
      requires Valid()
      modifies this`state
      ensures Valid()
      ensures path !in old(state.roots) ==> state == old(state)
      ensures path in old(state.roots) ==>
                && state.roots == old(state.roots) - {path}
                && state.nodes == old(state.nodes) && state.overlays == old(state.overlays)
                && (forall p :: p in state.loaded <==>
                      && p in old(state.loaded)
                      && (p in pinnedPaths || exists root :: root in state.roots && CachedReach(old(state.nodes), old(state.loaded), root, p)))
                && (forall p :: p in state.loaded ==> state.loaded[p] == old(state.loaded)[p])
                && state.overlaySequence == old(state.overlaySequence)
                && (forall p :: p in state.dirty <==>
                      p in old(state.dirty) && ActiveInput(old(state.nodes), old(state.loaded), state.roots, p))
    {
      if path !in state.roots { return; }
      hide CachedReach, ActiveInput;
      StateArena(WorldOf(state), state);
      ghost var before := state;
      var roots := state.roots - {path};
      var active := WorkspaceActivePaths(state.nodes, state.loaded, roots);
      var nodes := state.nodes;
      var loaded := map p | p in state.loaded && (p in pinnedPaths || p in active) :: state.loaded[p];
      var activeInputs := active + set p, i | p in loaded && p in active && 0 <= i < |nodes[loaded[p]].includes|
                                       :: nodes[loaded[p]].includes[i].path;
      state := state.(roots := roots, loaded := loaded, dirty := state.dirty * activeInputs);
      ReleasedStateOk(WorldOf(before), before, state, active, activeInputs);
      ReleasedInputs(before.nodes, before.loaded, roots, loaded, active, activeInputs);
    }

    lemma ReleasedInputs(nodes: seq<Node>, loaded: Cache, roots: set<Path>, left: Cache, active: set<Path>, inputs: set<Path>)
      requires forall p :: p in loaded ==> loaded[p] < |nodes|
      requires forall p :: p in active <==> p in loaded && exists r :: r in roots && CachedReach(nodes, loaded, r, p)
      requires forall p :: p in left ==> p in loaded && left[p] == loaded[p]
      requires active <= left.Keys
      requires forall p :: p in inputs <==>
                 p in active || exists q, i :: q in left && q in active && 0 <= i < |nodes[left[q]].includes| && nodes[left[q]].includes[i].path == p
      ensures forall p :: p in inputs <==> ActiveInput(nodes, loaded, roots, p)
    {
      hide CachedReach;
      forall p | p in inputs ensures ActiveInput(nodes, loaded, roots, p) {
        if p !in active {
          var q, i :| q in left && q in active && 0 <= i < |nodes[left[q]].includes| && nodes[left[q]].includes[i].path == p;
        }
      }
    }

    lemma ReleasedStateOk(w: World, s: State, t: State, active: set<Path>, inputs: set<Path>)
      requires StateOk(w, s.nodes, s.loaded, s.dirty)
      requires t.nodes == s.nodes && t.dirty == s.dirty * inputs && t.loaded.Keys <= s.loaded.Keys
      requires w.pinned.Keys <= t.loaded.Keys <= w.pinned.Keys + active
      requires forall p :: p in t.loaded ==> t.loaded[p] == s.loaded[p] && t.loaded[p] < |t.nodes|
      requires active <= inputs
      requires forall p, i :: p in t.loaded && p in active && 0 <= i < |t.nodes[t.loaded[p]].includes| ==>
                 t.nodes[t.loaded[p]].includes[i].path in inputs
      ensures StateOk(w, t.nodes, t.loaded, t.dirty)
    {
      forall p | p in t.loaded ensures Current(w, t.nodes, t.dirty, p, t.loaded[p]) {
        assert Current(w, s.nodes, s.dirty, p, s.loaded[p]);
        var n := t.nodes[t.loaded[p]];
        if OwnsChangedInput(n, s.dirty) && n.path !in s.dirty {
          var included :| included in n.includes && included.path in s.dirty;
          var i :| 0 <= i < |n.includes| && n.includes[i] == included;
          assert included.path in t.dirty;
        }
      }
    }

    method MarkDirty(path: Path)
      requires Valid()
      modifies this`state
      ensures Valid()
      ensures state == if path in pinnedPaths then old(state) else old(state).(dirty := old(state.dirty) + {path})
    {
      if path in pinnedPaths { return; }
      DirtierStateOk(WorldOf(state), state.nodes, state.loaded, state.dirty, state.loaded, state.dirty + {path});
      state := state.(dirty := state.dirty + {path});
    }

    /** The environment changes one file and reports it with `MarkDirty`. A pinned path cannot be
        marked, so the invariant survives exactly when no clean cached module includes the old
        text of a pinned file. */
    method ChangeOnDisk(path: Path, contents: Option<string>)
      requires Valid()
      modifies this
      ensures disk == if contents.Some? then old(disk)[path := contents.value] else old(disk) - {path}
      ensures state == if path in pinnedPaths then old(state) else old(state).(dirty := old(state.dirty) + {path})
      ensures path !in pinnedPaths ==> Valid()
      ensures path in pinnedPaths ==>
                (Valid() <==> forall p :: p in state.loaded && p !in pinnedPaths ==>
                    || OwnsChangedInput(state.nodes[state.loaded[p]], state.dirty)
                    || IncludesText(state.nodes[state.loaded[p]], path, contents))
    {
      ghost var was := WorldOf(state);
      StateArena(was, state);
      disk := if contents.Some? then disk[path := contents.value] else disk - {path};
      if path !in pinnedPaths {
        ChangedWorldOk(was, WorldOf(state), state.nodes, state.loaded, state.dirty, path);
        state := state.(dirty := state.dirty + {path});
      } else {
        PinnedChange(was, WorldOf(state), state, path, contents);
      }
    }

    lemma PinnedChange(w: World, w': World, s: State, path: Path, contents: Option<string>)
      requires StateOk(w, s.nodes, s.loaded, s.dirty) && path in w.pinned
      requires w'.language == w.language && w'.overlays == w.overlays && w'.pinned == w.pinned
      requires w'.disk == if contents.Some? then w.disk[path := contents.value] else w.disk - {path}
      ensures CacheInArena(s.nodes, s.loaded)
      ensures StateOk(w', s.nodes, s.loaded, s.dirty) <==>
              forall p :: p in s.loaded && p !in w.pinned ==>
                OwnsChangedInput(s.nodes[s.loaded[p]], s.dirty) || IncludesText(s.nodes[s.loaded[p]], path, contents)
    {
      hide SelfConsistent, PinnedOk;
      StateArena(w, s);
      forall p | p in s.loaded
        ensures Current(w', s.nodes, s.dirty, p, s.loaded[p]) <==>
                (p in w.pinned || OwnsChangedInput(s.nodes[s.loaded[p]], s.dirty) || IncludesText(s.nodes[s.loaded[p]], path, contents))
      {
        assert Current(w, s.nodes, s.dirty, p, s.loaded[p]);
        var n := s.nodes[s.loaded[p]];
        if p !in w.pinned && !OwnsChangedInput(n, s.dirty) {
          IncludesAfterChange(w, w', p, Distinct(w.language.parse(EffectiveSource(w, p).value).value.includes), n.includes, path, contents);
        }
      }
      assert PinnedOk(w') by {
        PinnedOkSame(w, w');
      }
    }

    lemma PinnedOkSame(w: World, w': World)
      requires PinnedOk(w) && w'.language == w.language && w'.pinned == w.pinned
      ensures PinnedOk(w')
    {
    }

    lemma {:induction false} IncludesAfterChange(w: World, w': World, p: Path, specifiers: seq<Specifier>, includes: seq<Included>,
                                                 path: Path, contents: Option<string>)
      requires w'.language == w.language
      requires w'.disk == if contents.Some? then w.disk[path := contents.value] else w.disk - {path}
      requires ReadIncludes(w, p, specifiers) == Success(includes)
      ensures ReadIncludes(w', p, specifiers) == Success(includes) <==>
              forall i :: 0 <= i < |includes| && includes[i].path == path ==> contents == Some(includes[i].source)
      decreases |specifiers|
    {
      if specifiers != [] {
        var rest := ReadIncludes(w, p, specifiers[1..]).value;
        var file := w.language.resolveInclude(specifiers[0], p);
        assert includes == [Included(specifiers[0], file, w.disk[file])] + rest;
        IncludesAfterChange(w, w', p, specifiers[1..], rest, path, contents);
        HeldText(includes, path, contents);
        var rest' := ReadIncludes(w', p, specifiers[1..]);
        if file in w'.disk && rest'.Success? {
          var includes' := [Included(specifiers[0], file, w'.disk[file])] + rest'.value;
          assert includes'[1..] == rest'.value && includes[1..] == rest;
          assert includes' == includes <==> w'.disk[file] == w.disk[file] && rest'.value == rest;
        }
      }
    }

    lemma HeldText(includes: seq<Included>, path: Path, contents: Option<string>)
      requires includes != []
      ensures (forall i :: 0 <= i < |includes| && includes[i].path == path ==> contents == Some(includes[i].source)) <==>
              (includes[0].path == path ==> contents == Some(includes[0].source)) &&
              (forall i :: 0 <= i < |includes[1..]| && includes[1..][i].path == path ==> contents == Some(includes[1..][i].source))
    {
      assert forall i :: 0 < i < |includes| ==> includes[i] == includes[1..][i - 1];
    }
  }
}
