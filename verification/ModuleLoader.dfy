/** The cached, memoised load of a module graph, over loaded nodes with an identity.
    A node id plays the part of a `Loaded` object reference; ids only ever grow. */
module ModuleLoader {
  import opened ImportGraph

  datatype Link = Link(specifier: Specifier, node: NodeId)

  datatype Node = Node(
    path: Path, storage: Storage, source: string, includes: seq<Included>, dependencies: seq<Link>)

  type Cache = map<Path, NodeId>

  /* ---------- loaded nodes ---------- */

  /** A node is made after the nodes that it refers to. */
  ghost predicate Arena(nodes: seq<Node>) {
    forall i, k :: 0 <= i < |nodes| && 0 <= k < |nodes[i].dependencies| ==>
      nodes[i].dependencies[k].node < i
  }

  /** The graph below a node, as the tree that it unfolds to. */
  ghost function Unfold(nodes: seq<Node>, id: NodeId): Tree
    requires Arena(nodes) && id < |nodes|
    decreases id
  {
    var n := nodes[id];
    Tree(n.path, n.storage, n.source, n.includes,
         seq(|n.dependencies|, k requires 0 <= k < |n.dependencies| =>
           Dependency(n.dependencies[k].specifier, Unfold(nodes, n.dependencies[k].node))))
  }

  lemma {:induction false} UnfoldStable(nodes: seq<Node>, more: seq<Node>, id: NodeId)
    requires Arena(nodes) && Arena(more) && nodes <= more && id < |nodes|
    ensures Unfold(nodes, id) == Unfold(more, id)
    decreases id
  {
    var n := nodes[id];
    assert more[id] == n;
    forall k | 0 <= k < |n.dependencies|
      ensures Unfold(nodes, n.dependencies[k].node) == Unfold(more, n.dependencies[k].node)
    {
      UnfoldStable(nodes, more, n.dependencies[k].node);
    }
  }

  function EdgesOf(nodes: seq<Node>, n: Node): (r: seq<Edge>)
    requires forall k :: 0 <= k < |n.dependencies| ==> n.dependencies[k].node < |nodes|
    ensures |r| == |n.dependencies|
    ensures forall k :: 0 <= k < |r| ==>
              r[k] == Edge(n.dependencies[k].specifier, nodes[n.dependencies[k].node].path)
  {
    seq(|n.dependencies|, k requires 0 <= k < |n.dependencies| =>
      Edge(n.dependencies[k].specifier, nodes[n.dependencies[k].node].path))
  }

  /* ---------- what a cache must satisfy ---------- */

  /** A cached source node is dropped when an overlay holds a different text. */
  predicate Keeps(w: World, n: Node) {
    n.storage != SourceFile || n.path !in w.overlays || n.source == w.overlays[n.path]
  }

  /** The node agrees with its own source, includes and import specifiers. Its dependency
      nodes may be older revisions. */
  ghost predicate Matches(w: World, nodes: seq<Node>, n: Node)
    requires forall k :: 0 <= k < |n.dependencies| ==> n.dependencies[k].node < |nodes|
  {
    && OwnInputs(w, n.path) == Success(Inputs(n.storage, n.source, EdgesOf(nodes, n)))
    && OwnIncludes(w, n.path) == Success(n.includes)
  }

  ghost predicate EntryOk(w: World, nodes: seq<Node>, path: Path, id: NodeId)
    requires Arena(nodes)
  {
    && id < |nodes| && nodes[id].path == path
    && (path in w.pinned ==> Keeps(w, nodes[id]))
    && (Keeps(w, nodes[id]) ==> Matches(w, nodes, nodes[id]))
  }

  ghost predicate CacheOk(w: World, nodes: seq<Node>, cache: Cache) {
    && Arena(nodes)
    && (forall p :: p in cache ==> EntryOk(w, nodes, p, cache[p]))
    && w.pinned.Keys <= cache.Keys
  }

  /** A pinned module's import resolves as usual or stays within the pinned modules. */
  ghost predicate PinnedOk(w: World) {
    forall p, i :: p in w.pinned && 0 <= i < |w.pinned[p].edges| ==>
      var e := w.pinned[p].edges[i];
      e.path in w.pinned || e.path == w.language.resolve(e.specifier, p)
  }

  lemma EntryStable(w: World, nodes: seq<Node>, more: seq<Node>, path: Path, id: NodeId)
    requires Arena(nodes) && Arena(more) && nodes <= more && EntryOk(w, nodes, path, id)
    ensures EntryOk(w, more, path, id)
  {
    assert EdgesOf(more, more[id]) == EdgesOf(nodes, nodes[id]);
  }

  /* ---------- what the running operation has completed ---------- */

  ghost predicate LinksCompleted(nodes: seq<Node>, rebound: Cache, links: seq<Link>) {
    forall k {:trigger links[k]} :: 0 <= k < |links| ==>
      && links[k].node < |nodes|
      && nodes[links[k].node].path in rebound
      && rebound[nodes[links[k].node].path] == links[k].node
  }

  ghost predicate CompletedOk(w: World, nodes: seq<Node>, cache: Cache, rebound: Cache, path: Path)
    requires Arena(nodes) && path in rebound
  {
    && path in cache && cache[path] == rebound[path]
    && rebound[path] < |nodes|
    && nodes[rebound[path]].path == path
    && Denotes(w, Unfold(nodes, rebound[path]))
    && LinksCompleted(nodes, rebound, nodes[rebound[path]].dependencies)
  }

  /** Completed nodes are current, are what the cache holds, and are closed under dependencies. */
  ghost predicate MemoOk(w: World, nodes: seq<Node>, cache: Cache, rebound: Cache) {
    Arena(nodes) && forall p :: p in rebound ==> CompletedOk(w, nodes, cache, rebound, p)
  }

  lemma {:induction false} MemoClosed(w: World, nodes: seq<Node>, cache: Cache, rebound: Cache, path: Path)
    requires MemoOk(w, nodes, cache, rebound) && path in rebound
    ensures Paths(Unfold(nodes, rebound[path])) <= rebound.Keys
    decreases rebound[path]
  {
    var id := rebound[path];
    var t := Unfold(nodes, id);
    var n := nodes[id];
    forall p | p in Paths(t) ensures p in rebound {
      if p != t.path {
        var i :| 0 <= i < |t.dependencies| && p in Paths(t.dependencies[i].target);
        MemoClosed(w, nodes, cache, rebound, nodes[n.dependencies[i].node].path);
      }
    }
  }

  /** The completed-node memo never hides a cycle: a completed module loads to the same tree
      below any stack of modules that are still active. */
  lemma MemoNeverHidesACycle(w: World, nodes: seq<Node>, cache: Cache, rebound: Cache, path: Path, active: seq<Path>)
    requires MemoOk(w, nodes, cache, rebound) && path in rebound
    requires PathSet(active) !! rebound.Keys
    ensures Load(w, path, active) == Success(Unfold(nodes, rebound[path]))
  {
    MemoClosed(w, nodes, cache, rebound, path);
    LoadComplete(w, Unfold(nodes, rebound[path]), active);
  }

  /* ---------- which nodes survive a load ---------- */

  /** The cache holds exactly this node and, recursively, exactly the nodes below it. */
  ghost predicate Intact(w: World, nodes: seq<Node>, cache: Cache, id: NodeId)
    requires Arena(nodes) && id < |nodes|
    decreases id
  {
    var n := nodes[id];
    && n.path in cache && cache[n.path] == id && Keeps(w, n)
    && forall k :: 0 <= k < |n.dependencies| ==> Intact(w, nodes, cache, n.dependencies[k].node)
  }

  ghost predicate IntactAt(w: World, nodes: seq<Node>, cache: Cache, path: Path)
    requires Arena(nodes)
  {
    path in cache && cache[path] < |nodes| && Intact(w, nodes, cache, cache[path])
  }

  /** Relates the running operation to the nodes and cache that it started from: entries are
      replaced only for completed paths (or `open` ones), and a completed path keeps its node
      exactly when that node was intact at the start. */
  ghost predicate Since(w: World, nodes0: seq<Node>, cache0: Cache,
                        nodes: seq<Node>, cache: Cache, rebound: Cache, open: set<Path>)
    requires Arena(nodes0)
  {
    && nodes0 <= nodes
    && (forall p :: p !in rebound && p !in open ==>
          (p in cache <==> p in cache0) && (p in cache ==> cache[p] == cache0[p]))
    && (forall p :: p in rebound ==>
          if IntactAt(w, nodes0, cache0, p) then rebound[p] == cache0[p] else |nodes0| <= rebound[p])
  }

  predicate Extends(before: Cache, after: Cache) {
    forall p :: p in before ==> p in after && after[p] == before[p]
  }

  function Prefixed(ds: seq<Dependency>, rest: Result<seq<Dependency>>): Result<seq<Dependency>> {
    var tail :- rest;
    Success(ds + tail)
  }

  ghost function Unfolded(nodes: seq<Node>, links: seq<Link>): (ds: seq<Dependency>)
    requires Arena(nodes) && forall k :: 0 <= k < |links| ==> links[k].node < |nodes|
    ensures |ds| == |links|
    ensures forall k :: 0 <= k < |ds| ==>
              ds[k] == Dependency(links[k].specifier, Unfold(nodes, links[k].node))
  {
    seq(|links|, k requires 0 <= k < |links| =>
      Dependency(links[k].specifier, Unfold(nodes, links[k].node)))
  }

  /** The first `i` edges are loaded, and `links` are their nodes. */
  ghost predicate Loading(w: World, nodes: seq<Node>, rebound: Cache, edges: seq<Edge>, active: seq<Path>, links: seq<Link>)
  {
    && Arena(nodes)
    && LinksCompleted(nodes, rebound, links)
    && LinksFollow(nodes, edges, links)
    && LoadEdges(w, edges, active) == Prefixed(Unfolded(nodes, links), LoadEdges(w, edges[|links|..], active))
  }

  ghost predicate LinksFollow(nodes: seq<Node>, edges: seq<Edge>, links: seq<Link>) {
    |links| <= |edges| &&
    forall k {:trigger links[k]} :: 0 <= k < |links| ==>
      && links[k].node < |nodes|
      && nodes[links[k].node].path == edges[k].path && links[k].specifier == edges[k].specifier
  }

  lemma LinksStep(nodes: seq<Node>, rebound: Cache, nodes': seq<Node>, rebound': Cache, edges: seq<Edge>, links: seq<Link>, id: NodeId)
    requires LinksCompleted(nodes, rebound, links) && LinksFollow(nodes, edges, links) && |links| < |edges|
    requires nodes <= nodes' && Extends(rebound, rebound')
    requires var path := edges[|links|].path;
             id < |nodes'| && nodes'[id].path == path && path in rebound' && rebound'[path] == id
    ensures LinksCompleted(nodes', rebound', links + [Link(edges[|links|].specifier, id)])
    ensures LinksFollow(nodes', edges, links + [Link(edges[|links|].specifier, id)])
  {
    var more := links + [Link(edges[|links|].specifier, id)];
    forall k | 0 <= k < |links|
      ensures more[k] == links[k] && nodes'[links[k].node] == nodes[links[k].node]
    {
    }
  }

  lemma LoadingStep(w: World, nodes: seq<Node>, rebound: Cache, nodes': seq<Node>, rebound': Cache,
                    edges: seq<Edge>, active: seq<Path>, links: seq<Link>, id: NodeId)
    requires Loading(w, nodes, rebound, edges, active, links) && |links| < |edges|
    requires Arena(nodes') && nodes <= nodes' && Extends(rebound, rebound')
    requires id < |nodes'|
    requires var e := edges[|links|];
             && ImportGraph.Load(w, e.path, active) == Success(Unfold(nodes', id))
             && e.path in rebound' && rebound'[e.path] == id
    ensures Loading(w, nodes', rebound', edges, active, links + [Link(edges[|links|].specifier, id)])
  {
    var e := edges[|links|];
    var more := links + [Link(e.specifier, id)];
    hide ImportGraph.Load, LoadEdges, Denotes, LinksCompleted, LinksFollow;
    LoadSound(w, e.path, active);
    LinksStep(nodes, rebound, nodes', rebound', edges, links, id);
    LinksBounded(nodes, edges, links);
    LinksBounded(nodes', edges, more);
    UnfoldedStable(nodes, nodes', links);
    EdgesStep(w, edges, |links|, active, Unfolded(nodes, links), Unfold(nodes', id));
    UnfoldedMore(nodes', links, Link(e.specifier, id));
  }

  lemma LinksBounded(nodes: seq<Node>, edges: seq<Edge>, links: seq<Link>)
    requires LinksFollow(nodes, edges, links)
    ensures forall k :: 0 <= k < |links| ==> links[k].node < |nodes|
  {
  }

  lemma UnfoldedMore(nodes: seq<Node>, links: seq<Link>, link: Link)
    requires Arena(nodes) && (forall k :: 0 <= k < |links| ==> links[k].node < |nodes|) && link.node < |nodes|
    ensures Unfolded(nodes, links + [link]) ==
            Unfolded(nodes, links) + [Dependency(link.specifier, Unfold(nodes, link.node))]
  {
    hide Unfold;
  }

  /** A node whose dependencies were all loaded denotes what an uncached load returns. */
  lemma LoadingDone(w: World, nodes: seq<Node>, rebound: Cache, own: Inputs, outer: seq<Path>, links: seq<Link>, n: Node)
    requires n.path !in outer
    requires OwnInputs(w, n.path) == Success(own) && own == Inputs(n.storage, n.source, own.edges)
    requires OwnIncludes(w, n.path) == Success(n.includes)
    requires Loading(w, nodes, rebound, own.edges, outer + [n.path], links) && |links| == |own.edges|
    requires n.dependencies == links
    ensures EdgesOf(nodes, n) == own.edges
    ensures ImportGraph.Load(w, n.path, outer) ==
            Success(Tree(n.path, n.storage, n.source, n.includes, Unfolded(nodes, links)))
    ensures Denotes(w, Tree(n.path, n.storage, n.source, n.includes, Unfolded(nodes, links)))
  {
    assert own.edges[|links|..] == [];
    assert Unfolded(nodes, links) + [] == Unfolded(nodes, links);
    LoadedTree(w, Tree(n.path, n.storage, n.source, n.includes, Unfolded(nodes, links)), own, outer);
    assert EdgesOf(nodes, n) == own.edges;
  }

  lemma LoadedTree(w: World, t: Tree, own: Inputs, outer: seq<Path>)
    requires t.path !in outer && OwnInputs(w, t.path) == Success(own)
    requires own.storage == t.storage && own.source == t.source && OwnIncludes(w, t.path) == Success(t.includes)
    requires LoadEdges(w, own.edges, outer + [t.path]) == Success(t.dependencies)
    ensures ImportGraph.Load(w, t.path, outer) == Success(t) && Denotes(w, t)
  {
    assert ImportGraph.Load(w, t.path, outer) == Success(t);
    hide ImportGraph.Load, LoadEdges;
    LoadSound(w, t.path, outer);
  }

  lemma LoadingStart(w: World, nodes: seq<Node>, rebound: Cache, edges: seq<Edge>, active: seq<Path>)
    requires Arena(nodes)
    ensures Loading(w, nodes, rebound, edges, active, [])
  {
    hide LoadEdges;
    assert edges[0..] == edges;
    var all := LoadEdges(w, edges, active);
    if all.Success? {
      assert [] + all.value == all.value;
    }
  }

  /* ---------- one running operation ---------- */

  /** Where an operation started, and where it stands. */
  datatype Start = Start(nodes: seq<Node>, cache: Cache)
  datatype Op = Op(nodes: seq<Node>, entries: Cache, rebound: Cache)

  ghost predicate StoreOk(w: World, nodes: seq<Node>, cache: Cache) {
    PinnedOk(w) && CacheOk(w, nodes, cache)
  }

  ghost predicate StartOk(start: Start) {
    Arena(start.nodes) && forall p :: p in start.cache ==> start.cache[p] < |start.nodes|
  }

  ghost predicate Running(w: World, start: Start, op: Op, open: set<Path>) {
    && StoreOk(w, op.nodes, op.entries)
    && StartOk(start)
    && MemoOk(w, op.nodes, op.entries, op.rebound)
    && Since(w, start.nodes, start.cache, op.nodes, op.entries, op.rebound, open)
  }

  /** The operation may load below the active paths, none of which is completed. */
  ghost predicate Ready(w: World, start: Start, op: Op, active: seq<Path>) {
    Running(w, start, op, {}) && PathSet(active) !! op.rebound.Keys
  }

  /** What loading `path` below `active` does. */
  ghost predicate Outcome(w: World, path: Path, active: seq<Path>, start: Start, before: Op, after: Op, r: Result<NodeId>) {
    && StartOk(start)
    && before.nodes <= after.nodes && StoreOk(w, after.nodes, after.entries)
    && (r.Failure? ==> ImportGraph.Load(w, path, active) == Failure(r.error))
    && (r.Success? ==>
          && r.value < |after.nodes|
          && ImportGraph.Load(w, path, active) == Success(Unfold(after.nodes, r.value))
          && path in after.rebound && after.rebound[path] == r.value
          && Ready(w, start, after, active)
          && Extends(before.rebound, after.rebound)
          && (IntactAt(w, start.nodes, start.cache, path) ==>
                after.nodes == before.nodes && after.entries == before.entries))
  }

  /** A node that was made or confirmed for `path` and is ready to enter the memo. */
  ghost predicate Prepared(w: World, path: Path, outer: seq<Path>, start: Start, before: Op, after: Op, id: NodeId) {
    && StartOk(start) && Arena(after.nodes) && before.nodes <= after.nodes
    && Running(w, start, after, {path})
    && PathSet(outer) !! after.rebound.Keys && path !in after.rebound && path !in outer
    && Extends(before.rebound, after.rebound)
    && id < |after.nodes| && after.nodes[id].path == path
    && path in after.entries && after.entries[path] == id
    && ImportGraph.Load(w, path, outer) == Success(Unfold(after.nodes, id))
    && LinksCompleted(after.nodes, after.rebound, after.nodes[id].dependencies)
    && (if IntactAt(w, start.nodes, start.cache, path) then
          id == start.cache[path] && after.nodes == before.nodes && after.entries == before.entries
        else |start.nodes| <= id)
  }

  lemma MemoGrows(w: World, path: Path, op: Op, id: NodeId)
    requires MemoOk(w, op.nodes, op.entries, op.rebound) && path !in op.rebound
    requires id < |op.nodes| && op.nodes[id].path == path
    requires path in op.entries && op.entries[path] == id
    requires Denotes(w, Unfold(op.nodes, id))
    requires LinksCompleted(op.nodes, op.rebound, op.nodes[id].dependencies)
    ensures MemoOk(w, op.nodes, op.entries, op.rebound[path := id])
  {
    hide Denotes, Unfold;
    var more := op.rebound[path := id];
    forall p | p in more ensures CompletedOk(w, op.nodes, op.entries, more, p) {
      if p != path {
        assert CompletedOk(w, op.nodes, op.entries, op.rebound, p);
      }
    }
  }

  lemma SinceGrows(w: World, path: Path, start: Start, op: Op, id: NodeId)
    requires StartOk(start) && Since(w, start.nodes, start.cache, op.nodes, op.entries, op.rebound, {path})
    requires path in op.entries && op.entries[path] == id
    requires if IntactAt(w, start.nodes, start.cache, path) then id == start.cache[path] else |start.nodes| <= id
    ensures Since(w, start.nodes, start.cache, op.nodes, op.entries, op.rebound[path := id], {})
  {
    hide IntactAt;
  }

  lemma CompletePrepared(w: World, path: Path, outer: seq<Path>, start: Start, before: Op, op: Op, id: NodeId)
    requires Prepared(w, path, outer, start, before, op, id)
    ensures Outcome(w, path, outer, start, before, op.(rebound := op.rebound[path := id]), Success(id))
  {
    hide ImportGraph.Load, Denotes, Unfold, IntactAt, Intact, Matches, MemoOk, CacheOk, LinksCompleted, Arena, OwnInputs, OwnIncludes;
    LoadSound(w, path, outer);
    MemoGrows(w, path, op, id);
    SinceGrows(w, path, start, op, id);
  }

  lemma MemoHit(w: World, path: Path, active: seq<Path>, start: Start, op: Op)
    requires Ready(w, start, op, active) && path in op.rebound
    ensures Outcome(w, path, active, start, op, op, Success(op.rebound[path]))
  {
    assert CompletedOk(w, op.nodes, op.entries, op.rebound, path);
    MemoNeverHidesACycle(w, op.nodes, op.entries, op.rebound, path, active);
  }

  lemma PlainFailure(w: World, path: Path, active: seq<Path>, start: Start, op: Op, error: LoadError)
    requires Ready(w, start, op, active)
    requires ImportGraph.Load(w, path, active) == Failure(error)
    ensures Outcome(w, path, active, start, op, op, Failure(error))
  {
  }

  /** Adds a new node and makes it the cache entry of its path. */
  function Published(op: Op, newest: Node): Op {
    Op(op.nodes + [newest], op.entries[newest.path := |op.nodes|], op.rebound)
  }

  lemma PublishedRunning(w: World, start: Start, op: Op, newest: Node)
    requires Running(w, start, op, {}) && newest.path !in op.rebound
    requires LinksCompleted(op.nodes, op.rebound, newest.dependencies)
    requires Matches(w, op.nodes, newest) && (newest.path in w.pinned ==> Keeps(w, newest))
    ensures Running(w, start, Published(op, newest), {newest.path})
    ensures LinksCompleted(Published(op, newest).nodes, op.rebound, newest.dependencies)
  {
    hide StoreOk, MemoOk, StartOk, Matches, Keeps, Unfold, Intact;
    PublishedStore(w, op, newest);
    PublishedMemo(w, op, newest);
  }

  lemma PublishedArena(w: World, op: Op, newest: Node)
    requires StoreOk(w, op.nodes, op.entries) && LinksCompleted(op.nodes, op.rebound, newest.dependencies)
    requires MemoOk(w, op.nodes, op.entries, op.rebound)
    ensures forall k :: 0 <= k < |newest.dependencies| ==> newest.dependencies[k].node < |op.nodes|
    ensures Arena(Published(op, newest).nodes)
    ensures EdgesOf(Published(op, newest).nodes, newest) == EdgesOf(op.nodes, newest)
  {
    hide ImportGraph.Load, LoadEdges, Denotes, OwnInputs, OwnIncludes, Intact, Unfold;
  }

  lemma PublishedStore(w: World, op: Op, newest: Node)
    requires StoreOk(w, op.nodes, op.entries) && LinksCompleted(op.nodes, op.rebound, newest.dependencies)
    requires MemoOk(w, op.nodes, op.entries, op.rebound)
    requires (forall k :: 0 <= k < |newest.dependencies| ==> newest.dependencies[k].node < |op.nodes|)
    requires Matches(w, op.nodes, newest) && (newest.path in w.pinned ==> Keeps(w, newest))
    ensures StoreOk(w, Published(op, newest).nodes, Published(op, newest).entries)
  {
    hide ImportGraph.Load, LoadEdges, Denotes, OwnInputs, OwnIncludes, Intact, Unfold, MemoOk;
    var after := Published(op, newest);
    PublishedArena(w, op, newest);
    forall p | p in after.entries ensures EntryOk(w, after.nodes, p, after.entries[p]) {
      if p != newest.path {
        EntryStable(w, op.nodes, after.nodes, p, op.entries[p]);
      }
    }
  }

  lemma PublishedMemo(w: World, op: Op, newest: Node)
    requires StoreOk(w, op.nodes, op.entries) && LinksCompleted(op.nodes, op.rebound, newest.dependencies)
    requires MemoOk(w, op.nodes, op.entries, op.rebound) && newest.path !in op.rebound
    ensures MemoOk(w, Published(op, newest).nodes, Published(op, newest).entries, op.rebound)
  {
    hide ImportGraph.Load, LoadEdges, OwnInputs, OwnIncludes, Intact, EntryOk;
    var after := Published(op, newest);
    PublishedArena(w, op, newest);
    forall p | p in op.rebound ensures CompletedOk(w, after.nodes, after.entries, op.rebound, p) {
      assert CompletedOk(w, op.nodes, op.entries, op.rebound, p);
      UnfoldStable(op.nodes, after.nodes, op.rebound[p]);
    }
  }

  /** All dependencies of `newest` are loaded: publishing it prepares its path. */
  lemma PublishedPrepared(w: World, outer: seq<Path>, start: Start, before: Op, op: Op, own: Inputs, newest: Node)
    requires Ready(w, start, op, outer + [newest.path]) && newest.path !in outer
    requires before.nodes <= op.nodes && Extends(before.rebound, op.rebound)
    requires OwnInputs(w, newest.path) == Success(own) && own == Inputs(newest.storage, newest.source, own.edges)
    requires OwnIncludes(w, newest.path) == Success(newest.includes)
    requires Loading(w, op.nodes, op.rebound, own.edges, outer + [newest.path], newest.dependencies)
    requires |newest.dependencies| == |own.edges|
    requires !IntactAt(w, start.nodes, start.cache, newest.path)
    requires newest.path in w.pinned ==> Keeps(w, newest)
    ensures Prepared(w, newest.path, outer, start, before, Published(op, newest), |op.nodes|)
  {
    hide ImportGraph.Load, LoadEdges, Denotes, IntactAt, Running, LinksCompleted, Unfold, OwnInputs, OwnIncludes, MemoOk, Matches;
    var after := Published(op, newest);
    AppendedPaths(outer, newest.path);
    ActiveNotCompleted(w, start, op, newest.path, outer);
    EntryFromStart(w, newest.path, start, op, outer + [newest.path]);
    LoadingFacts(w, op, own, outer, newest);
    LoadingDone(w, op.nodes, op.rebound, own, outer, newest.dependencies, newest);
    PublishedRunning(w, start, op, newest);
    PublishedUnfold(w, start, op, newest);
  }

  lemma LoadingFacts(w: World, op: Op, own: Inputs, outer: seq<Path>, newest: Node)
    requires Loading(w, op.nodes, op.rebound, own.edges, outer + [newest.path], newest.dependencies)
    requires OwnInputs(w, newest.path) == Success(own) && own == Inputs(newest.storage, newest.source, own.edges)
    requires OwnIncludes(w, newest.path) == Success(newest.includes)
    requires |newest.dependencies| == |own.edges|
    ensures Arena(op.nodes) && LinksCompleted(op.nodes, op.rebound, newest.dependencies)
    ensures forall k :: 0 <= k < |newest.dependencies| ==> newest.dependencies[k].node < |op.nodes|
    ensures Matches(w, op.nodes, newest)
  {
    assert EdgesOf(op.nodes, newest) == own.edges;
  }

  lemma PublishedUnfold(w: World, start: Start, op: Op, newest: Node)
    requires Running(w, start, Published(op, newest), {newest.path}) && Arena(op.nodes)
    requires forall k :: 0 <= k < |newest.dependencies| ==> newest.dependencies[k].node < |op.nodes|
    ensures StartOk(start) && Arena(Published(op, newest).nodes)
    ensures Unfold(Published(op, newest).nodes, |op.nodes|) ==
            Tree(newest.path, newest.storage, newest.source, newest.includes, Unfolded(op.nodes, newest.dependencies))
  {
    var after := Published(op, newest);
    UnfoldedStable(op.nodes, after.nodes, newest.dependencies);
    assert Unfold(after.nodes, |op.nodes|).dependencies == Unfolded(after.nodes, newest.dependencies);
  }

  /** All dependencies came back unchanged: the cached node itself is prepared. */
  lemma UnchangedPrepared(w: World, path: Path, outer: seq<Path>, start: Start, before: Op, op: Op, own: Inputs, id: NodeId, loaded: Node)
    requires Ready(w, start, op, outer + [path]) && path !in outer
    requires before.nodes <= op.nodes && Extends(before.rebound, op.rebound)
    requires Rebinding(w, start, path, id, loaded, own)
    requires Loading(w, op.nodes, op.rebound, own.edges, outer + [path], loaded.dependencies)
    requires IntactAt(w, start.nodes, start.cache, path)
    requires op.nodes == before.nodes && op.entries == before.entries
    ensures Prepared(w, path, outer, start, before, op, id)
  {
    hide ImportGraph.Load, LoadEdges, Denotes, OwnInputs, OwnIncludes, MemoOk, Running, Matches, EntryOk, PathSet, IntactAt;
    AppendedPaths(outer, path);
    ActiveNotCompleted(w, start, op, path, outer);
    EntryFromStart(w, path, start, op, outer + [path]);
    RunningOpen(w, start, op, path, outer);
    UnchangedNode(start, op, path, id);
    LoadingDone(w, op.nodes, op.rebound, own, outer, loaded.dependencies, loaded);
    assert Unfold(op.nodes, id).dependencies == Unfolded(op.nodes, loaded.dependencies);
  }

  lemma RunningOpen(w: World, start: Start, op: Op, path: Path, outer: seq<Path>)
    requires Ready(w, start, op, outer + [path])
    ensures Running(w, start, op, {path}) && Arena(op.nodes) && start.nodes <= op.nodes
    ensures IntactAt(w, start.nodes, start.cache, path) && path !in op.rebound ==> path in op.entries
  {
    hide MemoOk, StoreOk;
    ArenaOfStore(w, op.nodes, op.entries);
  }

  lemma ArenaOfStore(w: World, nodes: seq<Node>, cache: Cache)
    requires StoreOk(w, nodes, cache)
    ensures Arena(nodes)
  {
  }

  lemma UnchangedNode(start: Start, op: Op, path: Path, id: NodeId)
    requires start.nodes <= op.nodes && id < |start.nodes|
    ensures id < |op.nodes| && op.nodes[id] == start.nodes[id]
  {
  }

  /** One more edge of the module at `path` was loaded. */
  lemma EdgeLoaded(w: World, active: seq<Path>, start: Start, first: Op, before: Op, after: Op,
                   edges: seq<Edge>, links: seq<Link>, id: NodeId)
    requires StartOk(start) && |links| < |edges|
    requires Loading(w, before.nodes, before.rebound, edges, active, links)
    requires Outcome(w, edges[|links|].path, active, start, before, after, Success(id))
    requires first.nodes <= before.nodes && Extends(first.rebound, before.rebound)
    ensures Loading(w, after.nodes, after.rebound, edges, active, links + [Link(edges[|links|].specifier, id)])
    ensures Ready(w, start, after, active)
    ensures first.nodes <= after.nodes && Extends(first.rebound, after.rebound)
    ensures if IntactAt(w, start.nodes, start.cache, edges[|links|].path)
            then id == start.cache[edges[|links|].path] else |start.nodes| <= id
  {
    LoadingStep(w, before.nodes, before.rebound, after.nodes, after.rebound, edges, active, links, id);
  }

  lemma EdgeFailed(w: World, path: Path, outer: seq<Path>, start: Start, first: Op, before: Op, after: Op,
                   own: Inputs, links: seq<Link>, error: LoadError)
    requires path !in outer && OwnInputs(w, path) == Success(own) && |links| < |own.edges|
    requires Loading(w, before.nodes, before.rebound, own.edges, outer + [path], links)
    requires Outcome(w, own.edges[|links|].path, outer + [path], start, before, after, Failure(error))
    requires first.nodes <= before.nodes
    ensures Outcome(w, path, outer, start, first, after, Failure(error))
  {
    LoadingFails(w, before.nodes, before.rebound, own.edges, outer + [path], links);
    FailedEdges(w, path, own, outer, error);
  }

  /** The cache entry of a path that is not completed is still the one from the start. */
  lemma EntryFromStart(w: World, path: Path, start: Start, op: Op, active: seq<Path>)
    requires Ready(w, start, op, active) && path !in op.rebound
    ensures StoreOk(w, op.nodes, op.entries) && StartOk(start) && start.nodes <= op.nodes
    ensures path in op.entries ==>
              && EntryOk(w, op.nodes, path, op.entries[path])
              && path in start.cache && start.cache[path] == op.entries[path]
              && op.entries[path] < |start.nodes| && start.nodes[op.entries[path]] == op.nodes[op.entries[path]]
    ensures (path in op.entries ==> !Keeps(w, op.nodes[op.entries[path]])) ==>
              !IntactAt(w, start.nodes, start.cache, path) && path !in w.pinned
  {
  }

  lemma ActiveNotCompleted(w: World, start: Start, op: Op, path: Path, outer: seq<Path>)
    requires Ready(w, start, op, outer + [path])
    ensures path !in op.rebound
  {
    assert path in outer + [path];
    assert path in PathSet(outer + [path]);
  }

  class ModuleCache {
    var nodes: seq<Node>
    var entries: Cache
    // the completed-node memo of the running operation
    var rebound: Cache

    ghost function Now(): Op
      reads this
    {
      Op(nodes, entries, rebound)
    }

    ghost predicate Valid(w: World)
      reads this
    {
      StoreOk(w, nodes, entries)
    }

    constructor (nodes: seq<Node>, entries: Cache)
      ensures this.nodes == nodes && this.entries == entries && rebound == map[]
    {
      this.nodes, this.entries, rebound := nodes, entries, map[];
    }

    /** Drops every module that itself owns a changed input; importers stay. */
    method InvalidateLoadedInputs(changed: set<Path>) returns (invalidated: set<Path>)
      requires Arena(nodes) && forall p :: p in entries ==> entries[p] < |nodes| && nodes[entries[p]].path == p
      modifies this`entries
      ensures entries == WithoutInputs(nodes, old(entries), changed)
      ensures invalidated == old(entries).Keys - entries.Keys
    {
      var pending := entries.Keys;
      ghost var before := entries;
      invalidated := {};
      while pending != {}
        invariant pending <= before.Keys
        invariant invalidated <= before.Keys - pending
        invariant entries == before - invalidated
        invariant forall p :: p in before && p !in pending ==>
                    (p in invalidated <==> OwnsChangedInput(nodes[before[p]], changed))
        decreases pending
      {
        var path :| path in pending;
        pending := pending - {path};
        var loaded := nodes[entries[path]];
        if loaded.storage == Snapshot { continue; }
        var sourceChanged := loaded.path in changed;
        var includeChanged := exists included :: included in loaded.includes && included.path in changed;
        if !sourceChanged && !includeChanged { continue; }
        entries := entries - {path};
        invalidated := invalidated + {loaded.path};
      }
    }

    /** Loads a graph. It succeeds exactly when an uncached load does, with the same tree or the
        same error, and every module of the result is the node that the cache then holds. */
    method Load(w: World, path: Path) returns (r: Result<NodeId>)
      requires Valid(w)
      modifies this
      ensures Outcome(w, path, [], Start(old(nodes), old(entries)), old(Now()).(rebound := map[]), Now(), r)
    {
      rebound := map[];
      r := LoadRevision(w, path, [], Start(nodes, entries));
    }

    method LoadRevision(w: World, path: Path, active: seq<Path>, ghost start: Start) returns (r: Result<NodeId>)
      requires Ready(w, start, Now(), active)
      modifies this
      ensures Outcome(w, path, active, start, old(Now()), Now(), r)
      decreases Remaining(w, active), 1, 0
    {
      hide Outcome, Running, Ready, Prepared, ImportGraph.Load, IntactAt, Remaining, PathSet, StoreOk, CacheOk, MemoOk, Since,
           Arena, EntryOk, Matches, Intact, LoadEdges, Unfold, Denotes, StartOk;
      if path in active {
        CycleLoad(w, path, active);
        PlainFailure(w, path, active, start, Now(), ImportCycle(active[IndexOf(active, path)..] + [path]));
        return Failure(ImportCycle(active[IndexOf(active, path)..] + [path]));
      }
      // The active path is checked before the memo.
      if path in rebound {
        MemoHit(w, path, active, start, Now());
        return Success(rebound[path]);
      }
      var nextActive := active + [path];
      ReadyBelow(w, start, Now(), active, path);
      EntryFromStart(w, path, start, Now(), active);
      var cached := path in entries;
      if cached && Keeps(w, nodes[entries[path]]) {
        KeptExists(w, nodes, entries, path);
        InputsExist(w, path);
        RemainingShrinks(w, active, path);
        var loaded := Rebind(w, entries[path], path, active, nextActive, start);
        if loaded.Success? {
          CompletePrepared(w, path, active, start, old(Now()), Now(), loaded.value);
          rebound := rebound[path := loaded.value];
        }
        return loaded;
      }
      if path in w.overlays {
        RemainingShrinks(w, active, path);
        r := LoadSourceRevision(w, path, w.overlays[path], active, nextActive, start);
      } else if path in w.disk {
        RemainingShrinks(w, active, path);
        r := LoadSourceRevision(w, path, w.disk[path], active, nextActive, start);
      } else {
        AbsentLoad(w, path, active);
        PlainFailure(w, path, active, start, Now(), NotFound(path));
        r := Failure(NotFound(path));
      }
    }

    /** Reloads the dependencies of a cached node and makes a new node when one of them changed. */
    method Rebind(w: World, id: NodeId, ghost path: Path, ghost outer: seq<Path>, active: seq<Path>, ghost start: Start)
      returns (r: Result<NodeId>)
      requires Ready(w, start, Now(), active) && path !in outer && active == outer + [path]
      requires EntryOk(w, nodes, path, id) && Keeps(w, nodes[id])
      requires path in entries && entries[path] == id
      modifies this
      ensures r.Failure? ==> Outcome(w, path, outer, start, old(Now()), Now(), r)
      ensures r.Success? ==> Prepared(w, path, outer, start, old(Now()), Now(), r.value)
      decreases Remaining(w, active), 3, 0
    {
      hide Outcome, Running, Ready, Prepared, ImportGraph.Load, IntactAt, Intact, Remaining, Loading, Arena, Extends, Compared, Rebinding,
           Differ, StoreOk, CacheOk, MemoOk, Since, Matches, LoadEdges, Unfold, Denotes, StartOk, PathSet, OwnInputs, OwnIncludes, EdgesOf;
      ghost var first := Now();
      ghost var own := RebindingStart(w, path, outer, start, Now(), id);
      var loaded := nodes[id];

      var changed := false;
      var dependencies: seq<Link> := [];
      var i := 0;
      while i < |loaded.dependencies|
        invariant 0 <= i <= |loaded.dependencies| && |dependencies| == i
        invariant Ready(w, start, Now(), active)
        invariant first.nodes <= nodes && Extends(first.rebound, rebound)
        invariant Loading(w, nodes, rebound, own.edges, active, dependencies)
        invariant Compared(w, start, loaded.dependencies, dependencies)
        invariant changed <==> Differ(loaded.dependencies, dependencies)
        invariant IntactAt(w, start.nodes, start.cache, path) ==> nodes == first.nodes && entries == first.entries
      {
        ghost var before := Now();
        RebindingEdge(w, start, path, id, loaded, own, i);
        var dependency := LoadDependency(w, loaded, i, active, path, id, own, start);
        if dependency.Failure? {
          EdgeFailed(w, path, outer, start, first, before, Now(), own, dependencies, dependency.error);
          return dependency;
        }
        EdgeLoaded(w, active, start, first, before, Now(), own.edges, dependencies, dependency.value);
        IntactEdgeKeeps(w, own.edges[i].path, active, start, before, Now(), dependency.value);
        ComparedStep(w, start, loaded.dependencies, dependencies, dependency.value);
        dependencies := dependencies + [Link(loaded.dependencies[i].specifier, dependency.value)];
        if dependency.value != loaded.dependencies[i].node { changed := true; }
        i := i + 1;
      }
      ComparedDone(w, start, path, id, loaded, own, dependencies);
      if !changed {
        r := Success(id);
        UnchangedPrepared(w, path, outer, start, first, Now(), own, id, loaded);
      } else {
        var newest := Node(loaded.path, loaded.storage, loaded.source, loaded.includes, dependencies);
        RebindingNode(w, start, path, id, loaded, own);
        PublishedPrepared(w, outer, start, first, Now(), own, newest);
        r := Success(|nodes|);
        nodes, entries := nodes + [newest], entries[loaded.path := |nodes|];
      }
    }

    /** The cached dependency, or the import when its path left the cache. */
    method LoadDependency(w: World, loaded: Node, k: nat, active: seq<Path>, ghost path: Path, ghost id: NodeId,
                          ghost own: Inputs, ghost start: Start)
      returns (r: Result<NodeId>)
      requires Ready(w, start, Now(), active) && Rebinding(w, start, path, id, loaded, own)
      requires k < |loaded.dependencies| == |own.edges|
      modifies this
      ensures Outcome(w, own.edges[k].path, active, start, old(Now()), Now(), r)
      decreases Remaining(w, active), 2, 1
    {
      var link := loaded.dependencies[k];
      var previous := nodes[link.node].path;
      assert previous == own.edges[k].path && link.specifier == own.edges[k].specifier;
      assert previous in entries ==> EntryOk(w, nodes, previous, entries[previous]);
      assert previous !in entries ==> previous == w.language.resolve(link.specifier, loaded.path);
      hide Outcome, Running, Ready, Rebinding;
      if previous in entries {
        r := LoadRevision(w, nodes[entries[previous]].path, active, start);
      } else {
        r := LoadImport(w, link.specifier, loaded.path, active, start);
      }
    }

    /** Parses a source and loads its imports and includes. */
    method LoadSourceRevision(w: World, path: Path, source: string, ghost outer: seq<Path>, active: seq<Path>, ghost start: Start)
      returns (r: Result<NodeId>)
      requires Ready(w, start, Now(), active) && path !in outer && active == outer + [path]
      requires path !in w.pinned && EffectiveSource(w, path) == Some(source)
      requires StartOk(start) && !IntactAt(w, start.nodes, start.cache, path)
      modifies this
      ensures Outcome(w, path, outer, start, old(Now()), Now(), r)
      decreases Remaining(w, active), 3, 0
    {
      hide Outcome, Running, Ready, Prepared, ImportGraph.Load, IntactAt, Remaining, Loading, Arena, Extends, Distinct, StoreOk, StartOk,
           PathSet;
      var parsed := w.language.parse(source);
      SourceStart(w, path, source, outer, start, Now());
      if parsed.None? {
        PlainFailure(w, path, outer, start, Now(), ParseFailure(path));
        return Failure(ParseFailure(path));
      }
      var imports := Distinct(parsed.value.imports);
      ghost var own := OwnInputs(w, path).value;
      ghost var edges := own.edges;
      ghost var first := Now();
      LoadingStart(w, nodes, rebound, edges, active);

      var dependencies: seq<Link> := [];
      var i := 0;
      while i < |imports|
        invariant 0 <= i <= |imports| == |edges|
        invariant Ready(w, start, Now(), active)
        invariant first.nodes <= nodes && Extends(first.rebound, rebound)
        invariant |dependencies| == i
        invariant Loading(w, nodes, rebound, edges, active, dependencies)
      {
        ghost var before := Now();
        var dependency := LoadImport(w, imports[i], path, active, start);
        if dependency.Failure? {
          EdgeFailed(w, path, outer, start, first, before, Now(), own, dependencies, dependency.error);
          return dependency;
        }
        EdgeLoaded(w, active, start, first, before, Now(), edges, dependencies, dependency.value);
        dependencies := dependencies + [Link(imports[i], dependency.value)];
        i := i + 1;
      }

      var includes := ReadIncludedFiles(w, path, Distinct(parsed.value.includes));
      if includes.Failure? {
        FailedIncludes(w, path, own, outer, active, nodes, rebound, dependencies);
        FailureAfter(w, path, outer, active, start, first, Now(), includes.error);
        return Failure(includes.error);
      }
      var newest := Node(path, SourceFile, source, includes.value, dependencies);
      PublishedPrepared(w, outer, start, first, Now(), own, newest);
      var id := |nodes|;
      nodes, entries := nodes + [newest], entries[path := id];
      CompletePrepared(w, path, outer, start, first, Now(), id);
      rebound := rebound[path := id];
      r := Success(id);
    }

    method ReadIncludedFiles(w: World, path: Path, includes: seq<Specifier>) returns (r: Result<seq<Included>>)
      ensures r == ReadIncludes(w, path, includes)
    {
      var includedFiles: seq<Included> := [];
      var j := 0;
      assert includes[0..] == includes;
      IncludedStart(ReadIncludes(w, path, includes));
      while j < |includes|
        invariant 0 <= j <= |includes|
        invariant ReadIncludes(w, path, includes) ==
                  IncludedAfter(includedFiles, ReadIncludes(w, path, includes[j..]))
      {
        var includedPath := w.language.resolveInclude(includes[j], path);
        assert includes[j..][0] == includes[j] && includes[j..][1..] == includes[j + 1..];
        if includedPath !in w.disk { return Failure(IncludeNotFound(path, includes[j])); }
        var included := Included(includes[j], includedPath, w.disk[includedPath]);
        IncludedAssociates(includedFiles, included, ReadIncludes(w, path, includes[j + 1..]));
        includedFiles := includedFiles + [included];
        j := j + 1;
      }
      assert includes[j..] == [];
      assert includedFiles + [] == includedFiles;
      r := Success(includedFiles);
    }

    /** A specifier that is not a package name resolves against its importer. */
    method LoadImport(w: World, specifier: Specifier, importer: Path, active: seq<Path>, ghost start: Start)
      returns (r: Result<NodeId>)
      requires Ready(w, start, Now(), active)
      modifies this
      ensures Outcome(w, w.language.resolve(specifier, importer), active, start, old(Now()), Now(), r)
      decreases Remaining(w, active), 2, 0
    {
      hide Outcome, Ready;
      r := LoadRevision(w, w.language.resolve(specifier, importer), active, start);
    }
  }

  /* ---------- small facts used by the loops ---------- */

  lemma KeptExists(w: World, nodes: seq<Node>, cache: Cache, path: Path)
    requires StoreOk(w, nodes, cache) && path in cache && cache[path] < |nodes| && Keeps(w, nodes[cache[path]])
    ensures OwnInputs(w, path).Success?
  {
    hide OwnInputs, OwnIncludes;
    assert EntryOk(w, nodes, path, cache[path]);
  }

  lemma InputsExist(w: World, path: Path)
    requires OwnInputs(w, path).Success? || EffectiveSource(w, path).Some?
    ensures path in Universe(w)
  {
  }

  lemma UnfoldedStable(nodes: seq<Node>, more: seq<Node>, links: seq<Link>)
    requires Arena(nodes) && Arena(more) && nodes <= more
    requires forall k :: 0 <= k < |links| ==> links[k].node < |nodes|
    ensures Unfolded(nodes, links) == Unfolded(more, links)
  {
    forall k | 0 <= k < |links|
      ensures Unfold(nodes, links[k].node) == Unfold(more, links[k].node)
    {
      UnfoldStable(nodes, more, links[k].node);
    }
  }

  lemma ReadyBelow(w: World, start: Start, op: Op, active: seq<Path>, path: Path)
    requires Ready(w, start, op, active) && path !in op.rebound
    ensures Ready(w, start, op, active + [path])
  {
    AppendedPaths(active, path);
  }

  lemma ReadyAbove(w: World, start: Start, op: Op, outer: seq<Path>, path: Path)
    requires Ready(w, start, op, outer + [path])
    ensures Ready(w, start, op, outer)
  {
    AppendedPaths(outer, path);
  }

  lemma FailureAfter(w: World, path: Path, outer: seq<Path>, active: seq<Path>, start: Start, first: Op, op: Op, error: LoadError)
    requires Ready(w, start, op, active) && first.nodes <= op.nodes
    requires ImportGraph.Load(w, path, outer) == Failure(error)
    ensures Outcome(w, path, outer, start, first, op, Failure(error))
  {
  }

  /** The cached node `loaded` at `path` is being rebound; it was there from the start. */
  ghost predicate Rebinding(w: World, start: Start, path: Path, id: NodeId, loaded: Node, own: Inputs) {
    && StartOk(start) && id < |start.nodes| && start.nodes[id] == loaded && loaded.path == path
    && Keeps(w, loaded) && path in start.cache && start.cache[path] == id
    && OwnInputs(w, path) == Success(own)
    && own == Inputs(loaded.storage, loaded.source, EdgesOf(start.nodes, loaded))
    && OwnIncludes(w, path) == Success(loaded.includes)
  }

  lemma SourceStart(w: World, path: Path, source: string, outer: seq<Path>, start: Start, op: Op)
    requires Ready(w, start, op, outer + [path]) && path !in outer
    requires path !in w.pinned && EffectiveSource(w, path) == Some(source)
    ensures Ready(w, start, op, outer) && Arena(op.nodes) && Extends(op.rebound, op.rebound) && StartOk(start)
    ensures w.language.parse(source).None? ==> ImportGraph.Load(w, path, outer) == Failure(ParseFailure(path))
    ensures w.language.parse(source).Some? ==>
              var own := OwnInputs(w, path);
              && own.Success? && own.value.storage == SourceFile && own.value.source == source
              && own.value.edges == ImportEdges(w.language, path, Distinct(w.language.parse(source).value.imports))
              && OwnIncludes(w, path) == ReadIncludes(w, path, Distinct(w.language.parse(source).value.includes))
  {
    ReadyAbove(w, start, op, outer, path);
  }

  lemma RebindingStart(w: World, path: Path, outer: seq<Path>, start: Start, op: Op, id: NodeId) returns (own: Inputs)
    requires Ready(w, start, op, outer + [path])
    requires EntryOk(w, op.nodes, path, id) && Keeps(w, op.nodes[id])
    requires path in op.entries && op.entries[path] == id
    ensures id < |op.nodes| && OwnInputs(w, path) == Success(own)
    ensures Rebinding(w, start, path, id, op.nodes[id], own)
    ensures Loading(w, op.nodes, op.rebound, own.edges, outer + [path], [])
    ensures Compared(w, start, op.nodes[id].dependencies, []) && !Differ(op.nodes[id].dependencies, [])
    ensures |own.edges| == |op.nodes[id].dependencies|
    ensures Extends(op.rebound, op.rebound) && StartOk(start) && start.nodes <= op.nodes
  {
    own := OwnInputs(w, path).value;
    ActiveNotCompleted(w, start, op, path, outer);
    EntryFromStart(w, path, start, op, outer + [path]);
    assert EdgesOf(start.nodes, op.nodes[id]) == EdgesOf(op.nodes, op.nodes[id]);
    LoadingStart(w, op.nodes, op.rebound, own.edges, outer + [path]);
    ComparedStart(w, start, path, id, op.nodes[id], own);
  }

  lemma RebindingEdge(w: World, start: Start, path: Path, id: NodeId, loaded: Node, own: Inputs, k: nat)
    requires Rebinding(w, start, path, id, loaded, own) && k < |loaded.dependencies|
    ensures StartOk(start) && |own.edges| == |loaded.dependencies| && OwnInputs(w, path) == Success(own)
    ensures var link := loaded.dependencies[k];
            && link.node < |start.nodes|
            && own.edges[k] == Edge(link.specifier, start.nodes[link.node].path)
    ensures IntactAt(w, start.nodes, start.cache, path) ==> IntactAt(w, start.nodes, start.cache, own.edges[k].path)
  {
    if IntactAt(w, start.nodes, start.cache, path) {
      assert Intact(w, start.nodes, start.cache, loaded.dependencies[k].node);
    }
  }

  lemma RebindingNode(w: World, start: Start, path: Path, id: NodeId, loaded: Node, own: Inputs)
    requires Rebinding(w, start, path, id, loaded, own)
    ensures StartOk(start) && OwnInputs(w, path) == Success(own) && |own.edges| == |loaded.dependencies|
    ensures own == Inputs(loaded.storage, loaded.source, own.edges) && OwnIncludes(w, path) == Success(loaded.includes)
    ensures loaded.path == path && Keeps(w, loaded)
  {
  }

  lemma ComparedStart(w: World, start: Start, path: Path, id: NodeId, loaded: Node, own: Inputs)
    requires Rebinding(w, start, path, id, loaded, own)
    ensures Compared(w, start, loaded.dependencies, []) && !Differ(loaded.dependencies, [])
  {
  }

  lemma IntactEdgeKeeps(w: World, path: Path, active: seq<Path>, start: Start, before: Op, after: Op, id: NodeId)
    requires Outcome(w, path, active, start, before, after, Success(id))
    ensures StartOk(start)
    ensures IntactAt(w, start.nodes, start.cache, path) ==> after.nodes == before.nodes && after.entries == before.entries
  {
  }

  /** So far, exactly the intact dependencies were loaded as the same node. */
  ghost predicate Compared(w: World, start: Start, previous: seq<Link>, links: seq<Link>) {
    && StartOk(start) && |links| <= |previous|
    && (forall k {:trigger previous[k]} :: 0 <= k < |previous| ==> previous[k].node < |start.nodes|)
    && forall k {:trigger links[k]} {:trigger previous[k]} :: 0 <= k < |links| ==>
         (links[k] == previous[k] <==> Intact(w, start.nodes, start.cache, previous[k].node))
  }

  ghost predicate Differ(previous: seq<Link>, links: seq<Link>)
    requires |links| <= |previous|
  {
    links != previous[..|links|]
  }

  lemma ComparedStep(w: World, start: Start, previous: seq<Link>, links: seq<Link>, id: NodeId)
    requires Compared(w, start, previous, links) && |links| < |previous|
    requires var p := previous[|links|];
             p.node < |start.nodes| &&
             if IntactAt(w, start.nodes, start.cache, start.nodes[p.node].path)
             then id == start.cache[start.nodes[p.node].path] else |start.nodes| <= id
    ensures var more := links + [Link(previous[|links|].specifier, id)];
            && Compared(w, start, previous, more)
            && (Differ(previous, more) <==> Differ(previous, links) || id != previous[|links|].node)
  {
    var p := previous[|links|];
    var more := links + [Link(p.specifier, id)];
    SameNodeIffIntact(w, start.nodes, start.cache, p.node, id);
    forall k | 0 <= k < |more|
      ensures more[k] == previous[k] <==> Intact(w, start.nodes, start.cache, previous[k].node)
    {
      if k < |links| {
        assert more[k] == links[k];
      }
    }
    assert previous[..|more|] == previous[..|links|] + [p];
    assert more[..|links|] == links;
  }

  lemma ComparedDone(w: World, start: Start, path: Path, id: NodeId, loaded: Node, own: Inputs, links: seq<Link>)
    requires Rebinding(w, start, path, id, loaded, own)
    requires Compared(w, start, loaded.dependencies, links) && |links| == |loaded.dependencies|
    ensures StartOk(start) && path in start.cache && start.cache[path] == id
    ensures Differ(loaded.dependencies, links) <==> !IntactAt(w, start.nodes, start.cache, path)
    ensures !Differ(loaded.dependencies, links) ==> links == loaded.dependencies
  {
    var previous := loaded.dependencies;
    assert previous[..|links|] == previous;
    if links != previous {
      var k :| 0 <= k < |links| && links[k] != previous[k];
      assert !Intact(w, start.nodes, start.cache, previous[k].node);
    } else {
      assert forall k :: 0 <= k < |links| ==> links[k] == previous[k];
    }
  }

  lemma LoadingFails(w: World, nodes: seq<Node>, rebound: Cache, edges: seq<Edge>, active: seq<Path>, links: seq<Link>)
    requires Loading(w, nodes, rebound, edges, active, links) && |links| < |edges|
    requires ImportGraph.Load(w, edges[|links|].path, active).Failure?
    ensures LoadEdges(w, edges, active) == Failure(ImportGraph.Load(w, edges[|links|].path, active).error)
  {
    EdgesFail(w, edges, |links|, active, Unfolded(nodes, links));
  }

  lemma FailedEdges(w: World, path: Path, own: Inputs, outer: seq<Path>, error: LoadError)
    requires path !in outer && OwnInputs(w, path) == Success(own)
    requires LoadEdges(w, own.edges, outer + [path]) == Failure(error)
    ensures ImportGraph.Load(w, path, outer) == Failure(error)
  {
  }

  lemma FailedIncludes(w: World, path: Path, own: Inputs, outer: seq<Path>, active: seq<Path>,
                       nodes: seq<Node>, rebound: Cache, links: seq<Link>)
    requires path !in outer && OwnInputs(w, path) == Success(own) && active == outer + [path]
    requires Loading(w, nodes, rebound, own.edges, active, links) && |links| == |own.edges|
    requires OwnIncludes(w, path).Failure?
    ensures ImportGraph.Load(w, path, outer) == Failure(OwnIncludes(w, path).error)
  {
    assert own.edges[|links|..] == [];
  }

  lemma CycleLoad(w: World, path: Path, active: seq<Path>)
    requires path in active
    ensures ImportGraph.Load(w, path, active) == Failure(ImportCycle(active[IndexOf(active, path)..] + [path]))
  {
  }

  lemma AbsentLoad(w: World, path: Path, active: seq<Path>)
    requires path !in active && path !in w.pinned && path !in w.overlays && path !in w.disk
    ensures ImportGraph.Load(w, path, active) == Failure(NotFound(path))
  {
  }

  lemma EdgesFail(w: World, edges: seq<Edge>, i: nat, active: seq<Path>, done: seq<Dependency>)
    requires i < |edges| && ImportGraph.Load(w, edges[i].path, active).Failure?
    requires LoadEdges(w, edges, active) == Prefixed(done, LoadEdges(w, edges[i..], active))
    ensures LoadEdges(w, edges, active) == Failure(ImportGraph.Load(w, edges[i].path, active).error)
  {
    assert edges[i..][0] == edges[i];
  }

  lemma EdgesStep(w: World, edges: seq<Edge>, i: nat, active: seq<Path>, done: seq<Dependency>, next: Tree)
    requires i < |edges| && ImportGraph.Load(w, edges[i].path, active) == Success(next)
    requires LoadEdges(w, edges, active) == Prefixed(done, LoadEdges(w, edges[i..], active))
    ensures LoadEdges(w, edges, active) ==
            Prefixed(done + [Dependency(edges[i].specifier, next)], LoadEdges(w, edges[i + 1..], active))
  {
    var d := Dependency(edges[i].specifier, next);
    var rest := LoadEdges(w, edges[i + 1..], active);
    assert edges[i..][0] == edges[i] && edges[i..][1..] == edges[i + 1..];
    if rest.Success? {
      assert done + ([d] + rest.value) == done + [d] + rest.value;
    }
  }

  function IncludedAfter(done: seq<Included>, rest: Result<seq<Included>>): Result<seq<Included>> {
    var tail :- rest;
    Success(done + tail)
  }

  lemma IncludedStart(rest: Result<seq<Included>>)
    ensures IncludedAfter([], rest) == rest
  {
    if rest.Success? {
      assert [] + rest.value == rest.value;
    }
  }

  lemma IncludedAssociates(done: seq<Included>, next: Included, rest: Result<seq<Included>>)
    ensures IncludedAfter(done, IncludedAfter([next], rest)) == IncludedAfter(done + [next], rest)
  {
    if rest.Success? {
      assert done + ([next] + rest.value) == done + [next] + rest.value;
    }
  }

  lemma SameNodeIffIntact(w: World, nodes0: seq<Node>, cache0: Cache, previous: NodeId, loaded: NodeId)
    requires Arena(nodes0) && previous < |nodes0|
    requires var p := nodes0[previous].path;
             if IntactAt(w, nodes0, cache0, p) then loaded == cache0[p] else |nodes0| <= loaded
    ensures loaded == previous <==> Intact(w, nodes0, cache0, previous)
  {
  }

  /* ---------- invalidation ---------- */

  predicate OwnsChangedInput(n: Node, changed: set<Path>) {
    n.storage != Snapshot &&
    (n.path in changed || exists included :: included in n.includes && included.path in changed)
  }

  ghost function WithoutInputs(nodes: seq<Node>, cache: Cache, changed: set<Path>): Cache {
    map p | p in cache && !(cache[p] < |nodes| && OwnsChangedInput(nodes[cache[p]], changed)) :: cache[p]
  }
}
