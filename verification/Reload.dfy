/** Which nodes survive an invalidation and the next load, by identity. */
module Reload {
  import opened ImportGraph
  import opened ModuleLoader

  /** After a load, every completed module is held by the cache together with all below it. */
  lemma {:induction false} CompletedIsIntact(w: World, nodes: seq<Node>, cache: Cache, rebound: Cache, path: Path)
    requires CacheOk(w, nodes, cache) && MemoOk(w, nodes, cache, rebound) && path in rebound
    ensures Intact(w, nodes, cache, rebound[path])
    decreases rebound[path]
  {
    assert CompletedOk(w, nodes, cache, rebound, path);
    assert EntryOk(w, nodes, path, cache[path]);
    var n := nodes[rebound[path]];
    forall k | 0 <= k < |n.dependencies|
      ensures Intact(w, nodes, cache, n.dependencies[k].node)
    {
      CompletedIsIntact(w, nodes, cache, rebound, nodes[n.dependencies[k].node].path);
    }
  }

  lemma {:induction false} IntactClosed(w: World, nodes: seq<Node>, cache: Cache, id: NodeId, path: Path)
    requires Arena(nodes) && id < |nodes| && Intact(w, nodes, cache, id)
    requires path in Paths(Unfold(nodes, id))
    ensures path in cache && cache[path] < |nodes| && nodes[cache[path]].path == path
    ensures Intact(w, nodes, cache, cache[path])
    ensures Paths(Unfold(nodes, cache[path])) <= Paths(Unfold(nodes, id))
    decreases id
  {
    var t := Unfold(nodes, id);
    if path != t.path {
      var i :| 0 <= i < |t.dependencies| && path in Paths(t.dependencies[i].target);
      IntactClosed(w, nodes, cache, nodes[id].dependencies[i].node, path);
    }
  }

  /** The module or one that it reaches, as loaded, owns a changed input. */
  ghost predicate ReachesChange(nodes: seq<Node>, cache: Cache, id: NodeId, changed: set<Path>)
    requires Arena(nodes) && id < |nodes|
  {
    exists q :: q in Paths(Unfold(nodes, id)) && q in cache && cache[q] < |nodes|
                && OwnsChangedInput(nodes[cache[q]], changed)
  }

  /** Overlays differ only for modules that own a changed input. */
  ghost predicate KeepsUnchanged(w: World, nodes: seq<Node>, cache: Cache, id: NodeId, changed: set<Path>)
    requires Arena(nodes) && id < |nodes|
  {
    forall q :: q in Paths(Unfold(nodes, id)) && q in cache && cache[q] < |nodes| ==>
      OwnsChangedInput(nodes[cache[q]], changed) || Keeps(w, nodes[cache[q]])
  }

  lemma {:induction false} SurvivesIffUnreached(w: World, w': World, nodes: seq<Node>, cache: Cache, id: NodeId, changed: set<Path>)
    requires Arena(nodes) && id < |nodes| && Intact(w, nodes, cache, id)
    requires KeepsUnchanged(w', nodes, cache, id, changed)
    ensures Intact(w', nodes, WithoutInputs(nodes, cache, changed), id) <==>
            !ReachesChange(nodes, cache, id, changed)
    decreases id
  {
    var n, t, left := nodes[id], Unfold(nodes, id), WithoutInputs(nodes, cache, changed);
    assert n.path in Paths(t);
    forall k | 0 <= k < |n.dependencies|
      ensures Paths(t.dependencies[k].target) <= Paths(t)
      ensures Intact(w', nodes, left, n.dependencies[k].node) <==>
              !ReachesChange(nodes, cache, n.dependencies[k].node, changed)
    {
      assert t.dependencies[k].target == Unfold(nodes, n.dependencies[k].node);
      SurvivesIffUnreached(w, w', nodes, cache, n.dependencies[k].node, changed);
    }
    if ReachesChange(nodes, cache, id, changed) {
      var q :| q in Paths(t) && q in cache && cache[q] < |nodes| && OwnsChangedInput(nodes[cache[q]], changed);
      if q != n.path {
        var k :| 0 <= k < |t.dependencies| && q in Paths(t.dependencies[k].target);
        assert ReachesChange(nodes, cache, n.dependencies[k].node, changed);
      }
    } else {
      forall k | 0 <= k < |n.dependencies|
        ensures !ReachesChange(nodes, cache, n.dependencies[k].node, changed)
      {
        assert Paths(t.dependencies[k].target) <= Paths(t);
      }
    }
  }

  /** After a completed load of `root` and the invalidation of `changed`, loading again keeps the
      identical node for every module that cannot reach a changed input, and makes a new node
      for every module still loaded that can. With nothing changed, nothing at all changes. */
  lemma ReloadIdentity(w: World, w': World, nodes: seq<Node>, cache: Cache, root: Path, changed: set<Path>,
                       after: Op, r: NodeId, path: Path)
    requires Arena(nodes) && root in cache && cache[root] < |nodes| && nodes[cache[root]].path == root
    requires Intact(w, nodes, cache, cache[root])
    requires KeepsUnchanged(w', nodes, cache, cache[root], changed)
    requires var left := WithoutInputs(nodes, cache, changed);
             Outcome(w', root, [], Start(nodes, left), Op(nodes, left, map[]), after, Success(r))
    requires path in Paths(Unfold(nodes, cache[root]))
    ensures path in cache && cache[path] < |nodes|
    ensures !ReachesChange(nodes, cache, cache[path], changed) ==>
              path in after.entries && after.entries[path] == cache[path]
    ensures ReachesChange(nodes, cache, cache[path], changed) && path in after.rebound ==>
              path in after.entries && after.entries[path] == after.rebound[path] >= |nodes|
    ensures changed == {} ==> r == cache[root] && after.nodes == nodes && after.entries == cache
  {
    hide Outcome, Intact, Unfold, Paths, ReachesChange, KeepsUnchanged, WithoutInputs, Arena;
    var left := WithoutInputs(nodes, cache, changed);
    IntactClosed(w, nodes, cache, cache[root], path);
    LeftOver(nodes, cache, changed, path);
    LeftOver(nodes, cache, changed, root);
    KeepsBelow(w', nodes, cache, cache[root], cache[path], changed);
    SurvivesIffUnreached(w, w', nodes, cache, cache[path], changed);
    AfterReload(w', root, Start(nodes, left), Op(nodes, left, map[]), after, r, path);
    if changed == {} {
      NothingChanged(nodes, cache, changed, cache[root]);
      SurvivesIffUnreached(w, w', nodes, cache, cache[root], changed);
      AfterReload(w', root, Start(nodes, left), Op(nodes, left, map[]), after, r, root);
    }
  }

  lemma KeepsBelow(w: World, nodes: seq<Node>, cache: Cache, id: NodeId, below: NodeId, changed: set<Path>)
    requires Arena(nodes) && id < |nodes| && below < |nodes|
    requires Paths(Unfold(nodes, below)) <= Paths(Unfold(nodes, id))
    requires KeepsUnchanged(w, nodes, cache, id, changed)
    ensures KeepsUnchanged(w, nodes, cache, below, changed)
  {
  }

  lemma LeftOver(nodes: seq<Node>, cache: Cache, changed: set<Path>, path: Path)
    requires Arena(nodes) && path in cache && cache[path] < |nodes| && nodes[cache[path]].path == path
    ensures var left := WithoutInputs(nodes, cache, changed);
            && (path in left ==> left[path] == cache[path])
            && (path !in left ==> ReachesChange(nodes, cache, cache[path], changed))
  {
    assert path in Paths(Unfold(nodes, cache[path]));
  }

  lemma NothingChanged(nodes: seq<Node>, cache: Cache, changed: set<Path>, id: NodeId)
    requires Arena(nodes) && id < |nodes| && changed == {}
    ensures WithoutInputs(nodes, cache, changed) == cache && !ReachesChange(nodes, cache, id, changed)
  {
  }

  lemma AfterReload(w: World, root: Path, start: Start, before: Op, after: Op, r: NodeId, path: Path)
    requires Outcome(w, root, [], start, before, after, Success(r))
    requires before.entries == start.cache && before.nodes == start.nodes
    ensures StartOk(start)
    ensures IntactAt(w, start.nodes, start.cache, path) ==>
              path in after.entries && after.entries[path] == start.cache[path]
    ensures !IntactAt(w, start.nodes, start.cache, path) && path in after.rebound ==>
              path in after.entries && after.entries[path] == after.rebound[path] >= |start.nodes|
    ensures IntactAt(w, start.nodes, start.cache, root) ==>
              after.nodes == start.nodes && after.entries == start.cache && r == start.cache[root]
  {
    if path in after.rebound {
      assert CompletedOk(w, after.nodes, after.entries, after.rebound, path);
    }
  }

  /** What a reload needs to know is what every load leaves behind. */
  lemma LoadLeavesIntact(w: World, root: Path, start: Start, before: Op, after: Op, r: NodeId)
    requires Outcome(w, root, [], start, before, after, Success(r))
    ensures Intact(w, after.nodes, after.entries, r)
    ensures root in after.entries && after.entries[root] == r && after.nodes[r].path == root
    ensures forall p :: p in Paths(Unfold(after.nodes, r)) ==>
              p in after.entries && after.entries[p] < |after.nodes|
              && after.nodes[after.entries[p]].path == p && p in after.rebound
  {
    CompletedIsIntact(w, after.nodes, after.entries, after.rebound, root);
    assert CompletedOk(w, after.nodes, after.entries, after.rebound, root);
    MemoClosed(w, after.nodes, after.entries, after.rebound, root);
    forall p | p in Paths(Unfold(after.nodes, r))
      ensures p in after.entries && after.entries[p] < |after.nodes| && after.nodes[after.entries[p]].path == p
    {
      IntactClosed(w, after.nodes, after.entries, r, p);
    }
  }
}
