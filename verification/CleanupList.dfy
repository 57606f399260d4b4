/** The cleanup list of a scope: linked entries, reached from the youngest, that refine a sequence. */
module CleanupLists {
  import opened ScopeProtocol
  import Q = Queues

  class Cleanup {
    const entry: Entry
    var previous: Cleanup?
    var next: Cleanup?

    constructor (entry: Entry, previous: Cleanup?)
      ensures this.entry == entry && this.previous == previous && next == null
    {
      this.entry, this.previous, this.next := entry, previous, null;
    }
  }

  /** Taking out the entry at a position is leaving that entry out. */
  lemma {:induction false} LessIsRemoval(cleanups: seq<Entry>, i: nat)
    requires Ascending(cleanups) && i < |cleanups|
    ensures Less(cleanups, cleanups[i]) == Q.RemoveAt(cleanups, i)
  {
    var rest := cleanups[1..];
    if i == 0 {
      assert cleanups[0] !in rest;
      assert [] + Less(rest, cleanups[0]) == Q.RemoveAt(cleanups, 0);
    } else {
      assert rest[i - 1] == cleanups[i] && cleanups[0] != cleanups[i];
      LessIsRemoval(rest, i - 1);
      assert Q.RemoveAt(cleanups, i) == [cleanups[0]] + Q.RemoveAt(rest, i - 1);
    }
  }

  ghost predicate Linked(nodes: seq<Cleanup>, i: nat)
    requires i < |nodes|
    reads nodes
  {
    nodes[i].previous == Q.At<Cleanup?>(nodes, i - 1, null) && nodes[i].next == Q.At<Cleanup?>(nodes, i + 1, null)
  }

  lemma SameRemoval(nodes: seq<Cleanup>, i: nat)
    requires i < |nodes|
    ensures Q.RemoveAt<Cleanup?>(nodes, i) == Q.RemoveAt<Cleanup>(nodes, i)
  {
  }

  class CleanupList {
    var last: Cleanup?
    // the linked nodes, oldest first
    ghost var nodes: seq<Cleanup>

    ghost predicate Valid()
      reads this, nodes
    {
      && Q.Distinct(nodes) && last == Q.At<Cleanup?>(nodes, |nodes| - 1, null)
      && (forall i {:trigger Linked(nodes, i)} :: 0 <= i < |nodes| ==> Linked(nodes, i))
    }

    /** The entries, oldest first. */
    ghost function Contents(): (s: seq<Entry>)
      reads this
      ensures |s| == |nodes| && forall i :: 0 <= i < |s| ==> s[i] == nodes[i].entry
    {
      seq(|nodes|, i requires 0 <= i < |nodes| reads this => nodes[i].entry)
    }

    constructor ()
      ensures Valid() && nodes == []
    {
      last, nodes := null, [];
    }

    /** `#appendCleanup`. */
    method Append(entry: Entry) returns (cleanup: Cleanup)
      requires Valid()
      modifies this, last
      ensures Valid() && fresh(cleanup) && cleanup.entry == entry && nodes == old(nodes) + [cleanup]
      ensures Contents() == old(Contents()) + [entry]
    {
      ghost var before := nodes;
      cleanup := new Cleanup(entry, last);
      if last != null { last.next := cleanup; }
      last := cleanup;
      nodes := before + [cleanup];
      forall i | 0 <= i < |nodes| ensures Linked(nodes, i) {
        if i < |before| { assert old(Linked(before, i)); }
      }
    }

    /** `#removeCleanup`: a cleanup of this list, wherever it stands. */
    method Remove(cleanup: Cleanup)
      requires Valid() && cleanup in nodes
      modifies this, nodes
      ensures Valid() && nodes == Q.Excluding(old(nodes), cleanup) && cleanup.previous == null && cleanup.next == null
      ensures Ascending(old(Contents())) ==> Contents() == Less(old(Contents()), cleanup.entry)
    {
      hide Q.Distinct, Q.Excluding, Q.RemoveAt, Ascending, Less;
      ghost var i :| 0 <= i < |nodes| && nodes[i] == cleanup;
      ghost var before, contents := nodes, Contents();
      Q.ExcludingAt(before, i);
      Unlink(cleanup, i);
      ContentsAt(before, contents, i);
      if Ascending(contents) { LessIsRemoval(contents, i); }
    }

    lemma ContentsAt(before: seq<Cleanup>, contents: seq<Entry>, i: nat)
      requires i < |before| && nodes == Q.RemoveAt(before, i) && |contents| == |before|
      requires forall j :: 0 <= j < |before| ==> contents[j] == before[j].entry
      ensures Contents() == Q.RemoveAt(contents, i)
    {
    }

    method Unlink(cleanup: Cleanup, ghost i: nat)
      requires Valid() && i < |nodes| && nodes[i] == cleanup
      modifies this, nodes
      ensures Valid() && nodes == Q.RemoveAt(old(nodes), i) && cleanup.previous == null && cleanup.next == null
    {
      hide Q.RemoveAt, Q.Distinct, Q.At;
      ghost var before := nodes;
      SameRemoval(before, i);
      Q.AtEnds<Cleanup?>(before, i, null);
      Q.RemoveAtKeeps(before, i);
      assert Linked(before, i);
      assert i > 0 ==> Linked(before, i - 1);
      assert i < |before| - 1 ==> Linked(before, i + 1);
      if cleanup.previous != null { cleanup.previous.next := cleanup.next; }
      if cleanup.next == null { last := cleanup.previous; } else { cleanup.next.previous := cleanup.previous; }
      cleanup.previous := null;
      cleanup.next := null;
      nodes := Q.RemoveAt(before, i);
      ghost var after := nodes;
      forall k | 0 <= k < |after| ensures Linked(after, k) {
        ghost var j := if k < i then k else k + 1;
        assert after[k] == before[j] && old(Linked(before, j));
        Q.DistinctAt(before, i, j);
        Q.DistinctAt(before, i - 1, j);
        Q.DistinctAt(before, i + 1, j);
        Q.Neighbours<Cleanup?>(before, i, k, null);
      }
    }
  }
}
