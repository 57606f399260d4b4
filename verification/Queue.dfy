/** FIFO admission with constant-time removal: a doubly linked list that refines a sequence. */
module Queues {
  datatype Option<+T> = None | Some(value: T)

  class Entry<T> {
    const value: T
    var previous: Entry?<T>
    var next: Entry?<T>
    var linked: bool

    constructor (value: T, previous: Entry?<T>)
      ensures this.value == value && this.previous == previous && next == null && linked
    {
      this.value, this.previous, this.next, this.linked := value, previous, null, true;
    }
  }

  /** The sequence without the entry at `i`. */
  function RemoveAt<T>(s: seq<T>, i: nat): seq<T>
    requires i < |s|
  {
    s[..i] + s[i + 1..]
  }

  ghost predicate Distinct<T>(s: seq<T>) {
    forall i, j :: 0 <= i < j < |s| ==> s[i] != s[j]
  }

  /** The sequence without this entry, which it holds at most once. */
  ghost function Excluding<T>(s: seq<T>, x: T): (r: seq<T>)
    ensures x !in s ==> r == s
  {
    if s == [] then [] else (if s[0] == x then [] else [s[0]]) + Excluding(s[1..], x)
  }

  lemma ExcludingAbsent<T>(s: seq<T>, x: T)
    requires x !in s
    ensures Excluding(s, x) == s
  {
  }

  lemma {:induction false} ExcludingAt<T>(s: seq<T>, i: nat)
    requires i < |s| && Distinct(s)
    ensures Excluding(s, s[i]) == RemoveAt(s, i)
  {
    if i == 0 {
      assert s[0] !in s[1..];
      assert RemoveAt(s, 0) == s[1..];
    } else {
      assert s[1..][i - 1] == s[i];
      ExcludingAt(s[1..], i - 1);
      assert RemoveAt(s, i) == [s[0]] + RemoveAt(s[1..], i - 1);
    }
  }

  /** The order in which handles are used does not matter, and using one twice is using it once. */
  lemma {:induction false} ExcludingCommutes<T>(s: seq<T>, x: T, y: T)
    ensures Excluding(Excluding(s, x), y) == Excluding(Excluding(s, y), x)
    ensures Excluding(Excluding(s, x), x) == Excluding(s, x)
  {
    if s != [] {
      ExcludingCommutes(s[1..], x, y);
      ExcludingCons(s[0], Excluding(s[1..], x), y);
      ExcludingCons(s[0], Excluding(s[1..], y), x);
      ExcludingCons(s[0], Excluding(s[1..], x), x);
      assert [] + Excluding(s[1..], x) == Excluding(s[1..], x);
      assert [] + Excluding(s[1..], y) == Excluding(s[1..], y);
    }
  }

  lemma ExcludingCons<T>(first: T, rest: seq<T>, x: T)
    ensures Excluding([first] + rest, x) == (if first == x then [] else [first]) + Excluding(rest, x)
  {
    assert ([first] + rest)[1..] == rest;
  }

  lemma RemoveAtKeeps<T>(s: seq<T>, i: nat)
    requires i < |s| && Distinct(s)
    ensures var r := RemoveAt(s, i);
            && |r| == |s| - 1 && Distinct(r) && s[i] !in r
            && (forall k {:trigger r[k]} :: 0 <= k < |r| ==> r[k] == s[if k < i then k else k + 1])
            && (forall x :: x in s && x != s[i] ==> x in r) && (forall x :: x in r ==> x in s)
  {
    var r := RemoveAt(s, i);
    forall x | x in s && x != s[i] ensures x in r {
      var j :| 0 <= j < |s| && s[j] == x;
      assert r[if j < i then j else j - 1] == x;
    }
  }

  lemma DistinctAt<T>(s: seq<T>, i: int, j: int)
    requires Distinct(s)
    ensures 0 <= i < |s| && 0 <= j < |s| && s[i] == s[j] ==> i == j
  {
  }

  /** The element at a position, or `none` beside the list. */
  ghost function At<R>(list: seq<R>, i: int, none: R): R {
    if 0 <= i < |list| then list[i] else none
  }

  /** What removal at a position does to the ends. */
  lemma AtEnds<R>(before: seq<R>, i: nat, none: R)
    requires i < |before|
    ensures At(before, i - 1, none) == (if i > 0 then before[i - 1] else none)
    ensures At(before, i + 1, none) == (if i + 1 < |before| then before[i + 1] else none)
    ensures At(before, 0, none) == before[0] && At(before, |before| - 1, none) == before[|before| - 1]
    ensures var after := RemoveAt(before, i);
            && At(after, 0, none) == (if i == 0 then At(before, 1, none) else before[0])
            && At(after, |after| - 1, none) == (if i == |before| - 1 then At(before, i - 1, none) else before[|before| - 1])
  {
  }

  /** What removal at a position does to the neighbours of each other element. */
  lemma Neighbours<R>(before: seq<R>, i: nat, k: nat, none: R)
    requires i < |before| && k < |before| - 1 && |RemoveAt(before, i)| == |before| - 1
    ensures var after, j := RemoveAt(before, i), if k < i then k else k + 1;
            && after[k] == before[j]
            && At(after, k - 1, none) == (if k == i then At(before, i - 1, none) else At(before, j - 1, none))
            && At(after, k + 1, none) == (if k + 1 == i then At(before, i + 1, none) else At(before, j + 1, none))
  {
  }

  lemma SameRemoval<T>(s: seq<Entry<T>>, i: nat)
    requires i < |s|
    ensures RemoveAt<Entry?<T>>(s, i) == RemoveAt<Entry<T>>(s, i)
  {
  }

  /** The entry points at its neighbours. */
  ghost predicate Linked<T>(entries: seq<Entry<T>>, i: nat)
    requires i < |entries|
    reads entries
  {
    entries[i].previous == At<Entry?<T>>(entries, i - 1, null) && entries[i].next == At<Entry?<T>>(entries, i + 1, null)
  }

  class Queue<T> {
    var first: Entry?<T>
    var last: Entry?<T>
    var size: nat
    // the linked entries in order, and every entry ever pushed
    ghost var entries: seq<Entry<T>>
    ghost var known: set<Entry<T>>

    ghost predicate Valid()
      reads this, known
    {
      && Distinct(entries) && size == |entries|
      && (forall e :: e in entries ==> e in known)
      && (forall e :: e in known ==> (e.linked <==> e in entries))
      && first == At<Entry?<T>>(entries, 0, null) && last == At<Entry?<T>>(entries, |entries| - 1, null)
      && (forall i {:trigger Linked(entries, i)} :: 0 <= i < |entries| ==> Linked(entries, i))
    }

    /** The queued values, oldest first. */
    ghost function Contents(): (s: seq<T>)
      reads this
      ensures |s| == |entries| && forall i :: 0 <= i < |s| ==> s[i] == entries[i].value
    {
      seq(|entries|, i requires 0 <= i < |entries| reads this => entries[i].value)
    }

    constructor ()
      ensures Valid() && entries == [] && fresh(known)
    {
      first, last, size, entries, known := null, null, 0, [], {};
    }

    method Peek() returns (r: Option<T>)
      requires Valid()
      ensures r == if Contents() == [] then None else Some(Contents()[0])
    {
      r := if first == null then None else Some(first.value);
    }

    /** The returned entry is the handle that removes it. */
    method Push(value: T) returns (entry: Entry<T>)
      requires Valid()
      modifies this, last
      ensures Valid() && fresh(entry) && entry.value == value
      ensures entries == old(entries) + [entry] && known == old(known) + {entry}
      ensures Contents() == old(Contents()) + [value]
    {
      ghost var before := entries;
      entry := new Entry<T>(value, last);
      if last == null { first := entry; } else { last.next := entry; }
      last := entry;
      size := size + 1;
      entries, known := entries + [entry], known + {entry};
      forall i | 0 <= i < |entries| ensures Linked(entries, i) {
        if i < |before| {
          assert old(Linked(before, i)) && before[i] in old(known);
        }
      }
    }

    method Shift() returns (r: Option<T>)
      requires Valid()
      modifies this, known
      ensures Valid() && known == old(known)
      ensures r == if old(entries) == [] then None else Some(old(Contents())[0])
      ensures old(entries) == [] ==> entries == []
      ensures old(entries) != [] ==> entries == old(entries)[1..] && Contents() == old(Contents())[1..]
    {
      var entry := first;
      if entry == null { return None; }
      ExcludingAt(entries, 0);
      Remove(entry);
      r := Some(entry.value);
    }

    method Clear()
      requires Valid()
      modifies this, known
      ensures Valid() && known == old(known) && entries == []
    {
      while first != null
        invariant Valid() && known == old(known)
        decreases |entries|
      {
        ExcludingAt(entries, 0);
        Remove(first);
      }
    }

    /** Removes exactly this entry; a second removal changes nothing, whatever was pushed since. */
    method Remove(entry: Entry<T>)
      requires Valid() && entry in known
      modifies this, known
      ensures Valid() && known == old(known)
      ensures entries == Excluding(old(entries), entry) && entry !in entries && !entry.linked
      ensures entry !in old(entries) ==> Contents() == old(Contents())
      ensures forall i :: 0 <= i < |old(entries)| && old(entries)[i] == entry ==> Contents() == RemoveAt(old(Contents()), i)
    {
      hide Distinct, Excluding, RemoveAt;
      if !entry.linked {
        ExcludingAbsent(entries, entry);
        return;
      }
      ghost var i :| 0 <= i < |entries| && entries[i] == entry;
      ghost var before, contents := entries, Contents();
      ExcludingAt(before, i);
      RemoveAtKeeps(before, i);
      Unlink(entry, i);
      ContentsAt(before, contents, i);
      forall j | 0 <= j < |before| && before[j] == entry ensures j == i {
        DistinctAt(before, i, j);
      }
    }

    lemma ContentsAt(before: seq<Entry<T>>, contents: seq<T>, i: nat)
      requires i < |before| && entries == RemoveAt(before, i) && |contents| == |before|
      requires forall j :: 0 <= j < |before| ==> contents[j] == before[j].value
      ensures Contents() == RemoveAt(contents, i)
    {
    }

    method Unlink(entry: Entry<T>, ghost i: nat)
      requires Valid() && entry in known && i < |entries| && entries[i] == entry
      modifies this, known
      ensures Valid() && known == old(known) && entries == RemoveAt(old(entries), i) && !entry.linked
    {
      hide RemoveAt, Distinct, At;
      ghost var before := entries;
      SameRemoval(before, i);
      AtEnds<Entry?<T>>(before, i, null);
      RemoveAtKeeps(before, i);
      assert Linked(before, i);
      assert i > 0 ==> Linked(before, i - 1) && before[i - 1] in known;
      assert i < |before| - 1 ==> Linked(before, i + 1) && before[i + 1] in known;
      if entry.previous == null { first := entry.next; } else { entry.previous.next := entry.next; }
      if entry.next == null { last := entry.previous; } else { entry.next.previous := entry.previous; }
      entry.previous, entry.next := null, null;
      entry.linked := false;
      size := size - 1;
      entries := RemoveAt(before, i);
      ghost var after := entries;
      forall k | 0 <= k < |after| ensures Linked(after, k) {
        ghost var j := if k < i then k else k + 1;
        assert after[k] == before[j] && before[j] in known && old(Linked(before, j));
        DistinctAt(before, i, j);
        DistinctAt(before, i - 1, j);
        DistinctAt(before, i + 1, j);
        Neighbours<Entry?<T>>(before, i, k, null);
      }
    }
  }
}
