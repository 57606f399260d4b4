/** What staging a batch of overlays leaves behind. */
module OverlayStaging {
  import opened ImportGraph
  import opened ModuleLoader
  import opened Workspace

  /** A version that nobody chose is the least above the last such one and above the overlay's own. */
  lemma FreshVersionsAreNext(s: State, path: Path, u: int)
    ensures var v := NextVersion(s, path);
            && v > s.overlaySequence && (if path in s.overlays then v > s.overlays[path].version else v > 0)
            && (u > s.overlaySequence && (if path in s.overlays then u > s.overlays[path].version else u > 0) ==> v <= u)
  {
  }

  /** The overlay at this path is another one. */
  predicate Changed(s: State, t: State, p: Path) {
    p in t.overlays && (p !in s.overlays || t.overlays[p] != s.overlays[p])
  }

  /** The last of the entries at this path. */
  ghost predicate LastAt(entries: seq<StagedOverlay>, p: Path, k: nat) {
    k < |entries| && entries[k].path == p && forall j :: k < j < |entries| ==> entries[j].path != p
  }

  ghost predicate Mentioned(entries: seq<StagedOverlay>, p: Path) {
    exists e :: e in entries && e.path == p
  }

  /** Nothing is loaded, and exactly the changed overlays become roots and dirty inputs. */
  ghost predicate OnlyMarks(s: State, t: State) {
    && t.nodes == s.nodes && t.loaded == s.loaded && s.overlays.Keys <= t.overlays.Keys
    && (forall p :: p in t.roots <==> p in s.roots || Changed(s, t, p))
    && (forall p :: p in t.dirty <==> p in s.dirty || Changed(s, t, p))
    && (forall p :: p in s.overlays && Changed(s, t, p) ==> s.overlays[p].version < t.overlays[p].version)
  }

  /** The overlay at a mentioned path has the text of its last entry, and its version if it names one;
      all other overlays stay. */
  ghost predicate ShowsLast(s: State, t: State, entries: seq<StagedOverlay>) {
    && (forall p :: !Mentioned(entries, p) ==> !Changed(s, t, p))
    && forall p, k: nat :: LastAt(entries, p, k) ==>
         && p in t.overlays && t.overlays[p].source == entries[k].source
         && (entries[k].version.Some? ==> t.overlays[p].version == entries[k].version.value)
  }

  lemma OneMarks(s: State, e: StagedOverlay)
    ensures OnlyMarks(s, StageOne(s, e).0)
    ensures StageOne(s, e).1.Done? ==>
              var t := StageOne(s, e).0;
              && e.path in t.overlays && t.overlays[e.path].source == e.source
              && (e.version.Some? ==> t.overlays[e.path].version == e.version.value)
              && forall p :: p != e.path ==> !Changed(s, t, p)
  {
  }

  lemma MarksTrans(s: State, u: State, t: State)
    requires OnlyMarks(s, u) && OnlyMarks(u, t)
    ensures OnlyMarks(s, t)
    ensures forall p :: Changed(s, t, p) <==> Changed(s, u, p) || Changed(u, t, p)
  {
  }

  /** Staging reads and loads nothing: after any batch, refused or not, exactly the paths whose overlay
      has changed are new roots and new dirty inputs, and versions have grown where they changed; an
      accepted batch shows the last entry of every path. */
  lemma {:induction false} BatchesOnlyMark(s: State, entries: seq<StagedOverlay>)
    ensures OnlyMarks(s, StageAll(s, entries).0)
    ensures StageAll(s, entries).1.Done? ==> ShowsLast(s, StageAll(s, entries).0, entries)
    decreases |entries|
  {
    hide StageOne, Changed, OnlyMarks;
    if entries == [] {
      NothingMarked(s);
      assert StageAll(s, entries) == (s, Done(()));
    } else {
      var u := StageOne(s, entries[0]).0;
      OneMarks(s, entries[0]);
      if StageOne(s, entries[0]).1.Done? {
        var rest := entries[1..];
        var t := StageAll(u, rest).0;
        BatchesOnlyMark(u, rest);
        MarksTrans(s, u, t);
        if StageAll(u, rest).1.Done? {
          forall p | !Mentioned(entries, p) ensures !Changed(s, t, p) {
            assert entries[0] in entries;
            assert forall e :: e in rest ==> e in entries;
          }
          forall p, k: nat | LastAt(entries, p, k)
            ensures p in t.overlays && t.overlays[p].source == entries[k].source
            ensures entries[k].version.Some? ==> t.overlays[p].version == entries[k].version.value
          {
            if k > 0 {
              assert LastAt(rest, p, k - 1);
            } else {
              assert forall e :: e in rest ==> e.path != p;
              Unchanged(u, t, p);
            }
          }
        }
      }
    }
  }

  lemma NothingMarked(s: State)
    ensures OnlyMarks(s, s) && forall p :: !Changed(s, s, p)
  {
  }

  lemma Unchanged(u: State, t: State, p: Path)
    requires OnlyMarks(u, t) && !Changed(u, t, p) && p in u.overlays
    ensures p in t.overlays && t.overlays[p] == u.overlays[p]
  {
  }

  /** An entry is refused exactly when it is not what is there already and its version is unsafe, or does
      not follow the version that is there. */
  lemma EntriesAreRefusedSo(s: State, e: StagedOverlay)
    ensures var version := if e.version.Some? then e.version.value else NextVersion(s, e.path);
            StageOne(s, e).1 ==
              if IsRestage(s, e) then Done(())
              else if version < -MAX_SAFE_INTEGER || version > MAX_SAFE_INTEGER then UnsafeVersion(e.path, version)
              else if e.path in s.overlays && e.version.Some? && e.version.value <= s.overlays[e.path].version then StaleVersion(e.path, version)
              else Done(())
  {
  }
}
