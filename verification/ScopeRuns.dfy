/** Leases are disposed once, cleanups run youngest first, and closing empties the whole subtree. */
module ScopeRuns {
  import opened ScopeProtocol

  /* ---------- one scope ---------- */

  lemma AscendingTail(entries: seq<Entry>, rest: seq<Entry>)
    requires Ascending(entries) && entries != [] && rest == entries[1..]
    ensures Ascending(rest) && forall f :: f in rest ==> entries[0].id < f.id
  {
    forall i, j | 0 <= i < j < |rest| ensures rest[i].id < rest[j].id {
      assert rest[i] == entries[i + 1] && rest[j] == entries[j + 1];
    }
  }

  lemma AscendingFrom(e: Entry, rest: seq<Entry>)
    requires Ascending(rest) && forall f :: f in rest ==> e.id < f.id
    ensures Ascending([e] + rest)
  {
    forall i, j | 0 <= i < j < |[e] + rest| ensures ([e] + rest)[i].id < ([e] + rest)[j].id {
      assert rest[j - 1] in rest;
    }
  }

  lemma {:induction false} LessOrder(cleanups: seq<Entry>, e: Entry)
    requires Ascending(cleanups)
    ensures Ascending(Less(cleanups, e))
  {
    hide Ascending;
    if cleanups == [] {
      assert Less(cleanups, e) == cleanups;
    } else {
      var rest := cleanups[1..];
      AscendingTail(cleanups, rest);
      LessOrder(rest, e);
      if cleanups[0] == e {
        assert [] + Less(rest, e) == Less(rest, e);
      } else {
        AscendingFrom(cleanups[0], Less(rest, e));
      }
    }
  }

  lemma SameOrder(a: Scope, b: Scope)
    requires OrderOk(a) && b.cleanups == a.cleanups && b.ran == a.ran
    requires b.turn.Idle? || b.turn.Waiting? ==> a.turn.Idle? || a.turn.Waiting?
    ensures OrderOk(b)
  {
  }

  lemma LaterScope(scope: Scope, next: nat, later: nat)
    requires ScopeOk(scope, next) && next <= later
    ensures ScopeOk(scope, later)
  {
    hide TurnOk, OrderOk;
  }

  /** A new entry goes to the end of an open scope's list. */
  lemma AppendedScope(scope: Scope, e: Entry, next: nat)
    requires ScopeOk(scope, next) && scope.turn.Idle? && e.id == next
    ensures ScopeOk(scope.(cleanups := scope.cleanups + [e]), next + 1)
  {
    forall i | 0 <= i < |scope.cleanups| ensures scope.cleanups[i].id < e.id {
      assert scope.cleanups[i] in scope.cleanups;
    }
  }

  /** The scope after one of its leases began to be disposed. */
  function ReleasedScope(scope: Scope, l: LeaseId): Scope {
    scope.(cleanups := Less(scope.cleanups, LeaseEntry(l)), releases := scope.releases + {l})
  }

  lemma ReleasedScopeOk(scope: Scope, l: LeaseId, next: nat)
    requires ScopeOk(scope, next) && !scope.turn.Done?
    ensures ScopeOk(ReleasedScope(scope, l), next)
  {
    LessOrder(scope.cleanups, LeaseEntry(l));
  }

  /** The scope that starts its youngest cleanup. */
  function BusyScope(scope: Scope): Scope
    requires scope.cleanups != []
  {
    var e := scope.cleanups[|scope.cleanups| - 1];
    scope.(phase := Finalizing, turn := Busy(e), ran := scope.ran + [e])
  }

  /** The youngest entry goes from the list to what has run, which stays in order. */
  lemma YoungestRuns(scope: Scope)
    requires OrderOk(scope) && scope.cleanups != [] && scope.turn.Drained?
    ensures var e := scope.cleanups[|scope.cleanups| - 1];
            && Ascending(Less(scope.cleanups, e)) && Descending(scope.ran + [e])
            && (forall f :: f in Less(scope.cleanups, e) ==> f.id < e.id)
            && (forall f, g :: f in Less(scope.cleanups, e) && g in scope.ran + [e] ==> f.id < g.id)
  {
    var last := |scope.cleanups| - 1;
    var e := scope.cleanups[last];
    LessOrder(scope.cleanups, e);
    forall f | f in Less(scope.cleanups, e) ensures f.id < e.id {
      var i :| 0 <= i < |scope.cleanups| && scope.cleanups[i] == f;
      assert i != last;
    }
    forall i | 0 <= i < |scope.ran| ensures scope.ran[i].id > e.id {
      assert e in scope.cleanups && scope.ran[i] in scope.ran;
    }
  }

  lemma YoungestOrder(scope: Scope, e: Entry)
    requires OrderOk(scope) && TurnOk(scope) && scope.cleanups != [] && scope.turn.Drained?
    requires e == scope.cleanups[|scope.cleanups| - 1]
    ensures OrderOk(BusyScope(scope).(cleanups := Less(scope.cleanups, e)))
    ensures e.LeaseEntry? ==> OrderOk(ReleasedScope(BusyScope(scope), e.id)) && TurnOk(ReleasedScope(BusyScope(scope), e.id))
    ensures e.ExitEntry? ==> TurnOk(BusyScope(scope).(cleanups := Less(scope.cleanups, e)))
  {
    YoungestRuns(scope);
  }

  lemma RunsBelow(scope: Scope, e: Entry, next: nat)
    requires EntriesBelow(scope, next) && scope.cleanups != [] && e == scope.cleanups[|scope.cleanups| - 1]
    ensures EntriesBelow(BusyScope(scope).(cleanups := Less(scope.cleanups, e)), next)
  {
    assert e in scope.cleanups;
  }

  /* ---------- the tree ---------- */

  ghost predicate SameTree(a: Scope, b: Scope) {
    SamePlace(a, b) && b.owner == a.owner
  }

  ghost predicate SamePlace(a: Scope, b: Scope) {
    b.parent == a.parent && b.children == a.children && (b.phase.Closed? <==> a.phase.Closed?)
  }

  lemma OwnersStay(scopes: map<ScopeId, Scope>, scopes': map<ScopeId, Scope>)
    requires OwnersThere(scopes) && scopes.Keys <= scopes'.Keys
    requires forall s :: s in scopes' && scopes'[s].owner.Some? ==>
               (s in scopes && scopes'[s].owner == scopes[s].owner) || scopes'[s].owner.value in scopes
    ensures OwnersThere(scopes')
  {
  }

  lemma ParentsStay(scopes: map<ScopeId, Scope>, scopes': map<ScopeId, Scope>)
    requires ParentsOk(scopes) && scopes'.Keys == scopes.Keys && forall s :: s in scopes ==> SamePlace(scopes[s], scopes'[s])
    ensures ParentsOk(scopes')
  {
  }

  lemma TreeStays(scopes: map<ScopeId, Scope>, scopes': map<ScopeId, Scope>)
    requires TreeOk(scopes) && scopes'.Keys == scopes.Keys && forall s :: s in scopes ==> SameTree(scopes[s], scopes'[s])
    ensures TreeOk(scopes')
  {
    hide OwnersThere, ParentsOk, SamePlace;
    ParentsStay(scopes, scopes');
    OwnersStay(scopes, scopes');
  }

  lemma TreeReplaced(scopes: map<ScopeId, Scope>, s: ScopeId, scope: Scope)
    requires TreeOk(scopes) && s in scopes && SameTree(scopes[s], scope)
    ensures TreeOk(scopes[s := scope])
  {
    hide TreeOk;
    TreeStays(scopes, scopes[s := scope]);
  }

  lemma ChildParents(scopes: map<ScopeId, Scope>, p: ScopeId, c: ScopeId, child: Scope)
    requires ParentsOk(scopes) && p in scopes && c !in scopes && p < c && child.parent == Some(p) && child.children == {} && !child.phase.Closed?
    ensures ParentsOk(scopes[p := scopes[p].(children := scopes[p].children + {c})][c := child])
  {
    var t := scopes[p := scopes[p].(children := scopes[p].children + {c})][c := child];
    forall s | s in t && t[s].parent.Some?
      ensures t[s].parent.value in t && t[s].parent.value < s && (s in t[t[s].parent.value].children <==> !t[s].phase.Closed?)
    {
      if s != c {
        assert scopes[s].parent.value in scopes;
      }
    }
  }

  lemma ChildTree(scopes: map<ScopeId, Scope>, p: ScopeId, c: ScopeId, child: Scope)
    requires TreeOk(scopes) && p in scopes && c !in scopes && p < c && child.parent == Some(p) && child.children == {} && !child.phase.Closed?
    requires child.owner.Some? ==> child.owner.value in scopes
    ensures TreeOk(scopes[p := scopes[p].(children := scopes[p].children + {c})][c := child])
  {
    hide ParentsOk, OwnersThere;
    ChildParents(scopes, p, c, child);
    OwnersStay(scopes, scopes[p := scopes[p].(children := scopes[p].children + {c})][c := child]);
  }

  lemma RootTree(scopes: map<ScopeId, Scope>, r: ScopeId, root: Scope)
    requires TreeOk(scopes) && r !in scopes && root.parent.None? && root.owner.None? && root.children == {}
    ensures TreeOk(scopes[r := root])
  {
  }

  lemma ClosedParents(scopes: map<ScopeId, Scope>, s: ScopeId, scope: Scope)
    requires ParentsOk(scopes) && s in scopes && scope.parent == scopes[s].parent && scope.children == scopes[s].children
    requires scope.phase.Closed? && !scopes[s].phase.Closed?
    ensures scope.parent.Some? ==> scope.parent.value in scopes && scope.parent.value != s
    ensures scope.parent.Some? ==>
              var p := scope.parent.value; ParentsOk(scopes[s := scope][p := scopes[p].(children := scopes[p].children - {s})])
    ensures scope.parent.None? ==> ParentsOk(scopes[s := scope])
  {
    if scope.parent.Some? {
      var p := scope.parent.value;
      var t := scopes[s := scope][p := scopes[p].(children := scopes[p].children - {s})];
      forall x | x in t && t[x].parent.Some?
        ensures t[x].parent.value in t && t[x].parent.value < x && (x in t[t[x].parent.value].children <==> !t[x].phase.Closed?)
      {
        assert scopes[x].parent == t[x].parent;
      }
    }
  }

  /** The scope is closed and leaves its parent's children. */
  lemma ClosedTree(scopes: map<ScopeId, Scope>, s: ScopeId, scope: Scope)
    requires TreeOk(scopes) && s in scopes && scope.parent == scopes[s].parent && scope.owner == scopes[s].owner
    requires scope.children == scopes[s].children && scope.phase.Closed? && !scopes[s].phase.Closed?
    ensures scope.parent.Some? ==> scope.parent.value in scopes && scope.parent.value != s
    ensures scope.parent.Some? ==>
              var p := scope.parent.value; TreeOk(scopes[s := scope][p := scopes[p].(children := scopes[p].children - {s})])
    ensures scope.parent.None? ==> TreeOk(scopes[s := scope])
  {
    hide ParentsOk, OwnersThere;
    ClosedParents(scopes, s, scope);
    OwnersStay(scopes, scopes[s := scope]);
    if scope.parent.Some? {
      var p := scope.parent.value;
      OwnersStay(scopes, scopes[s := scope][p := scopes[p].(children := scopes[p].children - {s})]);
    }
  }

  /* ---------- leases ---------- */

  ghost predicate SameLeases(a: Scope, b: Scope) {
    b.cleanups == a.cleanups && b.releases == a.releases
  }

  lemma LeasesStay(w: World, t: World)
    requires LeasesOk(w) && w.scopes.Keys <= t.scopes.Keys && (forall s :: s in w.scopes ==> SameLeases(w.scopes[s], t.scopes[s]))
    requires forall s :: s in t.scopes && s !in w.scopes ==> t.scopes[s].cleanups == [] && t.scopes[s].releases == {}
    requires t.leases == w.leases && t.tokens == w.tokens && t.disposals == w.disposals && t.finished == w.finished
    ensures LeasesOk(t)
  {
    forall l | l in t.leases ensures LeaseRow(t, l) {
      assert LeaseRow(w, l);
    }
    forall s | s in t.scopes ensures OwnLeases(t.scopes[s], s, t.leases) {
      if s in w.scopes { assert OwnLeases(w.scopes[s], s, w.leases); }
    }
  }

  /** Only leases of one scope change. */
  lemma LeasesOfOne(w: World, t: World, s: ScopeId)
    requires LeasesOk(w) && s in w.scopes && s in t.scopes && t.scopes == w.scopes[s := t.scopes[s]]
    requires w.leases.Keys <= t.leases.Keys && forall l :: l in w.leases ==> t.leases[l].owner == w.leases[l].owner
    requires forall l :: l in t.leases && t.leases[l].owner != s ==>
               && l in w.leases && t.leases[l] == w.leases[l] && (l in t.tokens <==> l in w.tokens)
               && (l in t.disposals <==> l in w.disposals) && (l in t.finished <==> l in w.finished)
    requires OwnLeases(t.scopes[s], s, t.leases) && DistinctIds(t.disposals)
    requires forall l :: l in t.leases && t.leases[l].owner == s ==> LeaseRow(t, l)
    requires (forall l :: l in t.tokens ==> l in t.leases) && (forall l :: l in t.disposals ==> l in t.leases)
    requires forall l :: l in t.finished ==> l in t.leases
    ensures LeasesOk(t)
  {
    hide LeaseOk;
    forall l | l in t.leases ensures LeaseRow(t, l) {
      if t.leases[l].owner != s { assert LeaseRow(w, l); }
    }
    forall x | x in t.scopes ensures OwnLeases(t.scopes[x], x, t.leases) {
      if x != s { assert OwnLeases(w.scopes[x], x, w.leases); }
    }
  }

  lemma GrantLeases(w: World, s: ScopeId)
    requires LeasesOk(w) && Below(w.leases.Keys, w.next) && s in w.scopes
    ensures LeasesOk(Grant(w, s))
  {
    var t := Grant(w, s);
    assert w.next !in w.leases;
    forall l | l in t.leases && t.leases[l].owner == s ensures LeaseRow(t, l) {
      if l != w.next { assert LeaseRow(w, l); }
    }
    assert OwnLeases(w.scopes[s], s, w.leases);
    hide LeasesOk, LeaseOk;
    assert LeasesOk(w);
    LeasesOfOne(w, t, s);
  }

  lemma ReleasedRow(w: World, l: LeaseId, m: LeaseId)
    requires LeasesOk(w) && IsLive(w, l) && m in w.leases && w.leases[m].owner == w.leases[l].owner
    ensures LeaseRow(BeginRelease(w, l), m)
  {
    assert LeaseRow(w, m) && LeaseRow(w, l);
  }

  lemma ReleasedOwn(w: World, l: LeaseId)
    requires LeasesOk(w) && IsLive(w, l)
    ensures OwnLeases(BeginRelease(w, l).scopes[w.leases[l].owner], w.leases[l].owner, BeginRelease(w, l).leases)
    ensures DistinctIds(BeginRelease(w, l).disposals)
  {
    assert LeaseRow(w, l) && OwnLeases(w.scopes[w.leases[l].owner], w.leases[l].owner, w.leases);
  }

  lemma ReleaseLeases(w: World, l: LeaseId)
    requires LeasesOk(w) && IsLive(w, l)
    ensures LeasesOk(BeginRelease(w, l))
  {
    hide LeaseRow, OwnLeases, DistinctIds;
    var t, s := BeginRelease(w, l), w.leases[l].owner;
    ReleasedOwn(w, l);
    forall m | m in t.leases && t.leases[m].owner == s ensures LeaseRow(t, m) {
      ReleasedRow(w, l, m);
    }
    LeasesOfOne(w, t, s);
  }

  lemma EndReleaseLeases(w: World, l: LeaseId)
    requires LeasesOk(w) && l in w.leases && !w.leases[l].live && w.leases[l].owner in w.scopes
    ensures LeasesOk(EndRelease(w, l))
  {
    var t, s := EndRelease(w, l), w.leases[l].owner;
    assert OwnLeases(w.scopes[s], s, w.leases);
    forall m | m in t.leases && t.leases[m].owner == s ensures LeaseRow(t, m) {
      assert LeaseRow(w, m);
    }
    LeasesOfOne(w, t, s);
  }

  /** A scope forgets releases that have ended. */
  lemma ForgetLeases(w: World, s: ScopeId, scope: Scope)
    requires LeasesOk(w) && s in w.scopes && scope.cleanups == w.scopes[s].cleanups && scope.releases <= w.scopes[s].releases
    requires forall l :: l in w.scopes[s].releases && l !in scope.releases ==> l in w.finished
    ensures LeasesOk(w.(scopes := w.scopes[s := scope]))
  {
    var t := w.(scopes := w.scopes[s := scope]);
    assert OwnLeases(w.scopes[s], s, w.leases);
    forall m | m in t.leases && t.leases[m].owner == s ensures LeaseRow(t, m) {
      assert LeaseRow(w, m);
    }
    LeasesOfOne(w, t, s);
  }

  lemma ExitLeases(w: World, s: ScopeId, e: Entry, scope: Scope)
    requires LeasesOk(w) && s in w.scopes && e.ExitEntry?
    requires scope.cleanups == Less(w.scopes[s].cleanups, e) && scope.releases == w.scopes[s].releases
    ensures LeasesOk(w.(scopes := w.scopes[s := scope]))
  {
    var t := w.(scopes := w.scopes[s := scope]);
    assert OwnLeases(w.scopes[s], s, w.leases);
    forall m | m in t.leases && t.leases[m].owner == s ensures LeaseRow(t, m) {
      assert LeaseRow(w, m);
    }
    LeasesOfOne(w, t, s);
  }

  lemma AddedExit(w: World, s: ScopeId, scope: Scope, e: Entry)
    requires LeasesOk(w) && s in w.scopes && e.ExitEntry?
    requires scope.cleanups == w.scopes[s].cleanups + [e] && scope.releases == w.scopes[s].releases
    ensures LeasesOk(w.(scopes := w.scopes[s := scope]))
  {
    var t := w.(scopes := w.scopes[s := scope]);
    assert OwnLeases(w.scopes[s], s, w.leases);
    forall m | m in t.leases && t.leases[m].owner == s ensures LeaseRow(t, m) {
      assert LeaseRow(w, m);
    }
    LeasesOfOne(w, t, s);
  }

  lemma LiveIsListed(w: World, l: LeaseId)
    requires Inv(w) && IsLive(w, l)
    ensures LeaseEntry(l) in w.scopes[w.leases[l].owner].cleanups && !w.scopes[w.leases[l].owner].turn.Done?
    ensures l in w.tokens && l !in w.disposals
  {
    hide TreeOk, OrderOk;
    assert LeaseRow(w, l) && ScopeOk(w.scopes[w.leases[l].owner], w.next);
  }

  lemma ListedIsLive(w: World, s: ScopeId, l: LeaseId)
    requires LeasesOk(w) && s in w.scopes && LeaseEntry(l) in w.scopes[s].cleanups
    ensures IsLive(w, l) && w.leases[l].owner == s
  {
    assert OwnLeases(w.scopes[s], s, w.leases) && LeaseRow(w, l);
  }

  /* ---------- steps ---------- */

  lemma ScopesReplaced(scopes: map<ScopeId, Scope>, next: nat, s: ScopeId, scope: Scope, later: nat)
    requires ScopesOk(scopes, next) && next <= later && ScopeOk(scope, later)
    ensures ScopesOk(scopes[s := scope], later)
  {
    hide ScopeOk;
    forall x | x in scopes ensures ScopeOk(scopes[x], later) {
      LaterScope(scopes[x], next, later);
    }
  }

  /** One scope changes; its place in the tree and its leases do not. */
  lemma OneScope(w: World, s: ScopeId, scope: Scope)
    requires Inv(w) && s in w.scopes && SameLeases(w.scopes[s], scope) && SameTree(w.scopes[s], scope) && ScopeOk(scope, w.next)
    ensures Inv(w.(scopes := w.scopes[s := scope]))
  {
    hide ScopesOk, ScopeOk, TreeOk, LeasesOk, Below;
    var t := w.(scopes := w.scopes[s := scope]);
    assert t.scopes.Keys == w.scopes.Keys;
    LeasesStay(w, t);
    TreeReplaced(w.scopes, s, scope);
    ScopesReplaced(w.scopes, w.next, s, scope, w.next);
  }

  lemma At(w: World, s: ScopeId)
    requires Inv(w) && s in w.scopes
    ensures ScopeOk(w.scopes[s], w.next)
  {
    hide TreeOk, LeasesOk, ScopeOk;
  }

  ghost predicate OnlyFlags(a: Scope, b: Scope) {
    b == a.(aborted := b.aborted, guest := b.guest) && (a.aborted ==> b.aborted)
  }

  lemma FlaggedScope(a: Scope, b: Scope, next: nat)
    requires ScopeOk(a, next) && OnlyFlags(a, b)
    ensures ScopeOk(b, next) && SameLeases(a, b) && SameTree(a, b)
  {
  }

  /** Cancellation and traps set flags only. */
  lemma FlagsKeep(w: World, t: World)
    requires Inv(w) && t == w.(scopes := t.scopes) && t.scopes.Keys == w.scopes.Keys
    requires forall s :: s in w.scopes ==> OnlyFlags(w.scopes[s], t.scopes[s])
    ensures Inv(t)
  {
    hide TreeOk, LeasesOk, ScopeOk, OnlyFlags;
    forall s | s in w.scopes ensures SameLeases(w.scopes[s], t.scopes[s]) && SameTree(w.scopes[s], t.scopes[s]) && ScopeOk(t.scopes[s], t.next) {
      FlaggedScope(w.scopes[s], t.scopes[s], w.next);
    }
    LeasesStay(w, t);
    TreeStays(w.scopes, t.scopes);
  }

  lemma CancelKeeps(w: World, s: ScopeId)
    requires Inv(w)
    ensures Inv(Cancel(w, s)) && Cancel(w, s).scopes.Keys == w.scopes.Keys
  {
    hide Inv, CancelReaches;
    FlagsKeep(w, Cancel(w, s));
  }

  lemma TrapKeeps(w: World, s: ScopeId)
    requires Inv(w)
    ensures Inv(Trap(w, s))
  {
    hide Inv, TrapReaches;
    FlagsKeep(w, Trap(w, s));
  }

  lemma NewScopeOk(parent: Option<ScopeId>, owner: Option<ScopeId>, next: nat)
    ensures ScopeOk(NewScope(parent, owner), next)
  {
  }

  lemma RootKeeps(w: World)
    requires Inv(w)
    ensures Inv(OpenRoot(w))
  {
    hide ScopesOk, ScopeOk, TreeOk, LeasesOk;
    NewScopeOk(None, None, w.next + 1);
    RootTree(w.scopes, w.next, NewScope(None, None));
    ScopesReplaced(w.scopes, w.next, w.next, NewScope(None, None), w.next + 1);
    LeasesStay(w, OpenRoot(w));
  }

  lemma MoreChildren(scope: Scope, c: ScopeId, next: nat)
    requires ScopeOk(scope, next) && (scope.turn.Idle? || (scope.turn.Busy? && scope.turn.entry.ExitEntry?))
    ensures ScopeOk(scope.(children := scope.children + {c}), next)
  {
  }

  /** A child below an open scope, or a masked one below a scope inside an exit finalizer. */
  lemma ChildKeeps(w: World, p: ScopeId, owner: Option<ScopeId>)
    requires Inv(w) && p in w.scopes
    requires w.scopes[p].turn.Idle? || (w.scopes[p].turn.Busy? && w.scopes[p].turn.entry.ExitEntry?)
    requires owner.Some? ==> owner.value in w.scopes
    ensures Inv(OpenChild(w, p, owner))
  {
    hide ScopesOk, ScopeOk, TreeOk, LeasesOk;
    var parent, child := w.scopes[p].(children := w.scopes[p].children + {w.next}), NewScope(Some(p), owner);
    At(w, p);
    MoreChildren(w.scopes[p], w.next, w.next);
    NewScopeOk(Some(p), owner, w.next + 1);
    ScopesReplaced(w.scopes, w.next, p, parent, w.next);
    ScopesReplaced(w.scopes[p := parent], w.next, w.next, child, w.next + 1);
    ChildTree(w.scopes, p, w.next, child);
    LeasesStay(w, OpenChild(w, p, owner));
  }

  lemma GrantKeeps(w: World, s: ScopeId)
    requires Inv(w) && s in w.scopes && w.scopes[s].turn.Idle?
    ensures Inv(Grant(w, s))
  {
    hide ScopesOk, ScopeOk, TreeOk, LeasesOk;
    var scope := w.scopes[s].(cleanups := w.scopes[s].cleanups + [LeaseEntry(w.next)]);
    At(w, s);
    AppendedScope(w.scopes[s], LeaseEntry(w.next), w.next);
    ScopesReplaced(w.scopes, w.next, s, scope, w.next + 1);
    TreeReplaced(w.scopes, s, scope);
    GrantLeases(w, s);
  }

  lemma RegisterKeeps(w: World, s: ScopeId)
    requires Inv(w) && s in w.scopes && w.scopes[s].turn.Idle?
    ensures Inv(OnExit(w, s))
  {
    hide ScopesOk, ScopeOk, TreeOk, LeasesOk;
    var scope := w.scopes[s].(cleanups := w.scopes[s].cleanups + [ExitEntry(w.next)]);
    At(w, s);
    AppendedScope(w.scopes[s], ExitEntry(w.next), w.next);
    ScopesReplaced(w.scopes, w.next, s, scope, w.next + 1);
    TreeReplaced(w.scopes, s, scope);
    AddedExit(w, s, scope, ExitEntry(w.next));
    SameTables(w.(scopes := w.scopes[s := scope]), OnExit(w, s));
  }

  lemma SameTables(w: World, t: World)
    requires LeasesOk(w) && t == w.(next := t.next)
    ensures LeasesOk(t)
  {
    hide LeasesOk;
    LeasesStay(w, t);
  }

  lemma ReleaseKeeps(w: World, l: LeaseId)
    requires Inv(w) && IsLive(w, l)
    ensures Inv(BeginRelease(w, l))
  {
    hide ScopesOk, ScopeOk, TreeOk, LeasesOk;
    var s := w.leases[l].owner;
    LiveIsListed(w, l);
    At(w, s);
    ReleaseLeases(w, l);
    ReleasedScopeOk(w.scopes[s], l, w.next);
    TreeReplaced(w.scopes, s, ReleasedScope(w.scopes[s], l));
    ScopesReplaced(w.scopes, w.next, s, ReleasedScope(w.scopes[s], l), w.next);
  }

  lemma ForgetScope(scope: Scope, releases: set<LeaseId>, next: nat)
    requires ScopeOk(scope, next) && !scope.turn.Drained? && !scope.turn.Done?
    ensures ScopeOk(scope.(releases := releases), next)
  {
  }

  lemma EndReleaseKeeps(w: World, l: LeaseId)
    requires Inv(w) && l in w.leases && !w.leases[l].live && w.leases[l].owner in w.scopes
    ensures Inv(EndRelease(w, l))
  {
    hide ScopesOk, ScopeOk, TreeOk, LeasesOk;
    var s := w.leases[l].owner;
    EndReleaseLeases(w, l);
    if w.scopes[s].phase.Open? {
      var scope := w.scopes[s].(releases := w.scopes[s].releases - {l});
      At(w, s);
      OpenTurn(w.scopes[s], w.next);
      ForgetScope(w.scopes[s], w.scopes[s].releases - {l}, w.next);
      TreeReplaced(w.scopes, s, scope);
      ScopesReplaced(w.scopes, w.next, s, scope, w.next);
    }
  }

  lemma OpenTurn(scope: Scope, next: nat)
    requires ScopeOk(scope, next)
    ensures scope.phase.Open? <==> scope.turn.Idle?
  {
  }

  lemma ClosingScope(scope: Scope, next: nat)
    requires ScopeOk(scope, next) && scope.turn.Idle?
    ensures ScopeOk(scope.(phase := Draining, turn := Waiting, aborted := true), next) && !scope.phase.Closed?
  {
    SameOrder(scope, scope.(phase := Draining, turn := Waiting, aborted := true));
  }

  lemma CloseKeeps(w: World, s: ScopeId)
    requires Inv(w) && s in w.scopes
    ensures Inv(BeginClose(w, s))
  {
    hide Inv, ScopeOk;
    if w.scopes[s].turn.Idle? {
      var scope := w.scopes[s].(phase := Draining, turn := Waiting, aborted := true);
      At(w, s);
      ClosingScope(w.scopes[s], w.next);
      OneScope(w, s, scope);
      FlagsKeep(w.(scopes := w.scopes[s := scope]), BeginClose(w, s));
    }
  }

  lemma DrainedScope(scope: Scope, next: nat)
    requires ScopeOk(scope, next) && (scope.turn.Emptying? || (scope.turn.Waiting? && scope.children == {} && scope.acquiring == 0))
    ensures ScopeOk(scope.(releases := {}, turn := Drained), next) && !scope.phase.Closed?
  {
    SameOrder(scope, scope.(releases := {}, turn := Drained));
  }

  lemma DrainKeeps(w: World, s: ScopeId)
    requires Inv(w) && CanDrain(w, s)
    ensures Inv(Drain(w, s))
  {
    hide ScopesOk, ScopeOk, TreeOk, LeasesOk;
    var scope := w.scopes[s].(releases := {}, turn := Drained);
    At(w, s);
    DrainedScope(w.scopes[s], w.next);
    ForgetLeases(w, s, scope);
    TreeReplaced(w.scopes, s, scope);
    ScopesReplaced(w.scopes, w.next, s, scope, w.next);
  }

  lemma DoneScope(scope: Scope, next: nat)
    requires ScopeOk(scope, next) && scope.turn.Drained? && scope.cleanups == []
    ensures ScopeOk(scope.(phase := Closed, turn := Done), next) && !scope.phase.Closed?
  {
    SameOrder(scope, scope.(phase := Closed, turn := Done));
  }

  lemma FewerChildren(scope: Scope, c: ScopeId, next: nat)
    requires ScopeOk(scope, next)
    ensures ScopeOk(scope.(children := scope.children - {c}), next)
  {
  }

  lemma FinishKeeps(w: World, s: ScopeId)
    requires Inv(w) && s in w.scopes && w.scopes[s].turn.Drained? && w.scopes[s].cleanups == []
    ensures Inv(Resume(w, s))
  {
    hide ScopesOk, ScopeOk, TreeOk, LeasesOk, Below;
    var scope := w.scopes[s].(phase := Closed, turn := Done);
    var t := Resume(w, s);
    At(w, s);
    DoneScope(w.scopes[s], w.next);
    ScopesReplaced(w.scopes, w.next, s, scope, w.next);
    ClosedTree(w.scopes, s, scope);
    if scope.parent.Some? {
      var p := scope.parent.value;
      At(w, p);
      FewerChildren(w.scopes[p], s, w.next);
      ScopesReplaced(w.scopes[s := scope], w.next, p, w.scopes[p].(children := w.scopes[p].children - {s}), w.next);
      assert t.scopes == w.scopes[s := scope][p := w.scopes[p].(children := w.scopes[p].children - {s})];
    } else {
      assert t.scopes == w.scopes[s := scope];
    }
    assert t.scopes.Keys == w.scopes.Keys;
    LeasesStay(w, t);
  }

  lemma BusyOk(scope: Scope, e: Entry, next: nat)
    requires ScopeOk(scope, next) && scope.turn.Drained? && scope.cleanups != [] && e == scope.cleanups[|scope.cleanups| - 1]
    ensures !scope.phase.Closed?
    ensures e.LeaseEntry? ==> ScopeOk(ReleasedScope(BusyScope(scope), e.id), next)
    ensures e.ExitEntry? ==> ScopeOk(BusyScope(scope).(cleanups := Less(scope.cleanups, e)), next)
  {
    hide OrderOk, EntriesBelow;
    YoungestOrder(scope, e);
    RunsBelow(scope, e, next);
    SameEntries(BusyScope(scope).(cleanups := Less(scope.cleanups, e)), ReleasedScope(BusyScope(scope), e.id), e, next);
  }

  lemma SameEntries(a: Scope, b: Scope, e: Entry, next: nat)
    requires EntriesBelow(a, next)
    ensures b.cleanups == a.cleanups && b.ran == a.ran ==> EntriesBelow(b, next)
  {
  }

  /** Running the youngest cleanup, a lease. */
  lemma RunLeaseKeeps(w: World, s: ScopeId, l: LeaseId)
    requires Inv(w) && s in w.scopes && w.scopes[s].turn.Drained? && w.scopes[s].cleanups != []
    requires w.scopes[s].cleanups[|w.scopes[s].cleanups| - 1] == LeaseEntry(l)
    ensures Inv(Resume(w, s)) && l in Resume(w, s).disposals
  {
    hide ScopesOk, ScopeOk, TreeOk, LeasesOk, Below, Resume, BeginRelease;
    var scope, e := w.scopes[s], LeaseEntry(l);
    assert e in scope.cleanups;
    At(w, s);
    ListedIsLive(w, s, l);
    BusyOk(scope, e, w.next);
    var t := w.(scopes := w.scopes[s := BusyScope(scope)]);
    LeasesStay(w, t);
    ReleaseLeases(t, l);
    var u := BeginRelease(t, l);
    LeaseResumes(w, s, l);
    TreeReplaced(w.scopes, s, ReleasedScope(BusyScope(scope), l));
    ScopesReplaced(w.scopes, w.next, s, ReleasedScope(BusyScope(scope), l), w.next);
  }

  lemma LeaseResumes(w: World, s: ScopeId, l: LeaseId)
    requires s in w.scopes && w.scopes[s].cleanups != [] && w.scopes[s].cleanups[|w.scopes[s].cleanups| - 1] == LeaseEntry(l)
    requires l in w.leases && w.leases[l].owner == s
    ensures var t := w.(scopes := w.scopes[s := BusyScope(w.scopes[s])]);
            && Resume(w, s) == BeginRelease(t, l)
            && BeginRelease(t, l).scopes == w.scopes[s := ReleasedScope(BusyScope(w.scopes[s]), l)]
            && BeginRelease(t, l).scopes.Keys == w.scopes.Keys && BeginRelease(t, l).leases.Keys == w.leases.Keys
            && BeginRelease(t, l).next == w.next && l in BeginRelease(t, l).disposals
  {
  }

  /** Running the youngest cleanup, a guest finalizer under a masked scope. */
  lemma RunExitKeeps(w: World, s: ScopeId, x: nat)
    requires Inv(w) && s in w.scopes && w.scopes[s].turn.Drained? && w.scopes[s].cleanups != []
    requires w.scopes[s].cleanups[|w.scopes[s].cleanups| - 1] == ExitEntry(x)
    ensures Inv(Resume(w, s))
  {
    hide ScopesOk, ScopeOk, TreeOk, LeasesOk, Below, OpenChild;
    var scope, e := w.scopes[s], ExitEntry(x);
    var busy := BusyScope(scope).(cleanups := Less(scope.cleanups, e));
    var u := w.(scopes := w.scopes[s := busy]);
    At(w, s);
    BusyOk(scope, e, w.next);
    ExitLeases(w, s, e, busy);
    TreeReplaced(w.scopes, s, busy);
    ScopesReplaced(w.scopes, w.next, s, busy, w.next);
    assert u.scopes.Keys == w.scopes.Keys;
    assert Inv(u);
    ExitResumes(w, s, x);
    if scope.guest {
      ChildKeeps(u, s, Some(s));
    }
  }

  lemma ExitResumes(w: World, s: ScopeId, x: nat)
    requires s in w.scopes && w.scopes[s].cleanups != [] && w.scopes[s].cleanups[|w.scopes[s].cleanups| - 1] == ExitEntry(x)
    ensures var scope := w.scopes[s];
            var u := w.(scopes := w.scopes[s := BusyScope(scope).(cleanups := Less(scope.cleanups, ExitEntry(x)))]);
            Resume(w, s) == if scope.guest then OpenChild(u, s, Some(s)) else u
  {
    hide OpenChild;
    var scope := w.scopes[s];
    assert w.scopes[s := BusyScope(scope)][s := BusyScope(scope).(cleanups := Less(scope.cleanups, ExitEntry(x)))]
        == w.scopes[s := BusyScope(scope).(cleanups := Less(scope.cleanups, ExitEntry(x)))];
  }

  lemma ResumeKeeps(w: World, s: ScopeId)
    requires Inv(w) && s in w.scopes && w.scopes[s].turn.Drained?
    ensures Inv(Resume(w, s))
  {
    hide Inv, Resume;
    if w.scopes[s].cleanups == [] {
      FinishKeeps(w, s);
    } else {
      match w.scopes[s].cleanups[|w.scopes[s].cleanups| - 1]
      case LeaseEntry(l) => RunLeaseKeeps(w, s, l);
      case ExitEntry(x) => RunExitKeeps(w, s, x);
    }
  }

  lemma SettledScope(scope: Scope, releases: set<LeaseId>, next: nat)
    requires ScopeOk(scope, next) && scope.turn.Busy? && scope.children == {}
    ensures ScopeOk(scope.(turn := Emptying, releases := releases), next)
  {
    SameOrder(scope, scope.(turn := Emptying, releases := releases));
  }

  lemma BusyLeaseChildren(scope: Scope, next: nat)
    requires ScopeOk(scope, next) && scope.turn.Busy? && scope.turn.entry.LeaseEntry?
    ensures scope.children == {}
  {
  }

  lemma SettleKeeps(w: World, s: ScopeId)
    requires Inv(w) && FinalizerSettled(w, s)
    ensures Inv(EndFinalizer(w, s))
  {
    hide ScopesOk, ScopeOk, TreeOk, LeasesOk;
    var e := w.scopes[s].turn.entry;
    var releases := if e.LeaseEntry? then w.scopes[s].releases - {e.id} else w.scopes[s].releases;
    var scope := w.scopes[s].(turn := Emptying, releases := releases);
    At(w, s);
    if e.LeaseEntry? { BusyLeaseChildren(w.scopes[s], w.next); }
    SettledScope(w.scopes[s], releases, w.next);
    ForgetLeases(w, s, scope);
    TreeReplaced(w.scopes, s, scope);
    ScopesReplaced(w.scopes, w.next, s, scope, w.next);
  }

  lemma AcquiringScope(scope: Scope, n: nat, next: nat)
    requires ScopeOk(scope, next) && (scope.turn.Idle? || n <= scope.acquiring)
    ensures ScopeOk(scope.(acquiring := n), next)
  {
    SameOrder(scope, scope.(acquiring := n));
  }

  lemma AcquireKeeps(w: World, s: ScopeId, n: nat)
    requires Inv(w) && s in w.scopes && (w.scopes[s].turn.Idle? || n <= w.scopes[s].acquiring)
    ensures Inv(SetAcquiring(w, s, n))
  {
    hide Inv, ScopeOk;
    At(w, s);
    AcquiringScope(w.scopes[s], n, w.next);
    OneScope(w, s, w.scopes[s].(acquiring := n));
  }

  lemma IdleWhenOpen(w: World, s: ScopeId)
    requires Inv(w) && IsOpen(w, s)
    ensures w.scopes[s].turn.Idle?
  {
    hide Inv;
    At(w, s);
  }

  lemma OwnerIsThere(w: World, s: ScopeId)
    requires Inv(w) && s in w.scopes
    ensures w.scopes[s].owner.Some? ==> w.scopes[s].owner.value in w.scopes
  {
    hide LeasesOk, ScopesOk;
  }

  lemma StepKeeps(w: World, e: Event)
    requires Inv(w)
    ensures Inv(Step(w, e))
  {
    hide Inv, OpenRoot, OpenChild, Grant, OnExit, BeginRelease, EndRelease, BeginClose, Drain, Resume, EndFinalizer, Cancel, Trap, CanDrain, FinalizerSettled;
    match e
    case Rooting => RootKeeps(w);
    case Nesting(p) => if IsOpen(w, p) { IdleWhenOpen(w, p); OwnerIsThere(w, p); ChildKeeps(w, p, w.scopes[p].owner); }
    case Granting(s) => if IsOpen(w, s) { IdleWhenOpen(w, s); GrantKeeps(w, s); }
    case Registering(s) => if IsOpen(w, s) { IdleWhenOpen(w, s); RegisterKeeps(w, s); }
    case Acquiring(s) => if IsOpen(w, s) { IdleWhenOpen(w, s); AcquireKeeps(w, s, w.scopes[s].acquiring + 1); }
    case Acquired(s, granted) =>
      if s in w.scopes && w.scopes[s].acquiring != 0 {
        var t := SetAcquiring(w, s, w.scopes[s].acquiring - 1);
        AcquireKeeps(w, s, w.scopes[s].acquiring - 1);
        if granted && IsOpen(w, s) { IdleWhenOpen(w, s); GrantKeeps(t, s); }
      }
    case Releasing(l) => if IsLive(w, l) { ReleaseKeeps(w, l); }
    case Released(l) => if l in w.leases && !w.leases[l].live && w.leases[l].owner in w.scopes { EndReleaseKeeps(w, l); }
    case Cancelling(s) => CancelKeeps(w, s);
    case Trapping(s) => TrapKeeps(w, s);
    case Closing(s) => if s in w.scopes { CloseKeeps(w, s); }
    case DrainingDone(s) => DrainStep(w, s);
    case Resuming(s) => if s in w.scopes && w.scopes[s].turn.Drained? { ResumeKeeps(w, s); }
    case Settling(s) => SettleStep(w, s);
  }

  lemma DrainStep(w: World, s: ScopeId)
    requires Inv(w)
    ensures Inv(Step(w, DrainingDone(s)))
  {
    hide Inv, Drain;
    if CanDrain(w, s) { DrainKeeps(w, s); }
  }

  lemma SettleStep(w: World, s: ScopeId)
    requires Inv(w)
    ensures Inv(Step(w, Settling(s)))
  {
    hide Inv, EndFinalizer;
    if FinalizerSettled(w, s) { SettleKeeps(w, s); }
  }

  lemma {:induction false} RunKeeps(events: seq<Event>)
    ensures Inv(Run(EMPTY, events))
  {
    hide Inv, Step;
    if events == [] {
      EmptyOk();
    } else {
      RunKeeps(events[..|events| - 1]);
      StepKeeps(Run(EMPTY, events[..|events| - 1]), events[|events| - 1]);
    }
  }

  lemma EmptyOk()
    ensures Inv(EMPTY)
  {
  }

  /* ---------- what runs below a scope that runs its cleanups ---------- */

  /** Past its first drain. */
  predicate Past(scope: Scope) {
    !scope.turn.Idle? && !scope.turn.Waiting?
  }

  /** Only masked scopes of its own finalizers are below a scope that is past its first drain. */
  ghost predicate MaskedOnly(scopes: map<ScopeId, Scope>) {
    forall s, c :: s in scopes && Past(scopes[s]) && c in scopes[s].children ==> c in scopes && scopes[c].owner == Some(s)
  }

  ghost predicate NoNewBelow(a: Scope, b: Scope) {
    b.owner == a.owner && (Past(b) ==> b.children == {} || (Past(a) && b.children <= a.children))
  }

  lemma MaskedStays(a: map<ScopeId, Scope>, b: map<ScopeId, Scope>)
    requires MaskedOnly(a) && a.Keys <= b.Keys && (forall s :: s in a ==> NoNewBelow(a[s], b[s]))
    requires forall s :: s in b && s !in a ==> !Past(b[s])
    ensures MaskedOnly(b)
  {
  }

  /** Going on opens at most a masked scope of its own finalizer. */
  lemma ResumeMasked(w: World, s: ScopeId)
    requires Inv(w) && MaskedOnly(w.scopes) && s in w.scopes && w.scopes[s].turn.Drained?
    ensures MaskedOnly(Resume(w, s).scopes)
  {
    hide LeasesOk, TreeOk, OrderOk, MaskedOnly, Less;
    assert ScopeOk(w.scopes[s], w.next) && w.next !in w.scopes;
    var scope := w.scopes[s];
    if scope.cleanups != [] && scope.cleanups[|scope.cleanups| - 1].ExitEntry? {
      var e := scope.cleanups[|scope.cleanups| - 1];
      var u := w.(scopes := w.scopes[s := BusyScope(scope).(cleanups := Less(scope.cleanups, e))]);
      ExitResumes(w, s, e.id);
      MaskedStays(w.scopes, u.scopes);
      if scope.guest { MaskedChild(u, s); }
    } else {
      MaskedStays(w.scopes, Resume(w, s).scopes);
    }
  }

  lemma MaskedChild(w: World, s: ScopeId)
    requires MaskedOnly(w.scopes) && s in w.scopes && w.next !in w.scopes
    ensures MaskedOnly(OpenChild(w, s, Some(s)).scopes)
  {
  }

  lemma SettleMasked(w: World, s: ScopeId)
    requires Inv(w) && MaskedOnly(w.scopes)
    ensures MaskedOnly(Step(w, Settling(s)).scopes) && MaskedOnly(Step(w, DrainingDone(s)).scopes)
  {
    hide LeasesOk, TreeOk, OrderOk, MaskedOnly, EntriesBelow;
    if s in w.scopes { assert ScopeOk(w.scopes[s], w.next); }
    MaskedStays(w.scopes, Step(w, Settling(s)).scopes);
    MaskedStays(w.scopes, Step(w, DrainingDone(s)).scopes);
  }

  lemma StepMasked(w: World, e: Event)
    requires Inv(w) && MaskedOnly(w.scopes)
    ensures MaskedOnly(Step(w, e).scopes)
  {
    match e
    case Resuming(s) =>
      if s in w.scopes && w.scopes[s].turn.Drained? { ResumeMasked(w, s); }
    case Settling(s) => SettleMasked(w, s);
    case DrainingDone(s) => SettleMasked(w, s);
    case _ => OtherMasked(w, e);
  }

  lemma OtherMasked(w: World, e: Event)
    requires Inv(w) && MaskedOnly(w.scopes) && !e.Resuming? && !e.Settling? && !e.DrainingDone?
    ensures MaskedOnly(Step(w, e).scopes)
  {
    hide Inv, MaskedOnly, CancelReaches, TrapReaches, Less, Below;
    OpenIsIdle(w);
    MaskedStays(w.scopes, Step(w, e).scopes);
  }

  lemma OpenIsIdle(w: World)
    requires Inv(w)
    ensures w.next !in w.scopes && forall s :: s in w.scopes && w.scopes[s].phase.Open? ==> w.scopes[s].turn.Idle?
  {
    hide LeasesOk, TreeOk, OrderOk;
    forall s | s in w.scopes && w.scopes[s].phase.Open? ensures w.scopes[s].turn.Idle? {
      assert ScopeOk(w.scopes[s], w.next);
    }
  }

  lemma {:induction false} RunMasked(events: seq<Event>)
    ensures MaskedOnly(Run(EMPTY, events).scopes)
  {
    hide Inv, Step, MaskedOnly;
    if events == [] {
      EmptyMasked();
    } else {
      RunMasked(events[..|events| - 1]);
      RunKeeps(events[..|events| - 1]);
      StepMasked(Run(EMPTY, events[..|events| - 1]), events[|events| - 1]);
    }
  }

  lemma EmptyMasked()
    ensures MaskedOnly(EMPTY.scopes)
  {
  }

  /** While a scope runs its cleanups, every scope that was opened below it by the program is closed:
      what is still there serves one of its own finalizers. */
  lemma ChildrenBeforeCleanups(events: seq<Event>, s: ScopeId, c: ScopeId)
    requires var w := Run(EMPTY, events); s in w.scopes && w.scopes[s].ran != [] && c in w.scopes && w.scopes[c].parent == Some(s)
    ensures var w := Run(EMPTY, events); w.scopes[c].owner == Some(s) || w.scopes[c].phase.Closed?
  {
    hide Run, LeasesOk;
    RunKeeps(events);
    RunMasked(events);
    var w := Run(EMPTY, events);
    assert ScopeOk(w.scopes[s], w.next);
  }

  /* ---------- what holds in every reachable state ---------- */

  /** A closed scope has closed its whole subtree. */
  lemma {:induction false} SubtreeClosed(w: World, s: ScopeId, top: ScopeId)
    requires Inv(w) && top in w.scopes && w.scopes[top].phase.Closed? && s in w.scopes && Within(w.scopes, s, top)
    ensures w.scopes[s].phase.Closed?
    decreases s
  {
    hide LeasesOk, OrderOk;
    if s != top {
      var p := w.scopes[s].parent.value;
      SubtreeClosed(w, p, top);
      assert ScopeOk(w.scopes[p], w.next) && w.scopes[p].children == {};
    }
  }

  /** After a scope has closed, each scope of its subtree is closed, without children, cleanups or
      acquisitions, and every lease ever granted there has had its disposal begun, exactly once. */
  lemma ClosedIsEmpty(events: seq<Event>, top: ScopeId, s: ScopeId, l: LeaseId)
    requires var w := Run(EMPTY, events);
             top in w.scopes && w.scopes[top].phase.Closed? && s in w.scopes && Within(w.scopes, s, top)
    ensures var w := Run(EMPTY, events);
            && w.scopes[s].phase.Closed? && w.scopes[s].children == {} && w.scopes[s].cleanups == [] && w.scopes[s].acquiring == 0
            && (l in w.leases && w.leases[l].owner == s ==> l in w.disposals && l !in w.tokens && !w.leases[l].live)
            && DistinctIds(w.disposals)
  {
    hide Run;
    RunKeeps(events);
    var w := Run(EMPTY, events);
    SubtreeClosed(w, s, top);
    assert ScopeOk(w.scopes[s], w.next);
    if l in w.leases && w.leases[l].owner == s {
      assert LeaseRow(w, l);
    }
  }

  /** A lease of the scope was released after its last drain, before the look at the cleanup list. */
  predicate ReleasedInGap(events: seq<Event>, s: ScopeId, l: LeaseId) {
    exists k :: 0 <= k < |events| && GapAt(events, s, l, k)
  }

  predicate GapAt(events: seq<Event>, s: ScopeId, l: LeaseId, k: nat)
    requires k < |events|
  {
    var w := Run(EMPTY, events[..k]);
    events[k] == Releasing(l) && s in w.scopes && w.scopes[s].turn.Drained? && IsLive(w, l) && w.leases[l].owner == s
  }

  /** What a drained or closed scope still lists was released since its last drain. */
  lemma StepGap(w: World, e: Event, s: ScopeId, l: LeaseId)
    requires Inv(w) && s in Step(w, e).scopes && (Step(w, e).scopes[s].turn.Drained? || Step(w, e).scopes[s].turn.Done?)
    requires l in Step(w, e).scopes[s].releases
    ensures s in w.scopes
    ensures || ((w.scopes[s].turn.Drained? || w.scopes[s].turn.Done?) && l in w.scopes[s].releases)
            || (e == Releasing(l) && w.scopes[s].turn.Drained? && IsLive(w, l) && w.leases[l].owner == s)
  {
    hide Inv, CancelReaches, TrapReaches, Less, CanDrain, FinalizerSettled;
    OpenIsIdle(w);
    if e.Releasing? && IsLive(w, e.lease) { LiveIsListed(w, e.lease); }
    if e.Resuming? && e.scope in w.scopes { CleanupsAreOwn(w, e.scope); }
  }

  lemma CleanupsAreOwn(w: World, s: ScopeId)
    requires Inv(w) && s in w.scopes
    ensures forall l :: LeaseEntry(l) in w.scopes[s].cleanups ==> l in w.leases && w.leases[l].owner == s
    ensures w.scopes[s].cleanups != [] ==> w.scopes[s].cleanups[|w.scopes[s].cleanups| - 1] in w.scopes[s].cleanups
  {
    hide TreeOk, ScopesOk;
    assert OwnLeases(w.scopes[s], s, w.leases);
  }

  lemma GapStays(events: seq<Event>, e: Event, s: ScopeId, l: LeaseId)
    requires ReleasedInGap(events, s, l)
    ensures ReleasedInGap(events + [e], s, l)
  {
    hide IsLive, Run;
    var k :| 0 <= k < |events| && GapAt(events, s, l, k);
    assert (events + [e])[..k] == events[..k] && (events + [e])[k] == events[k];
    assert GapAt(events + [e], s, l, k);
  }

  lemma {:induction false} ListedWasReleasedInGap(events: seq<Event>, s: ScopeId, l: LeaseId)
    requires var w := Run(EMPTY, events);
             s in w.scopes && (w.scopes[s].turn.Drained? || w.scopes[s].turn.Done?) && l in w.scopes[s].releases
    ensures ReleasedInGap(events, s, l)
  {
    hide Inv, Step, IsLive;
    if events != [] {
      var before, e := events[..|events| - 1], events[|events| - 1];
      var w := Run(EMPTY, before);
      assert events == before + [e];
      RunKeeps(before);
      StepGap(w, e, s, l);
      if (w.scopes[s].turn.Drained? || w.scopes[s].turn.Done?) && l in w.scopes[s].releases {
        ListedWasReleasedInGap(before, s, l);
        GapStays(before, e, s, l);
      } else {
        assert events[..|before|] == before;
        assert GapAt(events, s, l, |before|);
      }
    }
  }

  /** Whether the disposals of a closed scope have also ended: all have exactly when those have that
      were begun after its last drain, before the look at the cleanup list. */
  lemma ClosedIsQuietIff(events: seq<Event>, s: ScopeId)
    requires var w := Run(EMPTY, events); s in w.scopes && w.scopes[s].phase.Closed?
    ensures var w := Run(EMPTY, events);
            (forall l :: l in w.leases && w.leases[l].owner == s ==> l in w.finished)
            <==> (forall l :: l in w.leases && ReleasedInGap(events, s, l) ==> l in w.finished)
  {
    hide Run, ReleasedInGap;
    RunKeeps(events);
    var w := Run(EMPTY, events);
    assert ScopeOk(w.scopes[s], w.next) && OwnLeases(w.scopes[s], s, w.leases);
    forall l | l in w.leases && w.leases[l].owner == s ensures l in w.finished || ReleasedInGap(events, s, l) {
      assert LeaseRow(w, l);
      if l !in w.finished { ListedWasReleasedInGap(events, s, l); }
    }
    forall l | l in w.leases && ReleasedInGap(events, s, l) ensures w.leases[l].owner == s {
      GapIsOwn(events, s, l);
    }
  }

  /** A lease keeps its owner. */
  lemma {:induction false} OwnerStays(w: World, events: seq<Event>, l: LeaseId)
    requires Inv(w) && l in w.leases
    ensures l in Run(w, events).leases && Run(w, events).leases[l].owner == w.leases[l].owner
    decreases |events|
  {
    hide Inv, Step;
    if events != [] {
      var before := events[..|events| - 1];
      OwnerStays(w, before, l);
      InvFrom(w, before);
      StepOwner(Run(w, before), events[|events| - 1], l);
    }
  }

  lemma {:induction false} InvFrom(w: World, events: seq<Event>)
    requires Inv(w)
    ensures Inv(Run(w, events))
    decreases |events|
  {
    hide Inv, Step;
    if events != [] {
      InvFrom(w, events[..|events| - 1]);
      StepKeeps(Run(w, events[..|events| - 1]), events[|events| - 1]);
    }
  }

  lemma StepOwner(w: World, e: Event, l: LeaseId)
    requires Inv(w) && l in w.leases
    ensures l in Step(w, e).leases && Step(w, e).leases[l].owner == w.leases[l].owner
  {
    hide Inv, CancelReaches, TrapReaches, Less, CanDrain, FinalizerSettled;
    OpenIsIdle(w);
    FreshLease(w);
  }

  lemma FreshLease(w: World)
    requires Inv(w)
    ensures w.next !in w.leases
  {
    hide TreeOk, ScopesOk, LeasesOk;
  }

  lemma {:induction false} RunSplit(w: World, a: seq<Event>, b: seq<Event>)
    ensures Run(w, a + b) == Run(Run(w, a), b)
  {
    hide Step;
    if b == [] {
      assert a + b == a;
    } else {
      RunSplit(w, a, b[..|b| - 1]);
      assert (a + b)[..|a + b| - 1] == a + b[..|b| - 1];
    }
  }

  lemma GapIsOwn(events: seq<Event>, s: ScopeId, l: LeaseId)
    requires ReleasedInGap(events, s, l)
    ensures l in Run(EMPTY, events).leases && Run(EMPTY, events).leases[l].owner == s
  {
    hide Run, Step, Inv;
    var k :| 0 <= k < |events| && GapAt(events, s, l, k);
    RunKeeps(events[..k]);
    OwnerStays(Run(EMPTY, events[..k]), events[k..], l);
    RunSplit(EMPTY, events[..k], events[k..]);
    assert events[..k] + events[k..] == events;
  }

  const ROOT: Scope := NewScope(None, None)
  const GRANTED: Scope := ROOT.(cleanups := [LeaseEntry(1)])
  const DRAINED: Scope := GRANTED.(phase := Draining, turn := Drained, aborted := true)
  const LATE: Scope := DRAINED.(cleanups := [], releases := {1})

  lemma OneGrant()
    ensures Run(EMPTY, [Rooting, Granting(0)]) == World(map[0 := GRANTED], map[1 := Lease(0, true)], {1}, [], {}, 2)
  {
    RunSnoc(EMPTY, [], Rooting);
    assert [] + [Rooting] == [Rooting] && Run(EMPTY, []) == EMPTY;
    assert Run(EMPTY, [Rooting]) == World(map[0 := ROOT], map[], {}, [], {}, 1);
    RunSnoc(EMPTY, [Rooting], Granting(0));
    assert [Rooting] + [Granting(0)] == [Rooting, Granting(0)];
    assert ROOT.cleanups + [LeaseEntry(1)] == [LeaseEntry(1)] && {} + {1} == {1};
  }

  lemma CloseAndDrain()
    ensures Run(EMPTY, [Rooting, Granting(0), Closing(0), DrainingDone(0)])
         == World(map[0 := DRAINED], map[1 := Lease(0, true)], {1}, [], {}, 2)
  {
    hide Run;
    var b := World(map[0 := GRANTED], map[1 := Lease(0, true)], {1}, [], {}, 2);
    var closing := GRANTED.(phase := Draining, turn := Waiting, aborted := true);
    OneGrant();
    RunSnoc(EMPTY, [Rooting, Granting(0)], Closing(0));
    assert [Rooting, Granting(0)] + [Closing(0)] == [Rooting, Granting(0), Closing(0)];
    assert Step(b, Closing(0)) == b.(scopes := map[0 := closing]);
    RunSnoc(EMPTY, [Rooting, Granting(0), Closing(0)], DrainingDone(0));
    assert [Rooting, Granting(0), Closing(0)] + [DrainingDone(0)] == [Rooting, Granting(0), Closing(0), DrainingDone(0)];
    assert Step(b.(scopes := map[0 := closing]), DrainingDone(0)) == b.(scopes := map[0 := DRAINED]);
  }

  lemma LateRelease()
    ensures var w := World(map[0 := DRAINED], map[1 := Lease(0, true)], {1}, [], {}, 2);
            var t := World(map[0 := LATE], map[1 := Lease(0, false)], {}, [1], {}, 2);
            && Step(w, Releasing(1)) == t
            && Step(t, Resuming(0)) == t.(scopes := map[0 := LATE.(phase := Closed, turn := Done)])
  {
    assert Less([LeaseEntry(1)], LeaseEntry(1)) == [] by { assert [LeaseEntry(1)][1..] == []; }
    assert {1} - {1} == {} && [] + [1] == [1] && {} + {1} == {1};
  }

  /** A release may be begun between the last drain and the look at the cleanup list. The scope is
      then closed while that disposal is still in flight. */
  lemma ClosedWithDisposalInFlight()
    ensures var w := Run(EMPTY, [Rooting, Granting(0), Closing(0), DrainingDone(0), Releasing(1), Resuming(0)]);
            && 0 in w.scopes && w.scopes[0].phase.Closed?
            && w.scopes[0].releases == {1} && w.disposals == [1] && w.finished == {}
  {
    hide Run, Step;
    CloseAndDrain();
    LateRelease();
    RunSnoc(EMPTY, [Rooting, Granting(0), Closing(0), DrainingDone(0)], Releasing(1));
    assert [Rooting, Granting(0), Closing(0), DrainingDone(0)] + [Releasing(1)]
        == [Rooting, Granting(0), Closing(0), DrainingDone(0), Releasing(1)];
    RunSnoc(EMPTY, [Rooting, Granting(0), Closing(0), DrainingDone(0), Releasing(1)], Resuming(0));
    assert [Rooting, Granting(0), Closing(0), DrainingDone(0), Releasing(1)] + [Resuming(0)]
        == [Rooting, Granting(0), Closing(0), DrainingDone(0), Releasing(1), Resuming(0)];
  }

  lemma RunSnoc(w: World, events: seq<Event>, e: Event)
    ensures Run(w, events + [e]) == Step(Run(w, events), e)
  {
    assert (events + [e])[..|events|] == events;
  }

  /** Closing runs a scope's cleanups youngest first: what ran earlier was registered later, and what
      is still listed was registered before everything that ran. */
  lemma CleanupsRunYoungestFirst(events: seq<Event>, s: ScopeId, i: nat, j: nat)
    requires var w := Run(EMPTY, events); s in w.scopes && i < j < |w.scopes[s].ran|
    ensures var w := Run(EMPTY, events);
            && w.scopes[s].ran[i].id > w.scopes[s].ran[j].id
            && (forall e :: e in w.scopes[s].cleanups ==> e.id < w.scopes[s].ran[j].id)
  {
    RunKeeps(events);
    var w := Run(EMPTY, events);
    assert ScopeOk(w.scopes[s], w.next);
    assert w.scopes[s].ran[j] in w.scopes[s].ran;
  }

  /** The tables agree: a token, a live lease and a cleanup entry of its owner come and go together. */
  lemma TablesAgree(events: seq<Event>, s: ScopeId, l: LeaseId)
    requires s in Run(EMPTY, events).scopes
    ensures var w := Run(EMPTY, events);
            && (l in w.tokens <==> l in w.leases && w.leases[l].live)
            && (LeaseEntry(l) in w.scopes[s].cleanups <==> l in w.leases && w.leases[l].live && w.leases[l].owner == s)
            && (l in w.disposals <==> l in w.leases && !w.leases[l].live)
  {
    RunKeeps(events);
    var w := Run(EMPTY, events);
    if l in w.leases {
      assert LeaseRow(w, l);
    }
  }

  /** Lifting the token that lowering gave yields the handle again, and a handle that can be used
      here belongs to a standing scope above. */
  lemma AuthorityStaysBelow(events: seq<Event>, s: ScopeId, l: LeaseId)
    ensures var w := Run(EMPTY, events);
            && (Lower(w, s, l).Some? ==>
                  && Lift(w, s, Lower(w, s, l).value) == Some(l)
                  && Within(w.scopes, s, w.leases[l].owner) && !w.scopes[w.leases[l].owner].phase.Closed?)
            && (Lift(w, s, l).Some? ==> Lower(w, s, l) == Some(l))
  {
    RunKeeps(events);
    var w := Run(EMPTY, events);
    if Lower(w, s, l).Some? {
      LiveIsListed(w, l);
      assert ScopeOk(w.scopes[w.leases[l].owner], w.next);
    }
  }
}
