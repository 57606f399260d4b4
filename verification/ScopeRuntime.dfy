/** Host scopes. Every method is the step of `ScopeProtocol` that it names; the recursions are those
    of cancellation and of reclaiming after a trap, the loop that of looking for an ancestor. */
module ScopeRuntimes {
  import opened ScopeProtocol
  import opened ScopeRuns

  /* ---------- walking the tree ---------- */

  ghost predicate SamePlaces(a: map<ScopeId, Scope>, b: map<ScopeId, Scope>) {
    && b.Keys == a.Keys
    && forall s :: s in a ==> b[s] == a[s].(aborted := b[s].aborted, guest := b[s].guest)
  }

  /** Flags do not change what a walk reaches. */
  lemma {:induction false} WalksIgnoreFlags(a: map<ScopeId, Scope>, b: map<ScopeId, Scope>, top: ScopeId, s: ScopeId)
    requires SamePlaces(a, b)
    ensures CancelReaches(a, top, s) == CancelReaches(b, top, s) && Within(a, s, top) == Within(b, s, top)
    decreases s
  {
    if s in a && a[s].parent.Some? && a[s].parent.value < s {
      WalksIgnoreFlags(a, b, top, a[s].parent.value);
    }
  }

  /** A scope below another is below one of its children. */
  lemma {:induction false} WithinByChild(scopes: map<ScopeId, Scope>, s: ScopeId, top: ScopeId) returns (c: ScopeId)
    requires TreeOk(scopes) && s in scopes && s != top && Within(scopes, s, top)
    ensures c in scopes && scopes[c].parent == Some(top) && top < c && Within(scopes, s, c)
    ensures CancelReaches(scopes, top, s) ==> CancelReaches(scopes, c, s) && scopes[c].owner != Some(top)
    decreases s
  {
    var p := scopes[s].parent.value;
    if p == top { c := s; } else { c := WithinByChild(scopes, p, top); }
  }

  lemma {:induction false} ChildThenWithin(scopes: map<ScopeId, Scope>, s: ScopeId, c: ScopeId, top: ScopeId)
    requires TreeOk(scopes) && c in scopes && scopes[c].parent == Some(top)
    ensures Within(scopes, s, c) ==> Within(scopes, s, top)
    ensures CancelReaches(scopes, c, s) && scopes[c].owner != Some(top) ==> CancelReaches(scopes, top, s)
    decreases s
  {
    if s != c && s in scopes && scopes[s].parent.Some? && scopes[s].parent.value < s {
      ChildThenWithin(scopes, scopes[s].parent.value, c, top);
    }
  }

  lemma {:induction false} CancelledIsWithin(scopes: map<ScopeId, Scope>, top: ScopeId, s: ScopeId)
    requires CancelReaches(scopes, top, s)
    ensures Within(scopes, s, top)
    decreases s
  {
    if s != top { CancelledIsWithin(scopes, top, scopes[s].parent.value); }
  }

  /** What the walks need of a tree: children are younger, and below a closed scope all are closed and
      cancelled. */
  ghost predicate Walkable(scopes: map<ScopeId, Scope>) {
    && TreeOk(scopes)
    && forall s :: s in scopes && scopes[s].phase.Closed? ==> scopes[s].children == {} && scopes[s].aborted
  }

  lemma {:induction false} BelowClosed(scopes: map<ScopeId, Scope>, s: ScopeId, top: ScopeId)
    requires Walkable(scopes) && s in scopes && Within(scopes, s, top) && top in scopes && scopes[top].phase.Closed?
    ensures scopes[s].phase.Closed? && scopes[s].aborted
    decreases s
  {
    if s != top {
      BelowClosed(scopes, scopes[s].parent.value, top);
    }
  }

  lemma InvWalkable(w: World)
    requires Inv(w)
    ensures Walkable(w.scopes) && Below(w.scopes.Keys, w.next)
  {
    hide LeasesOk, TreeOk, OrderOk;
    forall s | s in w.scopes && w.scopes[s].phase.Closed? ensures w.scopes[s].children == {} && w.scopes[s].aborted {
      assert ScopeOk(w.scopes[s], w.next);
    }
  }

  lemma FlagsWalkable(a: map<ScopeId, Scope>, b: map<ScopeId, Scope>)
    requires Walkable(a) && SamePlaces(a, b) && forall s :: s in a && a[s].aborted ==> b[s].aborted
    ensures Walkable(b)
  {
    hide TreeOk;
    TreeStays(a, b);
  }

  /* ---------- what the recursions set ---------- */

  function Cancelled(scopes: map<ScopeId, Scope>, top: ScopeId): map<ScopeId, Scope> {
    map x | x in scopes :: if CancelReaches(scopes, top, x) then scopes[x].(aborted := true) else scopes[x]
  }

  function Trapped(scopes: map<ScopeId, Scope>, top: ScopeId): map<ScopeId, Scope> {
    map x | x in scopes :: if TrapReaches(scopes, top, x) then scopes[x].(guest := false, aborted := true) else scopes[x]
  }

  /** This scope, or below one of the children done so far that are not masked. */
  ghost predicate CancelledSoFar(scopes: map<ScopeId, Scope>, top: ScopeId, done: set<ScopeId>, x: ScopeId) {
    x == top || exists c :: c in done && c in scopes && scopes[c].owner != Some(top) && CancelReaches(scopes, c, x)
  }

  ghost predicate TrappedSoFar(scopes: map<ScopeId, Scope>, done: set<ScopeId>, x: ScopeId) {
    exists c :: c in done && TrapReaches(scopes, c, x)
  }

  ghost predicate CancelProgress(was: map<ScopeId, Scope>, now: map<ScopeId, Scope>, top: ScopeId, done: set<ScopeId>) {
    && now.Keys == was.Keys
    && forall x :: x in was ==> now[x] == was[x].(aborted := was[x].aborted || CancelledSoFar(was, top, done, x))
  }

  ghost predicate TrapProgress(was: map<ScopeId, Scope>, now: map<ScopeId, Scope>, top: ScopeId, done: set<ScopeId>) {
    && now.Keys == was.Keys
    && forall x :: x in was ==> now[x] == was[x].(
                     aborted := was[x].aborted || TrappedSoFar(was, done, x), guest := was[x].guest && x != top && !TrappedSoFar(was, done, x))
  }

  lemma CancelStart(was: map<ScopeId, Scope>, top: ScopeId)
    requires top in was
    ensures CancelProgress(was, was[top := was[top].(aborted := true)], top, {})
  {
  }

  lemma TrapStart(was: map<ScopeId, Scope>, top: ScopeId)
    requires top in was
    ensures TrapProgress(was, was[top := was[top].(guest := false)], top, {})
  {
  }

  lemma CancelPlaces(was: map<ScopeId, Scope>, now: map<ScopeId, Scope>, top: ScopeId, done: set<ScopeId>)
    requires Walkable(was) && CancelProgress(was, now, top, done)
    ensures SamePlaces(was, now) && Walkable(now)
  {
    FlagsWalkable(was, now);
  }

  lemma TrapPlaces(was: map<ScopeId, Scope>, now: map<ScopeId, Scope>, top: ScopeId, done: set<ScopeId>)
    requires Walkable(was) && TrapProgress(was, now, top, done)
    ensures SamePlaces(was, now) && Walkable(now)
  {
    FlagsWalkable(was, now);
  }

  /** Cancelling one more child, or sparing a masked one, is progress. */
  lemma CancelMore(was: map<ScopeId, Scope>, now: map<ScopeId, Scope>, top: ScopeId, done: set<ScopeId>, c: ScopeId)
    requires Walkable(was) && CancelProgress(was, now, top, done) && c in was
    ensures CancelProgress(was, if was[c].owner == Some(top) then now else Cancelled(now, c), top, done + {c})
  {
    var after := if was[c].owner == Some(top) then now else Cancelled(now, c);
    CancelPlaces(was, now, top, done);
    forall x | x in was
      ensures after[x] == was[x].(aborted := was[x].aborted || CancelledSoFar(was, top, done + {c}, x))
    {
      WalksIgnoreFlags(was, now, c, x);
      MoreCancelled(was, top, done, c, x);
    }
  }

  lemma MoreCancelled(was: map<ScopeId, Scope>, top: ScopeId, done: set<ScopeId>, c: ScopeId, x: ScopeId)
    requires c in was
    ensures CancelledSoFar(was, top, done + {c}, x)
       <==> CancelledSoFar(was, top, done, x) || (was[c].owner != Some(top) && CancelReaches(was, c, x))
  {
  }

  lemma TrapMore(was: map<ScopeId, Scope>, now: map<ScopeId, Scope>, top: ScopeId, done: set<ScopeId>, c: ScopeId)
    requires Walkable(was) && TrapProgress(was, now, top, done) && c in was
    ensures TrapProgress(was, Trapped(now, c), top, done + {c})
  {
    var after := Trapped(now, c);
    TrapPlaces(was, now, top, done);
    forall x | x in was
      ensures after[x] == was[x].(
                aborted := was[x].aborted || TrappedSoFar(was, done + {c}, x),
                guest := was[x].guest && x != top && !TrappedSoFar(was, done + {c}, x))
    {
      WalksIgnoreFlags(was, now, c, x);
      MoreTrapped(was, done, c, x);
    }
  }

  lemma MoreTrapped(was: map<ScopeId, Scope>, done: set<ScopeId>, c: ScopeId, x: ScopeId)
    ensures TrappedSoFar(was, done + {c}, x) <==> TrappedSoFar(was, done, x) || TrapReaches(was, c, x)
  {
  }

  /** When all children are done, everything the walk reaches is cancelled: a closed child, no longer
      among the children, has nothing below it that is not cancelled already. */
  lemma CancelAll(was: map<ScopeId, Scope>, now: map<ScopeId, Scope>, top: ScopeId)
    requires Walkable(was) && top in was && CancelProgress(was, now, top, was[top].children)
    ensures now == Cancelled(was, top)
  {
    forall x | x in was ensures now[x] == Cancelled(was, top)[x] {
      CancelAllAt(was, top, x);
    }
  }

  lemma CancelAllAt(was: map<ScopeId, Scope>, top: ScopeId, x: ScopeId)
    requires Walkable(was) && top in was && x in was
    ensures was[x].aborted || (CancelledSoFar(was, top, was[top].children, x) <==> CancelReaches(was, top, x))
  {
    if CancelReaches(was, top, x) && x != top {
      CancelledIsWithin(was, top, x);
      var c := WithinByChild(was, x, top);
      if c !in was[top].children { BelowClosed(was, x, c); }
    }
    if CancelledSoFar(was, top, was[top].children, x) && x != top {
      var c :| c in was[top].children && c in was && was[c].owner != Some(top) && CancelReaches(was, c, x);
      ChildThenWithin(was, x, c, top);
    }
  }

  lemma TrapAll(was: map<ScopeId, Scope>, now: map<ScopeId, Scope>, top: ScopeId)
    requires Walkable(was) && top in was && TrapProgress(was, now, top, was[top].children)
    ensures Cancelled(now, top) == Trapped(was, top)
  {
    TrapPlaces(was, now, top, was[top].children);
    forall x | x in was ensures Cancelled(now, top)[x] == Trapped(was, top)[x] {
      WalksIgnoreFlags(was, now, top, x);
      TrapAllAt(was, top, x);
    }
  }

  lemma TrapAllAt(was: map<ScopeId, Scope>, top: ScopeId, x: ScopeId)
    requires Walkable(was) && top in was && x in was
    ensures TrapReaches(was, top, x) <==> x == top || TrappedSoFar(was, was[top].children, x)
    ensures CancelReaches(was, top, x) ==> TrapReaches(was, top, x) || was[x].aborted
  {
    hide TrapReaches, TrappedSoFar;
    if CancelReaches(was, top, x) {
      CancelledIsWithin(was, top, x);
      WithinIsReached(was, top, x);
    }
    if x == top {
      WithinIsReached(was, top, top);
    } else if TrapReaches(was, top, x) {
      TrapDown(was, top, x);
    } else if TrappedSoFar(was, was[top].children, x) {
      TrapUp(was, top, x);
    }
  }

  lemma WithinIsReached(was: map<ScopeId, Scope>, top: ScopeId, x: ScopeId)
    requires Walkable(was) && x in was && Within(was, x, top)
    ensures TrapReaches(was, top, x) || was[x].aborted
    ensures x == top ==> TrapReaches(was, top, x)
  {
    hide TreeOk;
  }

  lemma TrapDown(was: map<ScopeId, Scope>, top: ScopeId, x: ScopeId)
    requires Walkable(was) && top in was && x in was && TrapReaches(was, top, x) && x != top
    ensures TrappedSoFar(was, was[top].children, x)
  {
    hide Within;
    var c := WithinByChild(was, x, top);
    if c !in was[top].children { BelowClosed(was, x, c); }
    assert TrapReaches(was, c, x);
  }

  lemma TrapUp(was: map<ScopeId, Scope>, top: ScopeId, x: ScopeId)
    requires Walkable(was) && top in was && x in was && TrappedSoFar(was, was[top].children, x)
    ensures TrapReaches(was, top, x)
  {
    hide TreeOk;
    var c :| c in was[top].children && TrapReaches(was, c, x);
    OpenChildOf(was, top, c);
    ChildThenWithin(was, x, c, top);
    Itself(was, c);
  }

  lemma Itself(scopes: map<ScopeId, Scope>, s: ScopeId)
    ensures Within(scopes, s, s)
  {
  }

  lemma OpenChildOf(scopes: map<ScopeId, Scope>, p: ScopeId, c: ScopeId)
    requires TreeOk(scopes) && p in scopes && c in scopes[p].children
    ensures c in scopes && scopes[c].parent == Some(p) && !scopes[c].phase.Closed? && p < c
  {
  }

  /* ---------- the scopes ---------- */

  class ScopeRuntime {
    var scopes: map<ScopeId, Scope>
    var leases: map<LeaseId, Lease>
    var tokens: set<LeaseId>
    var disposals: seq<LeaseId>
    var finished: set<LeaseId>
    var next: nat

    function View(): World
      reads this
    {
      World(scopes, leases, tokens, disposals, finished, next)
    }

    ghost predicate Valid()
      reads this
    {
      Inv(View())
    }

    constructor ()
      ensures Valid() && View() == EMPTY
    {
      scopes, leases, tokens, disposals, finished, next := map[], map[], {}, [], {}, 0;
      new;
      EmptyOk();
    }

    /** A scope of its own registry. */
    method OpenRootScope() returns (id: ScopeId)
      requires Valid()
      modifies this
      ensures Valid() && View() == Step(old(View()), Rooting) && id == old(next)
    {
      hide Inv;
      StepKeeps(View(), Rooting);
      id := next;
      scopes, next := scopes[id := NewScope(None, None)], next + 1;
    }

    /** A child scope, refused unless the parent is open and not cancelled. */
    method OpenChildScope(parent: ScopeId) returns (id: Option<ScopeId>)
      requires Valid() && parent in scopes
      modifies this
      ensures Valid() && View() == Step(old(View()), Nesting(parent))
      ensures id == if IsOpen(old(View()), parent) then Some(old(next)) else None
    {
      hide Inv;
      StepKeeps(View(), Nesting(parent));
      var above := scopes[parent];
      if above.aborted || !above.phase.Open? { return None; }
      id := Some(next);
      scopes := scopes[parent := above.(children := above.children + {next})][next := NewScope(Some(parent), above.owner)];
      next := next + 1;
    }

    /** Walks up the parents. */
    method IsWithin(s: ScopeId, ancestor: ScopeId) returns (within: bool)
      requires Valid() && s in scopes
      ensures within == Within(scopes, s, ancestor)
    {
      hide LeasesOk, ScopesOk;
      if s == ancestor { return true; }
      var above := scopes[s].parent;
      while above.Some?
        invariant above.Some? ==> above.value in scopes
        invariant Within(scopes, s, ancestor) == (above.Some? && Within(scopes, above.value, ancestor))
        decreases if above.Some? then above.value + 1 else 0
      {
        if above.value == ancestor { return true; }
        above := scopes[above.value].parent;
      }
      within := false;
    }

    /** `cancel`: this scope and its children, but not its own masked cleanup scopes. */
    method CancelFrom(s: ScopeId)
      requires Walkable(scopes) && s in scopes && Below(scopes.Keys, next)
      modifies this`scopes
      ensures scopes == Cancelled(old(scopes), s)
      decreases next - s
    {
      hide Walkable, CancelProgress, Cancelled, Below;
      ghost var was, children := scopes, scopes[s].children;
      scopes := scopes[s := scopes[s].(aborted := true)];
      CancelStart(was, s);
      CancelPlaces(was, scopes, s, {});
      var rest := scopes[s].children;
      assert children - rest == {};
      while rest != {}
        invariant rest <= children && Walkable(scopes) && SamePlaces(was, scopes) && CancelProgress(was, scopes, s, children - rest)
        decreases |rest|
      {
        var c :| c in rest;
        ChildStep(was, s, c, next);
        CancelMore(was, scopes, s, children - rest, c);
        assert children - rest + {c} == children - (rest - {c});
        if scopes[c].owner != Some(s) { CancelFrom(c); }
        CancelPlaces(was, scopes, s, children - (rest - {c}));
        rest := rest - {c};
      }
      assert children - rest == children;
      CancelAll(was, scopes, s);
    }

    /** `cancel` from outside. */
    method CancelScope(s: ScopeId)
      requires Valid() && s in scopes
      modifies this
      ensures Valid() && View() == Step(old(View()), Cancelling(s))
    {
      hide Inv, Walkable, Below;
      StepKeeps(View(), Cancelling(s));
      InvWalkable(View());
      CancelFrom(s);
    }

    /** `reclaimAfterTrap`: no guest finalizer of the subtree runs any more, and all of it is cancelled. */
    method ReclaimAfterTrap(s: ScopeId)
      requires Walkable(scopes) && s in scopes && Below(scopes.Keys, next)
      modifies this`scopes
      ensures scopes == Trapped(old(scopes), s)
      decreases next - s
    {
      hide Walkable, TrapProgress, Cancelled, Trapped, Below;
      ghost var was, children := scopes, scopes[s].children;
      scopes := scopes[s := scopes[s].(guest := false)];
      TrapStart(was, s);
      TrapPlaces(was, scopes, s, {});
      var rest := scopes[s].children;
      assert children - rest == {};
      while rest != {}
        invariant rest <= children && Walkable(scopes) && SamePlaces(was, scopes) && TrapProgress(was, scopes, s, children - rest)
        decreases |rest|
      {
        var c :| c in rest;
        ChildStep(was, s, c, next);
        TrapMore(was, scopes, s, children - rest, c);
        assert children - rest + {c} == children - (rest - {c});
        ReclaimAfterTrap(c);
        TrapPlaces(was, scopes, s, children - (rest - {c}));
        rest := rest - {c};
      }
      assert children - rest == children;
      TrapAll(was, scopes, s);
      CancelFrom(s);
    }

    lemma ChildStep(was: map<ScopeId, Scope>, s: ScopeId, c: ScopeId, next: nat)
      requires Walkable(was) && s in was && c in was[s].children && Below(was.Keys, next)
      ensures c in was && s < c < next
    {
      OpenChildOf(was, s, c);
    }

    method TrapScope(s: ScopeId)
      requires Valid() && s in scopes
      modifies this
      ensures Valid() && View() == Step(old(View()), Trapping(s))
    {
      hide Inv, Walkable, Below;
      StepKeeps(View(), Trapping(s));
      InvWalkable(View());
      ReclaimAfterTrap(s);
    }

    /** Registers a lease: its token, its owner and its cleanup. */
    method Register(s: ScopeId) returns (lease: Option<LeaseId>)
      requires Valid() && s in scopes
      modifies this
      ensures Valid() && View() == Step(old(View()), Granting(s))
      ensures lease == if IsOpen(old(View()), s) then Some(old(next)) else None
    {
      hide Inv;
      StepKeeps(View(), Granting(s));
      if scopes[s].aborted || !scopes[s].phase.Open? { return None; }
      lease := Some(next);
      tokens := tokens + {next};
      leases := leases[next := Lease(s, true)];
      scopes := scopes[s := scopes[s].(cleanups := scopes[s].cleanups + [LeaseEntry(next)])];
      next := next + 1;
    }

    /** `onExit`. */
    method OnScopeExit(s: ScopeId) returns (ok: bool)
      requires Valid() && s in scopes
      modifies this
      ensures Valid() && View() == Step(old(View()), Registering(s)) && ok == IsOpen(old(View()), s)
    {
      hide Inv;
      StepKeeps(View(), Registering(s));
      ok := !scopes[s].aborted && scopes[s].phase.Open?;
      if ok {
        scopes := scopes[s := scopes[s].(cleanups := scopes[s].cleanups + [ExitEntry(next)])];
        next := next + 1;
      }
    }

    /** An acquisition begins in an open scope, which then waits for it when it closes. */
    method TrackAcquisition(s: ScopeId) returns (ok: bool)
      requires Valid() && s in scopes
      modifies this
      ensures Valid() && View() == Step(old(View()), Acquiring(s)) && ok == IsOpen(old(View()), s)
    {
      hide Inv;
      StepKeeps(View(), Acquiring(s));
      ok := !scopes[s].aborted && scopes[s].phase.Open?;
      if ok { scopes := scopes[s := scopes[s].(acquiring := scopes[s].acquiring + 1)]; }
    }

    /** An acquisition settles; what it made is granted only if the scope still stands. */
    method SettleAcquisition(s: ScopeId, made: bool) returns (lease: Option<LeaseId>)
      requires Valid() && s in scopes && scopes[s].acquiring > 0
      modifies this
      ensures Valid() && View() == Step(old(View()), Acquired(s, made))
      ensures lease == if made && IsOpen(old(View()), s) then Some(old(next)) else None
    {
      hide Inv;
      StepKeeps(View(), Acquired(s, made));
      scopes := scopes[s := scopes[s].(acquiring := scopes[s].acquiring - 1)];
      if !made || scopes[s].aborted || !scopes[s].phase.Open? { return None; }
      lease := Some(next);
      tokens := tokens + {next};
      leases := leases[next := Lease(s, true)];
      scopes := scopes[s := scopes[s].(cleanups := scopes[s].cleanups + [LeaseEntry(next)])];
      next := next + 1;
    }

    /** Begins the disposal of a lease that is still live. */
    method Release(lease: LeaseId) returns (ok: bool)
      requires Valid()
      modifies this
      ensures Valid() && View() == Step(old(View()), Releasing(lease)) && ok == IsLive(old(View()), lease)
    {
      hide Inv;
      StepKeeps(View(), Releasing(lease));
      LeaseOwners(View());
      if lease !in leases || !leases[lease].live { return false; }
      Dispose(lease);
      ok := true;
    }

    /** The part of a release that an ended scope shares: the lease leaves every table. */
    method Dispose(lease: LeaseId)
      requires IsLive(View(), lease)
      modifies this
      ensures View() == BeginRelease(old(View()), lease)
    {
      var s := leases[lease].owner;
      leases := leases[lease := leases[lease].(live := false)];
      tokens := tokens - {lease};
      var scope := scopes[s];
      scopes := scopes[s := scope.(
                  cleanups := Less(scope.cleanups, LeaseEntry(lease)), releases := scope.releases + {lease})];
      disposals := disposals + [lease];
    }

    /** A disposal has ended; a scope that is not closing forgets it. */
    method Disposed(lease: LeaseId)
      requires Valid() && lease in leases && !leases[lease].live
      modifies this
      ensures Valid() && View() == Step(old(View()), Released(lease))
    {
      hide Inv;
      StepKeeps(View(), Released(lease));
      LeaseOwners(View());
      var s := leases[lease].owner;
      finished := finished + {lease};
      if scopes[s].phase.Open? {
        scopes := scopes[s := scopes[s].(releases := scopes[s].releases - {lease})];
      }
    }

    /** `close`, up to its first wait. Closing again joins the first closing. */
    method Close(s: ScopeId)
      requires Valid() && s in scopes
      modifies this
      ensures Valid() && View() == Step(old(View()), Closing(s))
    {
      hide Inv, Walkable, Below, CancelReaches;
      StepKeeps(View(), Closing(s));
      InvWalkable(View());
      if !scopes[s].turn.Idle? { return; }
      OpenPhase(View(), s);
      ClosingWalkable(scopes, s);
      scopes := scopes[s := scopes[s].(phase := Draining, turn := Waiting)];
      CancelFrom(s);
    }

    lemma OpenPhase(w: World, s: ScopeId)
      requires Inv(w) && s in w.scopes && w.scopes[s].turn.Idle?
      ensures w.scopes[s].phase.Open?
    {
      hide Inv;
      At(w, s);
    }

    lemma ClosingWalkable(scopes: map<ScopeId, Scope>, s: ScopeId)
      requires Walkable(scopes) && s in scopes && scopes[s].phase.Open?
      ensures Walkable(scopes[s := scopes[s].(phase := Draining, turn := Waiting)])
      ensures scopes[s := scopes[s].(phase := Draining, turn := Waiting)].Keys == scopes.Keys
    {
      hide TreeOk;
      TreeReplaced(scopes, s, scopes[s].(phase := Draining, turn := Waiting));
    }

    /** The closing scope has waited for its children, acquisitions and releases. */
    method Drained(s: ScopeId)
      requires Valid() && CanDrain(View(), s)
      modifies this
      ensures Valid() && View() == Step(old(View()), DrainingDone(s))
    {
      hide Inv, CanDrain;
      DrainScope(View(), s);
      StepKeeps(View(), DrainingDone(s));
      scopes := scopes[s := scopes[s].(releases := {}, turn := ScopeProtocol.Drained)];
    }

    lemma DrainScope(w: World, s: ScopeId)
      requires CanDrain(w, s)
      ensures s in w.scopes
    {
    }

    /** The closing scope goes on: the youngest cleanup starts, or the scope is closed and leaves its
        parent. Gives the masked scope under which a finalizer of the guest runs. */
    method Continue(s: ScopeId) returns (masked: Option<ScopeId>)
      requires Valid() && s in scopes && scopes[s].turn.Drained?
      modifies this
      ensures Valid() && View() == Step(old(View()), Resuming(s))
      ensures next == old(next) ==> masked == None
      ensures next != old(next) ==> masked == Some(old(next)) && old(next) in scopes && scopes[old(next)] == NewScope(Some(s), Some(s))
    {
      hide Inv, BeginRelease, IsLive;
      StepKeeps(View(), Resuming(s));
      masked := None;
      var scope := scopes[s];
      if scope.cleanups == [] {
        scopes := scopes[s := scope.(phase := Closed, turn := Done)];
        if scope.parent.Some? && scope.parent.value in scopes {
          var p := scope.parent.value;
          scopes := scopes[p := scopes[p].(children := scopes[p].children - {s})];
        }
      } else {
        var e := scope.cleanups[|scope.cleanups| - 1];
        if e.LeaseEntry? { CleanupIsLive(View(), s, e.id); }
        scopes := scopes[s := scope.(phase := Finalizing, turn := Busy(e), ran := scope.ran + [e])];
        match e
        case LeaseEntry(l) =>
          StillLive(View(), l, s);
          KeepsNext(View(), l);
          Dispose(l);
        case ExitEntry(_) =>
          scopes := scopes[s := scopes[s].(cleanups := Less(scope.cleanups, e))];
          if scope.guest {
            masked := Some(next);
            scopes := scopes[s := scopes[s].(children := scopes[s].children + {next})][next := NewScope(Some(s), Some(s))];
            next := next + 1;
          }
      }
    }

    lemma CleanupIsLive(w: World, s: ScopeId, l: LeaseId)
      requires Inv(w) && s in w.scopes && LeaseEntry(l) in w.scopes[s].cleanups
      ensures l in w.leases && w.leases[l].live && w.leases[l].owner == s
    {
      hide LeasesOk, TreeOk, ScopesOk;
      ListedIsLive(w, s, l);
    }

    lemma StillLive(w: World, l: LeaseId, s: ScopeId)
      requires l in w.leases && w.leases[l].live && w.leases[l].owner == s && s in w.scopes
      ensures IsLive(w, l)
    {
    }

    lemma KeepsNext(w: World, l: LeaseId)
      requires IsLive(w, l)
      ensures BeginRelease(w, l).next == w.next
    {
    }

    /** The finalizer has settled: its disposal ended, or its masked scope is closed. */
    method FinalizerEnded(s: ScopeId)
      requires Valid() && FinalizerSettled(View(), s)
      modifies this
      ensures Valid() && View() == Step(old(View()), Settling(s))
    {
      hide Inv, FinalizerSettled;
      BusyThen(View(), s);
      StepKeeps(View(), Settling(s));
      var e := scopes[s].turn.entry;
      var releases := if e.LeaseEntry? then scopes[s].releases - {e.id} else scopes[s].releases;
      scopes := scopes[s := scopes[s].(turn := Emptying, releases := releases)];
    }

    lemma BusyThen(w: World, s: ScopeId)
      requires FinalizerSettled(w, s)
      ensures s in w.scopes && w.scopes[s].turn.Busy?
    {
    }

    lemma LeaseOwners(w: World)
      requires Inv(w)
      ensures forall l :: l in w.leases ==> w.leases[l].owner in w.scopes
    {
      hide TreeOk, ScopesOk, LeaseOk;
      forall l | l in w.leases ensures w.leases[l].owner in w.scopes {
        assert LeaseRow(w, l);
      }
    }

    /** `#checkLease`, for a lease that is live. */
    method CheckLease(s: ScopeId, lease: LeaseId) returns (ok: bool)
      requires Valid() && IsOpen(View(), s) && IsLive(View(), lease)
      ensures ok == Usable(View(), s, lease)
    {
      hide Inv, Within;
      var owner := leases[lease].owner;
      if scopes[owner].aborted {
        if scopes[s].owner.None? || scopes[owner].phase.Closed? { return false; }
        OwnerIsThere(View(), s);
        var readable := IsWithin(scopes[s].owner.value, owner);
        if !readable { return false; }
      }
      ok := IsWithin(s, owner);
    }
  }
}
