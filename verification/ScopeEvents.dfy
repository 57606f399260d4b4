/** What the events of a run have made of a scope: who was cancelled, whose finalizers run and with
    what authority, and that closing goes on. */
module ScopeEvents {
  import opened ScopeProtocol
  import opened ScopeRuns

  /* ---------- the tree, by chains of parents ---------- */

  /** A way up from `s` to `top`, parent by parent. */
  ghost predicate Chain(scopes: map<ScopeId, Scope>, way: seq<ScopeId>, s: ScopeId, top: ScopeId) {
    && way != [] && way[0] == s && way[|way| - 1] == top
    && forall i :: 0 <= i < |way| - 1 ==> way[i] in scopes && scopes[way[i]].parent == Some(way[i + 1])
  }

  /** No scope on the way serves a finalizer of the one above it. */
  ghost predicate Unmasked(scopes: map<ScopeId, Scope>, way: seq<ScopeId>) {
    forall i :: 0 <= i < |way| - 1 ==> way[i] in scopes && scopes[way[i]].owner != Some(way[i + 1])
  }

  lemma ChainTail(scopes: map<ScopeId, Scope>, way: seq<ScopeId>, s: ScopeId, top: ScopeId)
    requires Chain(scopes, way, s, top) && |way| > 1
    ensures s in scopes && scopes[s].parent.Some? && Chain(scopes, way[1..], scopes[s].parent.value, top)
    ensures Unmasked(scopes, way) ==> Unmasked(scopes, way[1..]) && scopes[s].owner != scopes[s].parent
  {
    var rest := way[1..];
    assert forall i :: 0 <= i < |rest| ==> rest[i] == way[i + 1];
    assert way[0] == s && scopes[way[0]].parent == Some(way[1]);
  }

  lemma ChainMore(scopes: map<ScopeId, Scope>, way: seq<ScopeId>, s: ScopeId, p: ScopeId, top: ScopeId)
    requires s in scopes && scopes[s].parent == Some(p) && Chain(scopes, way, p, top)
    ensures Chain(scopes, [s] + way, s, top)
    ensures Unmasked(scopes, way) && scopes[s].owner != Some(p) ==> Unmasked(scopes, [s] + way)
  {
  }

  /** A scope is within another exactly when parents lead up to it. */
  lemma {:induction false} WithinIsByParents(scopes: map<ScopeId, Scope>, s: ScopeId, top: ScopeId)
    requires ParentsOk(scopes)
    ensures Within(scopes, s, top) <==> exists way :: Chain(scopes, way, s, top)
    decreases s
  {
    if s == top { assert Chain(scopes, [s], s, top); }
    if s in scopes && scopes[s].parent.Some? {
      var p := scopes[s].parent.value;
      WithinIsByParents(scopes, p, top);
      if Within(scopes, p, top) {
        var way :| Chain(scopes, way, p, top);
        ChainMore(scopes, way, s, p, top);
      }
    }
    if exists way :: Chain(scopes, way, s, top) {
      var way :| Chain(scopes, way, s, top);
      if |way| > 1 { ChainTail(scopes, way, s, top); }
    }
  }

  /** A cancellation comes down exactly the ways on which no scope serves a finalizer of its parent. */
  lemma {:induction false} CancellationComesDown(scopes: map<ScopeId, Scope>, s: ScopeId, top: ScopeId)
    requires ParentsOk(scopes)
    ensures CancelReaches(scopes, top, s) <==> exists way :: Chain(scopes, way, s, top) && Unmasked(scopes, way)
    decreases s
  {
    if s == top { assert Chain(scopes, [s], s, top) && Unmasked(scopes, [s]); }
    if s in scopes && scopes[s].parent.Some? {
      var p := scopes[s].parent.value;
      CancellationComesDown(scopes, p, top);
      if CancelReaches(scopes, top, p) {
        var way :| Chain(scopes, way, p, top) && Unmasked(scopes, way);
        ChainMore(scopes, way, s, p, top);
      }
    }
    if exists way :: Chain(scopes, way, s, top) && Unmasked(scopes, way) {
      var way :| Chain(scopes, way, s, top) && Unmasked(scopes, way);
      if |way| > 1 { ChainTail(scopes, way, s, top); }
    }
  }

  /* ---------- what the events have done ---------- */

  datatype Effect = Trapped | Cancelled | ClosedIt

  /** A trap at a scope reaches it and all that stands below it. */
  ghost predicate TrapHits(w: World, e: Event, s: ScopeId)
    requires s in w.scopes
  {
    e.Trapping? && (s == e.scope || (!w.scopes[s].phase.Closed? && Within(w.scopes, s, e.scope)))
  }

  /** A cancellation, or a first close, comes down to the scope; so does a trap. */
  ghost predicate CancelHits(w: World, e: Event, s: ScopeId)
    requires s in w.scopes
  {
    || (e.Cancelling? && CancelReaches(w.scopes, e.scope, s))
    || (e.Closing? && e.scope in w.scopes && w.scopes[e.scope].phase.Open? && CancelReaches(w.scopes, e.scope, s))
    || TrapHits(w, e, s)
  }

  ghost predicate Hits(effect: Effect, w: World, e: Event, s: ScopeId)
    requires s in w.scopes
  {
    match effect
    case Trapped => TrapHits(w, e, s)
    case Cancelled => CancelHits(w, e, s)
    case ClosedIt => e == Closing(s)
  }

  /** At some point of the run an event had this effect on the scope, which was there. */
  ghost predicate Ever(events: seq<Event>, s: ScopeId, effect: Effect) {
    exists k :: 0 <= k < |events| && s in Run(EMPTY, events[..k]).scopes && Hits(effect, Run(EMPTY, events[..k]), events[k], s)
  }

  lemma EverNext(events: seq<Event>, e: Event, s: ScopeId, effect: Effect)
    ensures Ever(events + [e], s, effect) <==>
            Ever(events, s, effect) || (s in Run(EMPTY, events).scopes && Hits(effect, Run(EMPTY, events), e, s))
  {
    hide Run;
    var all := events + [e];
    assert all[..|events|] == events && all[|events|] == e;
    forall k | 0 <= k < |events| ensures all[..k] == events[..k] && all[k] == events[k] {
    }
  }

  lemma {:induction false} NeverBefore(events: seq<Event>, s: ScopeId, effect: Effect)
    requires s !in Run(EMPTY, events).scopes
    ensures !Ever(events, s, effect)
  {
    hide Step;
    if events != [] {
      var before, e := events[..|events| - 1], events[|events| - 1];
      assert events == before + [e];
      ScopesStay(Run(EMPTY, before), e);
      NeverBefore(before, s, effect);
      EverNext(before, e, s, effect);
    }
  }

  lemma ScopesStay(w: World, e: Event)
    ensures w.scopes.Keys <= Step(w, e).scopes.Keys
  {
    hide CancelReaches, TrapReaches, Less, CanDrain, FinalizerSettled;
  }

  /** What one event makes of the flags of a scope that is there already. */
  ghost predicate FlagsMove(w: World, e: Event, s: ScopeId)
    requires s in w.scopes
  {
    s in Step(w, e).scopes &&
    var a, b := w.scopes[s], Step(w, e).scopes[s];
    && (b.guest <==> a.guest && !TrapHits(w, e, s))
    && (b.aborted <==> a.aborted || CancelHits(w, e, s))
    && (b.phase.Open? <==> a.phase.Open? && e != Closing(s))
  }

  lemma SameFlags(w: World, e: Event, s: ScopeId)
    requires s in w.scopes && !e.Cancelling? && !e.Trapping? && !e.Closing? && Inv(w)
    ensures FlagsMove(w, e, s)
  {
    hide CancelReaches, Within, Less, Inv;
    FreshScope(w);
    if e.Resuming? || e.DrainingDone? || e.Settling? {
      if e.scope in w.scopes { NotOpen(w, e.scope); }
      SameClosing(w, e, s);
    }
  }

  lemma SameClosing(w: World, e: Event, s: ScopeId)
    requires s in w.scopes && (e.Resuming? || e.DrainingDone? || e.Settling?) && w.next !in w.scopes
    requires CanDrain(w, e.scope) || FinalizerSettled(w, e.scope) || (e.scope in w.scopes && w.scopes[e.scope].turn.Drained?) ==>
               !w.scopes[e.scope].phase.Open?
    ensures FlagsMove(w, e, s)
  {
    hide CancelReaches, Within, Less, AllFinished;
  }

  lemma NotOpen(w: World, s: ScopeId)
    requires Inv(w) && s in w.scopes
    ensures CanDrain(w, s) || FinalizerSettled(w, s) || w.scopes[s].turn.Drained? ==> !w.scopes[s].phase.Open?
  {
    hide LeasesOk, TreeOk, OrderOk;
    At(w, s);
  }

  lemma CloseReaches(w: World, s: ScopeId, top: ScopeId, scope: Scope)
    requires top in w.scopes && scope.parent == w.scopes[top].parent && scope.owner == w.scopes[top].owner
    ensures CancelReaches(w.scopes[top := scope], top, s) <==> CancelReaches(w.scopes, top, s)
    decreases s
  {
  }

  lemma FlagsStep(w: World, e: Event, s: ScopeId)
    requires Inv(w) && s in w.scopes
    ensures FlagsMove(w, e, s)
  {
    hide CancelReaches, Within, Inv;
    match e
    case Cancelling(top) =>
    case Trapping(top) =>
    case Closing(top) =>
      OpenIsIdle(w);
      if top in w.scopes {
        At(w, top);
        IdleIsOpen(w.scopes[top], w.next);
        CloseReaches(w, s, top, w.scopes[top].(phase := Draining, turn := Waiting));
      }
    case _ => SameFlags(w, e, s);
  }

  lemma IdleIsOpen(scope: Scope, next: nat)
    requires ScopeOk(scope, next)
    ensures scope.turn.Idle? <==> scope.phase.Open?
  {
  }

  lemma BornOpen(w: World, e: Event, s: ScopeId)
    requires Inv(w) && s !in w.scopes && s in Step(w, e).scopes
    ensures s == w.next && Step(w, e).scopes[s].guest && !Step(w, e).scopes[s].aborted && Step(w, e).scopes[s].phase.Open?
  {
    hide Inv, CancelReaches, TrapReaches, Less;
  }

  /** A scope's flags are what the run did to it: its finalizers are armed until a trap reaches it, it
      is cancelled exactly when a cancellation, a close or a trap has come down to it, and it is open
      until it is closed itself. */
  lemma {:induction false} FlagsAreTheEvents(events: seq<Event>, s: ScopeId)
    requires s in Run(EMPTY, events).scopes
    ensures var scope := Run(EMPTY, events).scopes[s];
            && (scope.guest <==> !Ever(events, s, Trapped))
            && (scope.aborted <==> Ever(events, s, Cancelled))
            && (scope.phase.Open? <==> !Ever(events, s, ClosedIt))
  {
    hide Step, Inv, TrapHits, CancelHits, Ever;
    if events != [] {
      var before, e := events[..|events| - 1], events[|events| - 1];
      var w := Run(EMPTY, before);
      assert events == before + [e];
      RunKeeps(before);
      EverNext(before, e, s, Trapped);
      EverNext(before, e, s, Cancelled);
      EverNext(before, e, s, ClosedIt);
      if s in w.scopes {
        FlagsAreTheEvents(before, s);
        FlagsStep(w, e, s);
      } else {
        NeverBefore(before, s, Trapped);
        NeverBefore(before, s, Cancelled);
        NeverBefore(before, s, ClosedIt);
        BornOpen(w, e, s);
      }
    }
  }

  /* ---------- finalizers ---------- */

  /** The youngest cleanup of a drained scope is this one. */
  predicate IsNext(w: World, s: ScopeId, e: Entry) {
    s in w.scopes && w.scopes[s].turn.Drained? && w.scopes[s].cleanups != [] && w.scopes[s].cleanups[|w.scopes[s].cleanups| - 1] == e
  }

  lemma ExitOpens(w: World, s: ScopeId, x: nat)
    requires Inv(w) && IsNext(w, s, ExitEntry(x))
    ensures var t := Step(w, Resuming(s));
            && s in t.scopes && t.scopes[s].turn == Busy(ExitEntry(x)) && t.scopes[s].ran == w.scopes[s].ran + [ExitEntry(x)]
            && t.scopes[s].cleanups == Less(w.scopes[s].cleanups, ExitEntry(x))
            && w.scopes[s].children == {} && w.next !in w.scopes
            && (if w.scopes[s].guest then
                  t.scopes.Keys == w.scopes.Keys + {w.next} && t.scopes[s].children == {w.next} && t.scopes[w.next] == NewScope(Some(s), Some(s))
                else t.scopes.Keys == w.scopes.Keys && t.scopes[s].children == {})
            && (forall c :: c in w.scopes && c != s ==> t.scopes[c] == w.scopes[c])
            && t.leases == w.leases
  {
    hide LeasesOk, TreeOk, OrderOk, Less;
    At(w, s);
    ExitResumes(w, s, x);
  }

  /** Over any run: when a closing scope comes to an exit finalizer, the finalizer gets a new open scope
      of its own, below the closing one and masked from its cancellation, unless a trap has reached the
      closing scope; then it is passed over. */
  lemma FinalizersGetTheirScope(events: seq<Event>, s: ScopeId, x: nat)
    requires IsNext(Run(EMPTY, events), s, ExitEntry(x))
    ensures var w, t := Run(EMPTY, events), Run(EMPTY, events + [Resuming(s)]);
            && t.scopes[s].ran == w.scopes[s].ran + [ExitEntry(x)] && ExitEntry(x) !in t.scopes[s].cleanups
            && if Ever(events, s, Trapped) then t.scopes.Keys == w.scopes.Keys && t.scopes[s].children == {}
               else exists c ::
                 && c !in w.scopes && t.scopes.Keys == w.scopes.Keys + {c} && t.scopes[s].children == {c}
                 && t.scopes[c].parent == Some(s) && t.scopes[c].owner == Some(s)
                 && IsOpen(t, c) && t.scopes[c].guest && t.scopes[c].cleanups == []
  {
    hide Inv, Step, Ever, Less;
    RunKeeps(events);
    FlagsAreTheEvents(events, s);
    RunSnoc(EMPTY, events, Resuming(s));
    ExitOpens(Run(EMPTY, events), s, x);
  }

  /** A finalizer ends exactly when it may: an exit finalizer once every scope below its closing scope
      is closed, a lease's once the disposal has ended. Until then nothing goes on. */
  lemma FinalizersAreWaitedFor(events: seq<Event>, s: ScopeId)
    requires var w := Run(EMPTY, events); s in w.scopes && w.scopes[s].turn.Busy?
    ensures var w, t := Run(EMPTY, events), Run(EMPTY, events + [Settling(s)]);
            var over := match w.scopes[s].turn.entry
                        case LeaseEntry(l) => l in w.finished
                        case ExitEntry(_) => forall c :: c in w.scopes && w.scopes[c].parent == Some(s) ==> w.scopes[c].phase.Closed?;
            if over then s in t.scopes && t.scopes[s].turn.Emptying? else t == w
  {
    hide Inv, LeasesOk, OrderOk;
    var w := Run(EMPTY, events);
    RunKeeps(events);
    RunSnoc(EMPTY, events, Settling(s));
    ChildrenAreUnclosed(w, s);
  }

  lemma ChildrenAreUnclosed(w: World, s: ScopeId)
    requires Inv(w) && s in w.scopes
    ensures w.scopes[s].children == {} <==> forall c :: c in w.scopes && w.scopes[c].parent == Some(s) ==> w.scopes[c].phase.Closed?
  {
    hide LeasesOk, ScopesOk, ParentsOk, Below;
    NoneUnclosed(w.scopes, s);
  }

  lemma NoneUnclosed(scopes: map<ScopeId, Scope>, s: ScopeId)
    requires ParentsOk(scopes) && s in scopes
    ensures scopes[s].children == {} <==> forall c :: c in scopes && scopes[c].parent == Some(s) ==> scopes[c].phase.Closed?
  {
    if scopes[s].children != {} {
      var c :| c in scopes[s].children;
      assert scopes[c].parent == Some(s) && !scopes[c].phase.Closed?;
    }
  }

  /* ---------- every finalizer is run ---------- */

  /** The entry waits or has run. */
  ghost predicate Kept(w: World, s: ScopeId, x: nat) {
    s in w.scopes && (ExitEntry(x) in w.scopes[s].cleanups || ExitEntry(x) in w.scopes[s].ran)
  }

  lemma KeptOn(w: World, e: Event, s: ScopeId, x: nat)
    requires Kept(w, s, x) && Inv(w)
    ensures Kept(Step(w, e), s, x)
  {
    hide CancelReaches, TrapReaches, CanDrain, FinalizerSettled, Inv, Less;
    FreshScope(w);
    assert ExitEntry(x) in w.scopes[s].cleanups ==>
      forall l: LeaseId :: ExitEntry(x) in Less(w.scopes[s].cleanups, LeaseEntry(l));
  }

  lemma FreshScope(w: World)
    requires Inv(w)
    ensures w.next !in w.scopes
  {
    hide LeasesOk, TreeOk, ScopesOk;
  }

  lemma {:induction false} KeptThrough(w: World, events: seq<Event>, s: ScopeId, x: nat)
    requires Kept(w, s, x) && Inv(w)
    ensures Kept(Run(w, events), s, x)
    decreases |events|
  {
    hide Inv, Step, Kept;
    if events != [] {
      KeptThrough(w, events[..|events| - 1], s, x);
      InvFrom(w, events[..|events| - 1]);
      KeptOn(Run(w, events[..|events| - 1]), events[|events| - 1], s, x);
    }
  }

  /** No finalizer is forgotten: every one that a run registered with a scope still waits or has had its
      turn, and by the time the scope is closed each has had it, exactly once. */
  lemma EveryFinalizerHasItsTurn(events: seq<Event>, k: nat, s: ScopeId)
    requires k < |events| && events[k] == Registering(s) && IsOpen(Run(EMPTY, events[..k]), s)
    ensures var w, e := Run(EMPTY, events), ExitEntry(Run(EMPTY, events[..k]).next);
            && s in w.scopes && (e in w.scopes[s].cleanups || e in w.scopes[s].ran)
            && (w.scopes[s].phase.Closed? ==> e in w.scopes[s].ran)
            && (forall i, j :: 0 <= i < j < |w.scopes[s].ran| && w.scopes[s].ran[i] == e ==> w.scopes[s].ran[j] != e)
  {
    hide Inv, Run, Step;
    var before, rest := events[..k + 1], events[k + 1..];
    assert before == events[..k] + [events[k]] && before + rest == events;
    RunKeeps(events[..k]);
    RunKeeps(events);
    RunKeeps(before);
    RunSnoc(EMPTY, events[..k], Registering(s));
    RegisteredIsKept(Run(EMPTY, events[..k]), s);
    KeptThrough(Run(EMPTY, before), rest, s, Run(EMPTY, events[..k]).next);
    RunSplit(EMPTY, before, rest);
    RanOnce(Run(EMPTY, events), s);
  }

  lemma RegisteredIsKept(w: World, s: ScopeId)
    requires IsOpen(w, s)
    ensures Kept(Step(w, Registering(s)), s, w.next)
  {
  }

  lemma RanOnce(w: World, s: ScopeId)
    requires Inv(w)
    ensures s in w.scopes ==> forall i, j :: 0 <= i < j < |w.scopes[s].ran| ==> w.scopes[s].ran[i] != w.scopes[s].ran[j]
    ensures s in w.scopes && w.scopes[s].phase.Closed? ==> w.scopes[s].cleanups == []
  {
    hide LeasesOk, TreeOk;
    if s in w.scopes { At(w, s); }
  }

  /* ---------- closing goes on ---------- */

  /** What a closing scope does next. */
  function Continuation(s: ScopeId, turn: Turn): Event {
    match turn
    case Drained => Resuming(s)
    case Busy(_) => Settling(s)
    case _ => DrainingDone(s)
  }

  /** The steps that a closing scope has left. */
  function StepsLeft(scope: Scope): nat {
    3 * |scope.cleanups| + match scope.turn
                           case Idle => 3
                           case Waiting => 2
                           case Busy(_) => 3
                           case Emptying => 2
                           case Drained => 1
                           case Done => 0
  }

  /** Nothing that the scope waits for is left: below it all is closed, its acquisitions and the
      disposals of its leases have ended. */
  ghost predicate WaitsForNothing(w: World, s: ScopeId)
    requires s in w.scopes
  {
    && (forall c :: c in w.scopes && w.scopes[c].parent == Some(s) ==> w.scopes[c].phase.Closed?)
    && w.scopes[s].acquiring == 0
    && forall l :: l in w.leases && w.leases[l].owner == s && l in w.disposals ==> l in w.finished
  }

  lemma {:induction false} LessIsShorter(cleanups: seq<Entry>, e: Entry)
    ensures |Less(cleanups, e)| <= |cleanups| && (e in cleanups ==> |Less(cleanups, e)| < |cleanups|)
  {
    if cleanups != [] {
      assert cleanups == [cleanups[0]] + cleanups[1..];
      LessIsShorter(cleanups[1..], e);
    }
  }

  /** Closing never hangs by itself: while nothing that a closing scope waits for is outstanding, its own
      next step is possible and brings it nearer to its end, one step of a number known in advance. */
  lemma ClosingGoesOn(events: seq<Event>, s: ScopeId)
    requires var w := Run(EMPTY, events);
             s in w.scopes && !w.scopes[s].phase.Open? && !w.scopes[s].phase.Closed? && WaitsForNothing(w, s)
    ensures var w := Run(EMPTY, events);
            var t := Run(EMPTY, events + [Continuation(s, w.scopes[s].turn)]);
            s in t.scopes && StepsLeft(t.scopes[s]) < StepsLeft(w.scopes[s])
  {
    hide Inv, Step, StepsLeft, Run, WaitsForNothing;
    var w := Run(EMPTY, events);
    RunKeeps(events);
    RunBusy(events, s);
    RunSnoc(EMPTY, events, Continuation(s, w.scopes[s].turn));
    TurnMoves(w, s);
  }

  lemma TurnMoves(w: World, s: ScopeId)
    requires Inv(w) && s in w.scopes && !w.scopes[s].phase.Open? && !w.scopes[s].phase.Closed? && WaitsForNothing(w, s) && BusyOwn(w, s)
    ensures var t := Step(w, Continuation(s, w.scopes[s].turn));
            s in t.scopes && StepsLeft(t.scopes[s]) < StepsLeft(w.scopes[s])
  {
    hide Inv, Less, OpenChild;
    At(w, s);
    Turns(w.scopes[s], w.next);
    ChildrenAreUnclosed(w, s);
    ReleasesEnded(w, s);
    var scope := w.scopes[s];
    if scope.turn.Drained? && scope.cleanups != [] {
      var e := scope.cleanups[|scope.cleanups| - 1];
      LessIsShorter(scope.cleanups, e);
      match e
      case LeaseEntry(l) => ListedLease(w, s, l); LeaseResumes(w, s, l);
      case ExitEntry(x) => ExitOpens(w, s, x);
    } else if scope.turn.Drained? {
      LastTurn(w, s);
    }
  }

  lemma LastTurn(w: World, s: ScopeId)
    requires Inv(w) && s in w.scopes && w.scopes[s].turn.Drained? && w.scopes[s].cleanups == []
    ensures s in Resume(w, s).scopes && Resume(w, s).scopes[s].turn.Done? && Resume(w, s).scopes[s].cleanups == []
  {
    hide LeasesOk, ScopesOk;
  }

  lemma ListedLease(w: World, s: ScopeId, l: LeaseId)
    requires Inv(w) && s in w.scopes && LeaseEntry(l) in w.scopes[s].cleanups
    ensures l in w.leases && w.leases[l].owner == s
  {
    hide TreeOk, ScopesOk;
    ListedIsLive(w, s, l);
  }

  lemma ReleasesEnded(w: World, s: ScopeId)
    requires Inv(w) && s in w.scopes && WaitsForNothing(w, s)
    ensures AllFinished(w, w.scopes[s].releases)
  {
    hide TreeOk;
    assert OwnLeases(w.scopes[s], s, w.leases);
    forall l | l in w.scopes[s].releases ensures l in w.finished {
      assert LeaseRow(w, l);
    }
  }

  /** A scope that waits for a lease waits for the disposal of a lease of its own. */
  ghost predicate BusyOwn(w: World, s: ScopeId) {
    s in w.scopes && w.scopes[s].turn.Busy? && w.scopes[s].turn.entry.LeaseEntry? ==>
      var l := w.scopes[s].turn.entry.id; l in w.leases && w.leases[l].owner == s && l in w.disposals
  }

  lemma StepBusy(w: World, e: Event, s: ScopeId)
    requires Inv(w) && BusyOwn(w, s)
    ensures BusyOwn(Step(w, e), s)
  {
    hide Inv, CancelReaches, TrapReaches, Less, CanDrain, FinalizerSettled;
    FreshLease(w);
    FreshScope(w);
    if e == Resuming(s) && s in w.scopes { CleanupsAreOwn(w, s); }
  }

  lemma {:induction false} RunBusy(events: seq<Event>, s: ScopeId)
    ensures BusyOwn(Run(EMPTY, events), s)
  {
    hide Inv, Step, BusyOwn;
    if events == [] {
      NothingBusy(s);
    } else {
      RunBusy(events[..|events| - 1], s);
      RunKeeps(events[..|events| - 1]);
      StepBusy(Run(EMPTY, events[..|events| - 1]), events[|events| - 1], s);
    }
  }

  lemma NothingBusy(s: ScopeId)
    ensures BusyOwn(EMPTY, s)
  {
  }

  lemma Turns(scope: Scope, next: nat)
    requires ScopeOk(scope, next) && !scope.phase.Open? && !scope.phase.Closed?
    ensures !scope.turn.Idle? && !scope.turn.Done?
  {
    hide OrderOk, EntriesBelow;
  }

  /* ---------- authority ---------- */

  /** Parents lead from `s` up to `top`. */
  ghost predicate Under(w: World, s: ScopeId, top: ScopeId) {
    exists way :: Chain(w.scopes, way, s, top)
  }

  /** Who may use a lease, over any run: a scope that was neither cancelled nor closed, at or below the
      lease's own, while the lease's token is there; and the lease's scope was not cancelled either,
      unless the user serves a finalizer at or below it and it is not closed yet. */
  lemma AuthorityIs(events: seq<Event>, s: ScopeId, l: LeaseId)
    ensures var w := Run(EMPTY, events);
            Usable(w, s, l) <==>
            && s in w.scopes && !Ever(events, s, Cancelled) && !Ever(events, s, ClosedIt)
            && l in w.tokens && l in w.leases && Under(w, s, w.leases[l].owner)
            && var o := w.leases[l].owner;
               o in w.scopes && (!Ever(events, o, Cancelled)
                                 || (w.scopes[s].owner.Some? && Under(w, w.scopes[s].owner.value, o) && !w.scopes[o].phase.Closed?))
  {
    hide Run, Ever, ScopesOk, Within;
    var w := Run(EMPTY, events);
    RunKeeps(events);
    if s in w.scopes {
      FlagsAreTheEvents(events, s);
      TablesAgree(events, s, l);
      if l in w.leases && w.leases[l].owner in w.scopes {
        FlagsAreTheEvents(events, w.leases[l].owner);
        WithinIsByParents(w.scopes, s, w.leases[l].owner);
        if w.scopes[s].owner.Some? { WithinIsByParents(w.scopes, w.scopes[s].owner.value, w.leases[l].owner); }
      }
    }
  }

  /** A finalizer can still use every live lease of its closing scope and of all scopes above, although
      the closing has cancelled them. */
  lemma FinalizersKeepAuthority(events: seq<Event>, s: ScopeId, x: nat, l: LeaseId)
    requires var w := Run(EMPTY, events); IsNext(w, s, ExitEntry(x)) && IsLive(w, l) && Under(w, s, w.leases[l].owner)
    requires !Ever(events, s, Trapped)
    ensures var t := Run(EMPTY, events + [Resuming(s)]);
            exists c :: t.scopes[s].children == {c} && c in t.scopes && t.scopes[c].owner == Some(s) && Usable(t, c, l)
  {
    hide Run, Ever, Inv, Step;
    var w := Run(EMPTY, events);
    RunKeeps(events);
    FlagsAreTheEvents(events, s);
    RunSnoc(EMPTY, events, Resuming(s));
    ExitOpens(w, s, x);
    MaskedUses(w, s, x, l);
  }

  lemma MaskedUses(w: World, s: ScopeId, x: nat, l: LeaseId)
    requires Inv(w) && IsNext(w, s, ExitEntry(x)) && IsLive(w, l) && Under(w, s, w.leases[l].owner) && w.scopes[s].guest
    ensures Usable(Step(w, Resuming(s)), w.next, l)
  {
    hide Inv, Step, Chain;
    var t, o := Step(w, Resuming(s)), w.leases[l].owner;
    ExitOpens(w, s, x);
    StepKeeps(w, Resuming(s));
    SameParents(w, t, s, x);
    UnderIsWithin(w, s, o);
    StillWithin(w, t, s, o);
    Older(w, s);
    StandsAbove(w, s, o);
  }

  lemma SameParents(w: World, t: World, s: ScopeId, x: nat)
    requires Inv(w) && IsNext(w, s, ExitEntry(x)) && t == Step(w, Resuming(s))
    ensures forall c :: c in w.scopes ==> c in t.scopes && t.scopes[c].parent == w.scopes[c].parent
    ensures forall c :: c in w.scopes && c != s ==> t.scopes[c] == w.scopes[c]
    ensures s in t.scopes && !t.scopes[s].phase.Closed?
  {
    hide Inv, Less;
    ExitOpens(w, s, x);
    ExitResumes(w, s, x);
  }

  lemma UnderIsWithin(w: World, s: ScopeId, top: ScopeId)
    requires Inv(w) && Under(w, s, top)
    ensures Within(w.scopes, s, top)
  {
    hide LeasesOk, ScopesOk;
    WithinIsByParents(w.scopes, s, top);
  }

  lemma {:induction false} StillWithin(w: World, t: World, s: ScopeId, top: ScopeId)
    requires Within(w.scopes, s, top)
    requires forall c :: c in w.scopes ==> c in t.scopes && t.scopes[c].parent == w.scopes[c].parent
    ensures Within(t.scopes, s, top)
    decreases s
  {
    if s != top { StillWithin(w, t, w.scopes[s].parent.value, top); }
  }

  lemma Older(w: World, s: ScopeId)
    requires Inv(w) && s in w.scopes
    ensures s < w.next
  {
    hide LeasesOk, ScopesOk, TreeOk;
  }

  /** What stands above a scope that is not closed is not closed. */
  lemma StandsAbove(w: World, s: ScopeId, top: ScopeId)
    requires Inv(w) && s in w.scopes && top in w.scopes && w.scopes[s].turn.Drained? && Within(w.scopes, s, top)
    ensures !w.scopes[top].phase.Closed?
  {
    hide LeasesOk, TreeOk, OrderOk;
    At(w, s);
    if w.scopes[top].phase.Closed? { SubtreeClosed(w, s, top); }
  }

  /** A scope's place never changes: it is a root, or was opened below an open scope, whose finalizer it
      then also serves if that one serves any, or is the scope of a finalizer itself. */
  lemma PlacesAreForLife(events: seq<Event>, e: Event, c: ScopeId)
    requires c in Run(EMPTY, events + [e]).scopes
    ensures var w, t := Run(EMPTY, events), Run(EMPTY, events + [e]);
            var scope := t.scopes[c];
            || (c in w.scopes && scope.parent == w.scopes[c].parent && scope.owner == w.scopes[c].owner)
            || (c !in w.scopes && e.Rooting? && scope.parent == None && scope.owner == None)
            || (c !in w.scopes && e.Nesting? && IsOpen(w, e.parent) && scope.parent == Some(e.parent) && scope.owner == w.scopes[e.parent].owner)
            || (c !in w.scopes && e.Resuming? && e.scope in w.scopes && scope.parent == Some(e.scope) && scope.owner == Some(e.scope))
  {
    hide Inv, Run, CancelReaches, TrapReaches, Less;
    RunKeeps(events);
    RunSnoc(EMPTY, events, e);
    FreshScope(Run(EMPTY, events));
  }

  /* ---------- leases and acquisitions ---------- */

  /** The event grants a lease to this open scope. */
  predicate Grants(w: World, e: Event, s: ScopeId) {
    IsOpen(w, s) && (e == Granting(s) || (e == Acquired(s, true) && w.scopes[s].acquiring > 0))
  }

  lemma GrantStep(w: World, e: Event, l: LeaseId)
    requires Inv(w)
    ensures var t := Step(w, e);
            && (forall s :: Grants(w, e, s) ==> w.next !in w.leases && w.next in t.leases && t.leases[w.next] == Lease(s, true))
            && (l in w.leases ==> l in t.leases && t.leases[l].owner == w.leases[l].owner)
            && (l in t.leases && l !in w.leases ==> Grants(w, e, t.leases[l].owner) && l == w.next)
  {
    hide Inv, CancelReaches, TrapReaches, Less;
    FreshLease(w);
  }

  lemma LiveStep(w: World, e: Event, l: LeaseId)
    requires Inv(w) && l in w.leases
    ensures var t := Step(w, e);
            l in t.leases && (t.leases[l].live <==>
              w.leases[l].live && e != Releasing(l) && !(exists s :: e == Resuming(s) && IsNext(w, s, LeaseEntry(l))))
  {
    hide Inv, CancelReaches, TrapReaches, Less;
    FreshLease(w);
    if w.leases[l].live { OwnerLives(w, l); }
    if e.Resuming? && IsNext(w, e.scope, LeaseEntry(l)) { ListedLease(w, e.scope, l); }
  }

  lemma OwnerLives(w: World, l: LeaseId)
    requires Inv(w) && l in w.leases
    ensures w.leases[l].owner in w.scopes
  {
    hide TreeOk, ScopesOk;
    assert LeaseRow(w, l);
  }

  /** A lease's life, over any run: it begins with a grant to an open scope, to which it belongs ever
      after, and ends with its release, or when its scope's closing comes to it. */
  lemma LeasesAreForLife(events: seq<Event>, e: Event, l: LeaseId)
    requires l in Run(EMPTY, events + [e]).leases
    ensures var w, t := Run(EMPTY, events), Run(EMPTY, events + [e]);
            if l in w.leases then
              && t.leases[l].owner == w.leases[l].owner
              && (t.leases[l].live <==>
                    w.leases[l].live && e != Releasing(l) && !(exists s :: e == Resuming(s) && IsNext(w, s, LeaseEntry(l))))
            else Grants(w, e, t.leases[l].owner) && t.leases[l].live
  {
    hide Run, Inv, Step, IsNext, Grants;
    RunKeeps(events);
    RunSnoc(EMPTY, events, e);
    GrantStep(Run(EMPTY, events), e, l);
    if l in Run(EMPTY, events).leases { LiveStep(Run(EMPTY, events), e, l); }
  }

  /** The acquisitions that the run has started in this scope and not ended. */
  function Outstanding(events: seq<Event>, s: ScopeId): int {
    if events == [] then 0
    else
      var before, e := events[..|events| - 1], events[|events| - 1];
      Outstanding(before, s)
      + (if e == Acquiring(s) && IsOpen(Run(EMPTY, before), s) then 1
         else if (e == Acquired(s, true) || e == Acquired(s, false)) && Outstanding(before, s) > 0 then -1 else 0)
  }

  lemma AcquiringStep(w: World, e: Event, s: ScopeId)
    requires Inv(w) && s in Step(w, e).scopes
    ensures Step(w, e).scopes[s].acquiring ==
            if s !in w.scopes then 0
            else if e == Acquiring(s) && IsOpen(w, s) then w.scopes[s].acquiring + 1
            else if (e == Acquired(s, true) || e == Acquired(s, false)) && w.scopes[s].acquiring > 0 then w.scopes[s].acquiring - 1
            else w.scopes[s].acquiring
  {
    hide Inv, CancelReaches, TrapReaches, Less;
    FreshScope(w);
  }

  /** The pending acquisitions of a scope are those started and not ended, so a scope that is past its
      first drain has seen the end of each. */
  lemma {:induction false} AcquisitionsAreCounted(events: seq<Event>, s: ScopeId)
    ensures var w := Run(EMPTY, events);
            && Outstanding(events, s) == (if s in w.scopes then w.scopes[s].acquiring else 0)
            && (s in w.scopes && Past(w.scopes[s]) ==> Outstanding(events, s) == 0)
  {
    hide Step, Inv;
    RunKeeps(events);
    if s in Run(EMPTY, events).scopes {
      At(Run(EMPTY, events), s);
      PastIsSettled(Run(EMPTY, events).scopes[s], Run(EMPTY, events).next);
    }
    if events != [] {
      var before, e := events[..|events| - 1], events[|events| - 1];
      AcquisitionsAreCounted(before, s);
      RunKeeps(before);
      ScopesStay(Run(EMPTY, before), e);
      if s in Run(EMPTY, events).scopes { AcquiringStep(Run(EMPTY, before), e, s); }
    }
  }

  lemma PastIsSettled(scope: Scope, next: nat)
    requires ScopeOk(scope, next)
    ensures Past(scope) ==> scope.acquiring == 0
  {
    hide OrderOk, EntriesBelow;
  }
}
