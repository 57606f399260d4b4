/** Host scopes as a state machine: a tree of lifetimes with leases and cleanups, whose closing
    proceeds from one wait to the next. */
module ScopeProtocol {
  type ScopeId = nat
  type LeaseId = nat

  datatype Option<+T> = None | Some(value: T)

  datatype Phase = Open | Draining | Finalizing | Closed

  /** An entry of the cleanup list, numbered in order of registration. */
  datatype Entry = LeaseEntry(id: LeaseId) | ExitEntry(id: nat)

  /** How far a closing scope has come: draining children, acquisitions and releases; past the drain
      and about to look at the cleanup list; inside a finalizer; draining after it; done. */
  datatype Turn = Idle | Waiting | Drained | Busy(entry: Entry) | Emptying | Done

  /** `owner` is the scope whose cleanup a masked scope serves. `releases` are the disposals that
      were begun and not yet waited for. `ran` records the entries that closing has run. */
  datatype Scope = Scope(
    parent: Option<ScopeId>, owner: Option<ScopeId>, phase: Phase, turn: Turn,
    children: set<ScopeId>, cleanups: seq<Entry>, releases: set<LeaseId>, acquiring: nat,
    aborted: bool, guest: bool, ran: seq<Entry>)

  datatype Lease = Lease(owner: ScopeId, live: bool)

  /** `tokens` is the registry's token table; `disposals` are the disposals in the order they were
      begun, and `finished` those that have ended. */
  datatype World = World(
    scopes: map<ScopeId, Scope>, leases: map<LeaseId, Lease>, tokens: set<LeaseId>,
    disposals: seq<LeaseId>, finished: set<LeaseId>, next: nat)

  const EMPTY: World := World(map[], map[], {}, [], {}, 0)

  function NewScope(parent: Option<ScopeId>, owner: Option<ScopeId>): Scope {
    Scope(parent, owner, Open, Idle, {}, [], {}, 0, false, true, [])
  }

  /** `assertOpen`. */
  predicate IsOpen(w: World, s: ScopeId) {
    s in w.scopes && w.scopes[s].phase.Open? && !w.scopes[s].aborted
  }

  /** `isWithin`; a parent is always older than its children. */
  predicate Within(scopes: map<ScopeId, Scope>, s: ScopeId, ancestor: ScopeId)
    decreases s
  {
    s == ancestor
    || (s in scopes && scopes[s].parent.Some? && scopes[s].parent.value < s && Within(scopes, scopes[s].parent.value, ancestor))
  }

  /** Cancelling `top` reaches this scope; masked cleanup scopes of a scope are spared. */
  predicate CancelReaches(scopes: map<ScopeId, Scope>, top: ScopeId, s: ScopeId)
    decreases s
  {
    s == top
    || (s in scopes && scopes[s].parent.Some? && scopes[s].parent.value < s && scopes[s].owner != scopes[s].parent
        && CancelReaches(scopes, top, scopes[s].parent.value))
  }

  function Cancel(w: World, s: ScopeId): World {
    w.(scopes := map x | x in w.scopes ::
                   if CancelReaches(w.scopes, s, x) then w.scopes[x].(aborted := true) else w.scopes[x])
  }

  /** A trap reaches everything below that is not closed yet, masked scopes included. */
  predicate TrapReaches(scopes: map<ScopeId, Scope>, top: ScopeId, s: ScopeId) {
    s == top || (s in scopes && !scopes[s].phase.Closed? && Within(scopes, s, top))
  }

  /** A trap skips the remaining guest finalizers of the subtree and cancels all of it. */
  function Trap(w: World, s: ScopeId): World {
    w.(scopes := map x | x in w.scopes ::
                   if TrapReaches(w.scopes, s, x) then w.scopes[x].(guest := false, aborted := true) else w.scopes[x])
  }

  function OpenRoot(w: World): World {
    w.(scopes := w.scopes[w.next := NewScope(None, None)], next := w.next + 1)
  }

  function OpenChild(w: World, parent: ScopeId, owner: Option<ScopeId>): World
    requires parent in w.scopes
  {
    w.(scopes := w.scopes[parent := w.scopes[parent].(children := w.scopes[parent].children + {w.next})][
                   w.next := NewScope(Some(parent), owner)],
       next := w.next + 1)
  }

  /** A lease is registered: token, owner and cleanup entry. */
  function Grant(w: World, s: ScopeId): World
    requires s in w.scopes
  {
    w.(scopes := w.scopes[s := w.scopes[s].(cleanups := w.scopes[s].cleanups + [LeaseEntry(w.next)])],
       leases := w.leases[w.next := Lease(s, true)], tokens := w.tokens + {w.next}, next := w.next + 1)
  }

  function OnExit(w: World, s: ScopeId): World
    requires s in w.scopes
  {
    w.(scopes := w.scopes[s := w.scopes[s].(cleanups := w.scopes[s].cleanups + [ExitEntry(w.next)])], next := w.next + 1)
  }

  /** The list without this entry. */
  function Less(cleanups: seq<Entry>, e: Entry): (r: seq<Entry>)
    ensures forall x {:trigger x in r} :: x in r <==> x in cleanups && x != e
    ensures e !in cleanups ==> r == cleanups
  {
    if cleanups == [] then []
    else
      assert cleanups == [cleanups[0]] + cleanups[1..];
      (if cleanups[0] == e then [] else [cleanups[0]]) + Less(cleanups[1..], e)
  }

  /** Begins the disposal of a live lease: it leaves all tables at once. */
  function BeginRelease(w: World, l: LeaseId): World
    requires l in w.leases && w.leases[l].owner in w.scopes
  {
    var s := w.leases[l].owner;
    w.(scopes := w.scopes[s := w.scopes[s].(
                   cleanups := Less(w.scopes[s].cleanups, LeaseEntry(l)), releases := w.scopes[s].releases + {l})],
       leases := w.leases[l := w.leases[l].(live := false)], tokens := w.tokens - {l}, disposals := w.disposals + [l])
  }

  /** A disposal ends; an open scope forgets it at once, a closing one when it drains. */
  function EndRelease(w: World, l: LeaseId): World
    requires l in w.leases && w.leases[l].owner in w.scopes
  {
    var s := w.leases[l].owner;
    var t := w.(finished := w.finished + {l});
    if w.scopes[s].phase.Open? then t.(scopes := w.scopes[s := w.scopes[s].(releases := w.scopes[s].releases - {l})]) else t
  }

  /** `close` up to its first wait; closing twice is closing once. */
  function BeginClose(w: World, s: ScopeId): World
    requires s in w.scopes
  {
    if !w.scopes[s].turn.Idle? then w
    else Cancel(w.(scopes := w.scopes[s := w.scopes[s].(phase := Draining, turn := Waiting)]), s)
  }

  predicate AllFinished(w: World, releases: set<LeaseId>) {
    releases <= w.finished
  }

  /** The children are closed, the acquisitions have ended and the releases are waited for. */
  predicate CanDrain(w: World, s: ScopeId) {
    && s in w.scopes && AllFinished(w, w.scopes[s].releases)
    && ((w.scopes[s].turn.Waiting? && w.scopes[s].children == {} && w.scopes[s].acquiring == 0) || w.scopes[s].turn.Emptying?)
  }

  function Drain(w: World, s: ScopeId): World
    requires s in w.scopes
  {
    w.(scopes := w.scopes[s := w.scopes[s].(releases := {}, turn := Drained)])
  }

  /** Past the drain: the youngest cleanup starts, or the scope is closed. */
  function Resume(w: World, s: ScopeId): World
    requires s in w.scopes
  {
    var scope := w.scopes[s];
    if scope.cleanups == [] then
      var t := w.(scopes := w.scopes[s := scope.(phase := Closed, turn := Done)]);
      if scope.parent.Some? && scope.parent.value in t.scopes then
        var p := scope.parent.value;
        t.(scopes := t.scopes[p := t.scopes[p].(children := t.scopes[p].children - {s})])
      else t
    else
      var e := scope.cleanups[|scope.cleanups| - 1];
      var t := w.(scopes := w.scopes[s := scope.(phase := Finalizing, turn := Busy(e), ran := scope.ran + [e])]);
      match e
      case LeaseEntry(l) => if l in t.leases && t.leases[l].owner in t.scopes then BeginRelease(t, l) else t
      case ExitEntry(_) =>
        var u := t.(scopes := t.scopes[s := t.scopes[s].(cleanups := Less(scope.cleanups, e))]);
        if scope.guest then OpenChild(u, s, Some(s)) else u
  }

  /** The finalizer has settled: a lease's disposal ended, or the masked scope is closed. */
  predicate FinalizerSettled(w: World, s: ScopeId) {
    && s in w.scopes && w.scopes[s].turn.Busy?
    && match w.scopes[s].turn.entry
       case LeaseEntry(l) => l in w.finished
       case ExitEntry(_) => w.scopes[s].children == {}
  }

  function EndFinalizer(w: World, s: ScopeId): World
    requires s in w.scopes && w.scopes[s].turn.Busy?
  {
    var e := w.scopes[s].turn.entry;
    w.(scopes := w.scopes[s := w.scopes[s].(
                   turn := Emptying, releases := if e.LeaseEntry? then w.scopes[s].releases - {e.id} else w.scopes[s].releases)])
  }

  datatype Event =
    | Rooting
    | Nesting(parent: ScopeId)
    | Granting(scope: ScopeId)
    | Registering(scope: ScopeId)
    | Acquiring(scope: ScopeId)
    | Acquired(scope: ScopeId, granted: bool)
    | Releasing(lease: LeaseId)
    | Released(lease: LeaseId)
    | Cancelling(scope: ScopeId)
    | Trapping(scope: ScopeId)
    | Closing(scope: ScopeId)
    | DrainingDone(scope: ScopeId)
    | Resuming(scope: ScopeId)
    | Settling(scope: ScopeId)

  function SetAcquiring(w: World, s: ScopeId, n: nat): World
    requires s in w.scopes
  {
    w.(scopes := w.scopes[s := w.scopes[s].(acquiring := n)])
  }

  predicate IsLive(w: World, l: LeaseId) {
    l in w.leases && w.leases[l].live && w.leases[l].owner in w.scopes
  }

  function Step(w: World, e: Event): World {
    match e
    case Rooting => OpenRoot(w)
    case Nesting(p) => if IsOpen(w, p) then OpenChild(w, p, w.scopes[p].owner) else w
    case Granting(s) => if IsOpen(w, s) then Grant(w, s) else w
    case Registering(s) => if IsOpen(w, s) then OnExit(w, s) else w
    case Acquiring(s) => if IsOpen(w, s) then SetAcquiring(w, s, w.scopes[s].acquiring + 1) else w
    case Acquired(s, granted) =>
      if s !in w.scopes || w.scopes[s].acquiring == 0 then w
      else
        var t := SetAcquiring(w, s, w.scopes[s].acquiring - 1);
        if granted && IsOpen(w, s) then Grant(t, s) else t
    case Releasing(l) => if IsLive(w, l) then BeginRelease(w, l) else w
    case Released(l) => if l in w.leases && !w.leases[l].live && w.leases[l].owner in w.scopes then EndRelease(w, l) else w
    case Cancelling(s) => Cancel(w, s)
    case Trapping(s) => Trap(w, s)
    case Closing(s) => if s in w.scopes then BeginClose(w, s) else w
    case DrainingDone(s) => if CanDrain(w, s) then Drain(w, s) else w
    case Resuming(s) => if s in w.scopes && w.scopes[s].turn.Drained? then Resume(w, s) else w
    case Settling(s) => if FinalizerSettled(w, s) then EndFinalizer(w, s) else w
  }

  function Run(w: World, events: seq<Event>): World {
    if events == [] then w else Step(Run(w, events[..|events| - 1]), events[|events| - 1])
  }

  /* ---------- authority ---------- */

  /** `#checkLease`: the lease lives, its scope still stands, and it may be used here. A masked
      cleanup scope may use what its owner could, even after cancellation. */
  predicate Usable(w: World, s: ScopeId, l: LeaseId) {
    && IsOpen(w, s) && IsLive(w, l)
    && var owner := w.leases[l].owner;
       && Within(w.scopes, s, owner)
       && (!w.scopes[owner].aborted
           || (w.scopes[s].owner.Some? && Within(w.scopes, w.scopes[s].owner.value, owner) && !w.scopes[owner].phase.Closed?))
  }

  /** `lower` and `lift`, between a handle and its token. */
  function Lower(w: World, s: ScopeId, l: LeaseId): Option<LeaseId> {
    if Usable(w, s, l) then Some(l) else None
  }

  function Lift(w: World, s: ScopeId, token: LeaseId): Option<LeaseId> {
    if token in w.tokens && Usable(w, s, token) then Some(token) else None
  }

  /* ---------- the invariant ---------- */

  ghost predicate Ascending(entries: seq<Entry>) {
    forall i, j :: 0 <= i < j < |entries| ==> entries[i].id < entries[j].id
  }

  ghost predicate Descending(entries: seq<Entry>) {
    forall i, j :: 0 <= i < j < |entries| ==> entries[i].id > entries[j].id
  }

  /** Closing runs cleanups youngest first. */
  ghost predicate OrderOk(scope: Scope) {
    && Ascending(scope.cleanups) && Descending(scope.ran)
    && (forall e, f :: e in scope.cleanups && f in scope.ran ==> e.id < f.id)
    && (scope.turn.Idle? || scope.turn.Waiting? ==> scope.ran == [])
  }

  ghost predicate TurnOk(scope: Scope) {
    && (scope.phase.Open? <==> scope.turn.Idle?) && (scope.phase.Closed? <==> scope.turn.Done?)
    && (scope.turn.Waiting? ==> scope.phase.Draining?) && (!scope.turn.Idle? ==> scope.aborted)
    && (scope.turn.Busy? || scope.turn.Emptying? ==> scope.phase.Finalizing?)
    && (scope.turn.Drained? || scope.turn.Busy? || scope.turn.Emptying? || scope.turn.Done? ==> scope.acquiring == 0)
    && (scope.turn.Drained? || scope.turn.Emptying? || scope.turn.Done? ==> scope.children == {})
    && (scope.turn.Busy? && scope.turn.entry.LeaseEntry? ==> scope.children == {})
    && (scope.turn.Done? ==> scope.cleanups == [])
  }

  ghost predicate OwnersThere(scopes: map<ScopeId, Scope>) {
    forall s :: s in scopes && scopes[s].owner.Some? ==> scopes[s].owner.value in scopes
  }

  /** Children are the scopes below that are not closed yet; parents are older. */
  ghost predicate ParentsOk(scopes: map<ScopeId, Scope>) {
    && (forall s :: s in scopes && scopes[s].parent.Some? ==>
          && scopes[s].parent.value in scopes && scopes[s].parent.value < s
          && (s in scopes[scopes[s].parent.value].children <==> !scopes[s].phase.Closed?))
    && (forall p, c :: p in scopes && c in scopes[p].children ==> c in scopes && scopes[c].parent == Some(p))
  }

  ghost predicate TreeOk(scopes: map<ScopeId, Scope>) {
    ParentsOk(scopes) && OwnersThere(scopes)
  }

  ghost predicate Below(names: set<nat>, next: nat) {
    forall n :: n in names ==> n < next
  }

  ghost predicate EntriesBelow(scope: Scope, next: nat) {
    (forall e :: e in scope.cleanups ==> e.id < next) && (forall e :: e in scope.ran ==> e.id < next)
  }

  ghost predicate DistinctIds(s: seq<LeaseId>) {
    forall i, j :: 0 <= i < j < |s| ==> s[i] != s[j]
  }

  /** A lease is live exactly while its token and its cleanup entry exist; otherwise its disposal was
      begun. One that is in flight is among the releases of its scope. */
  ghost predicate LeaseOk(scope: Scope, l: LeaseId, live: bool, token: bool, begun: bool, finished: bool) {
    && (live <==> LeaseEntry(l) in scope.cleanups) && (live <==> token) && (live <==> !begun)
    && (finished ==> begun) && (begun && !finished ==> l in scope.releases)
    && (l in scope.releases ==> begun)
  }

  ghost predicate LeaseRow(w: World, l: LeaseId)
    requires l in w.leases
  {
    && w.leases[l].owner in w.scopes
    && LeaseOk(w.scopes[w.leases[l].owner], l, w.leases[l].live, l in w.tokens, l in w.disposals, l in w.finished)
  }

  /** What a scope lists are leases of its own. */
  ghost predicate OwnLeases(scope: Scope, s: ScopeId, leases: map<LeaseId, Lease>) {
    && (forall l :: LeaseEntry(l) in scope.cleanups ==> l in leases && leases[l].owner == s)
    && (forall l :: l in scope.releases ==> l in leases && leases[l].owner == s)
  }

  ghost predicate LeasesOk(w: World) {
    && DistinctIds(w.disposals)
    && (forall l :: l in w.leases ==> LeaseRow(w, l))
    && (forall s :: s in w.scopes ==> OwnLeases(w.scopes[s], s, w.leases))
    && (forall l :: l in w.tokens ==> l in w.leases) && (forall l :: l in w.disposals ==> l in w.leases)
    && (forall l :: l in w.finished ==> l in w.leases)
  }

  ghost predicate ScopeOk(scope: Scope, next: nat) {
    OrderOk(scope) && TurnOk(scope) && EntriesBelow(scope, next)
  }

  ghost predicate ScopesOk(scopes: map<ScopeId, Scope>, next: nat) {
    forall s :: s in scopes ==> ScopeOk(scopes[s], next)
  }

  ghost predicate Inv(w: World) {
    && ScopesOk(w.scopes, w.next) && TreeOk(w.scopes) && LeasesOk(w)
    && Below(w.scopes.Keys, w.next) && Below(w.leases.Keys, w.next)
  }
}
