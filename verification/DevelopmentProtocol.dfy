/** Development units and their replacement: two-phase activation, draining, pinned snapshots and
    disposal, one step per uninterrupted stretch of the runtime. */
module DevelopmentProtocol {
  type UnitName = string
  type UnitId = nat
  type CallId = nat
  type SnapshotId = nat

  datatype Option<+T> = None | Some(value: T)

  /** `layout` stands for the canonical identity of a function's ABI. */
  datatype Link = Link(provider: UnitName, name: string, layout: nat, suspends: bool)
  datatype Export = Export(name: string, layout: Option<nat>, resumable: bool)

  datatype UnitInfo = UnitInfo(name: UnitName, digest: nat, links: seq<Link>, exports: seq<Export>)

  datatype Edge = Edge(consumer: UnitName, provider: UnitName, name: string)

  datatype Retained = Retained(name: UnitName, digest: nat)

  datatype Build = Build(
    base: Option<nat>, revision: nat, entry: UnitName,
    changed: seq<UnitInfo>, retained: seq<Retained>, removed: seq<UnitName>, edges: seq<Edge>)

  /** A prepared activation: the units it will publish, and the names it replaces or removes. */
  datatype Candidate = Candidate(units: map<UnitName, UnitId>, entry: UnitName, revision: nat, replaced: set<UnitName>)

  /** `closing` are the replaced instances whose closing the publication awaits: those that were being
      closed when retirement had gone through them. */
  datatype State =
    | Ready
    | Preparing(build: Build)
    | Pending(candidate: Candidate)
    | Draining(candidate: Candidate, awaited: set<CallId>)
    | Disposing(candidate: Candidate, closing: set<UnitId>)

  /** `units` are the active instances by name, `infos` all instances ever made. `closes` records
      the closings in order. */
  datatype Runtime = Runtime(
    hosted: bool,
    infos: map<UnitId, UnitInfo>,
    units: map<UnitName, UnitId>,
    entry: Option<UnitName>,
    revision: Option<nat>,
    state: State,
    blocked: set<UnitName>,
    calls: map<CallId, UnitName>,
    snapshots: map<SnapshotId, map<UnitName, UnitId>>,
    pins: map<UnitId, nat>,
    retired: set<UnitId>,
    disposals: set<UnitId>,
    closes: seq<UnitId>,
    aborted: bool,
    next: nat)

  function Init(hosted: bool): Runtime {
    Runtime(hosted, map[], map[], None, None, Ready, {}, map[], map[], map[], {}, {}, [], false, 0)
  }

  /* ---------- links ---------- */

  function Named(exports: seq<Export>, name: string): (r: seq<Export>)
    ensures forall e :: e in r <==> e in exports && e.name == name
  {
    if exports == [] then []
    else
      assert exports == [exports[0]] + exports[1..];
      (if exports[0].name == name then [exports[0]] else []) + Named(exports[1..], name)
  }

  /** The provider has exactly one export for the link, of the same layout and manner. */
  predicate Matches(provider: UnitInfo, link: Link) {
    var found := Named(provider.exports, link.name);
    |found| == 1 && found[0].layout == Some(link.layout) && found[0].resumable == link.suspends
  }

  predicate Resolves(infos: map<UnitName, UnitInfo>, link: Link) {
    link.provider in infos && Matches(infos[link.provider], link)
  }

  predicate LinksResolve(infos: map<UnitName, UnitInfo>) {
    forall n :: n in infos ==> forall l :: l in infos[n].links ==> Resolves(infos, l)
  }

  /** The active instances' descriptions, by name. */
  function Described(units: map<UnitName, UnitId>, infos: map<UnitId, UnitInfo>): map<UnitName, UnitInfo> {
    map n | n in units && units[n] in infos :: infos[units[n]]
  }

  ghost predicate LinksTo(infos: map<UnitName, UnitInfo>, a: UnitName, b: UnitName) {
    a in infos && exists l :: l in infos[a].links && l.provider == b
  }

  /** A chain of links; all but the last unit must be described. */
  ghost predicate Chain(infos: map<UnitName, UnitInfo>, p: seq<UnitName>) {
    p != [] && forall i :: 0 <= i < |p| - 1 ==> LinksTo(infos, p[i], p[i + 1])
  }

  ghost predicate Reaches(infos: map<UnitName, UnitInfo>, a: UnitName, b: UnitName) {
    exists p :: Chain(infos, p) && p[0] == a && p[|p| - 1] == b
  }

  /** The replaced names, and the active units that link to one of them, however indirectly. */
  ghost predicate IsAffected(infos: map<UnitName, UnitInfo>, replaced: set<UnitName>, n: UnitName) {
    exists r :: r in replaced && Reaches(infos, n, r)
  }

  ghost function Affected(infos: map<UnitName, UnitInfo>, replaced: set<UnitName>): set<UnitName> {
    replaced + set n | n in infos && IsAffected(infos, replaced, n)
  }

  /** The providers reachable from the entry unit. */
  ghost function Closure(providers: map<UnitName, UnitId>, infos: map<UnitId, UnitInfo>, entry: UnitName): map<UnitName, UnitId> {
    map n | n in providers && Reaches(Described(providers, infos), entry, n) :: providers[n]
  }

  /* ---------- preparation ---------- */

  function Names(infos: seq<UnitInfo>): (r: set<UnitName>)
    ensures forall n :: n in r <==> exists u :: u in infos && u.name == n
  {
    set u | u in infos :: u.name
  }

  predicate DistinctNames(names: seq<UnitName>) {
    forall i, j :: 0 <= i < j < |names| ==> names[i] != names[j]
  }

  function Classified(b: Build): seq<UnitName> {
    seq(|b.changed|, i requires 0 <= i < |b.changed| => b.changed[i].name)
    + seq(|b.retained|, i requires 0 <= i < |b.retained| => b.retained[i].name)
    + b.removed
  }

  /** `validateBuildTransition` and the check of retained units: the build starts from the active
      revision and classifies every active unit once. */
  predicate Validates(s: Runtime, b: Build) {
    && b.base == s.revision
    && DistinctNames(Classified(b))
    && (forall r :: r in b.retained ==>
          r.name in s.units && s.units[r.name] in s.infos && s.infos[s.units[r.name]].digest == r.digest)
    && (forall n :: n in b.removed ==> n in s.units)
    && (forall n :: n in s.units ==> n in Classified(b))
    && (b.entry in Names(b.changed) || (b.entry in s.units && b.entry !in b.removed))
    && (forall i, j :: 0 <= i < j < |b.edges| ==> b.edges[i] != b.edges[j])
  }

  /** The instances of the changed units, in order. */
  function Instances(changed: seq<UnitInfo>, next: nat): (r: map<UnitName, UnitId>)
    ensures forall n :: n in r <==> exists u :: u in changed && u.name == n
    ensures forall n :: n in r ==> next <= r[n] < next + |changed|
  {
    if changed == [] then map[]
    else
      var last := |changed| - 1;
      assert changed == changed[..last] + [changed[last]];
      Instances(changed[..last], next)[changed[last].name := next + last]
  }

  function NewInfos(changed: seq<UnitInfo>, next: nat): (r: map<UnitId, UnitInfo>)
    ensures forall i :: i in r <==> next <= i < next + |changed|
    ensures forall i :: i in r ==> r[i] == changed[i - next]
  {
    if changed == [] then map[]
    else
      var last := |changed| - 1;
      NewInfos(changed[..last], next)[next + last := changed[last]]
  }

  function FinalUnits(s: Runtime, b: Build): map<UnitName, UnitId> {
    (s.units - (set n | n in b.removed)) + Instances(b.changed, s.next)
  }

  function FinalInfos(s: Runtime, b: Build): map<UnitId, UnitInfo> {
    s.infos + NewInfos(b.changed, s.next)
  }

  function LinkEdges(consumer: UnitName, links: seq<Link>): seq<Edge> {
    seq(|links|, i requires 0 <= i < |links| => Edge(consumer, links[i].provider, links[i].name))
  }

  /** The edges that the final manifests derive, counted. */
  ghost function DerivedEdges(infos: map<UnitName, UnitInfo>): multiset<Edge>
    decreases |infos|
  {
    if infos == map[] then multiset{}
    else
      var n :| n in infos;
      RemoveSmaller(infos, n);
      multiset(LinkEdges(n, infos[n].links)) + DerivedEdges(infos - {n})
  }

  lemma RemoveSmaller<K, V>(m: map<K, V>, k: K)
    requires k in m
    ensures |m - {k}| < |m|
  {
    assert m.Keys == (m - {k}).Keys + {k};
    assert |m.Keys| == |m| && |(m - {k}).Keys| == |m - {k}|;
  }

  /** Links resolve, and the declared edges are the derived ones. */
  ghost predicate Sound(s: Runtime, b: Build) {
    var final := Described(FinalUnits(s, b), FinalInfos(s, b));
    LinksResolve(final) && multiset(b.edges) == DerivedEdges(final)
  }

  function Prepared(s: Runtime, b: Build): Runtime {
    s.(infos := FinalInfos(s, b), next := s.next + |b.changed|,
       state := Pending(Candidate(FinalUnits(s, b), b.entry, b.revision, Names(b.changed) + (set n | n in b.removed))))
  }

  /* ---------- activation ---------- */

  function Publish(s: Runtime, c: Candidate): Runtime {
    s.(units := c.units, entry := Some(c.entry), revision := Some(c.revision), blocked := {}, state := Ready)
  }

  /** The instances that the candidate adds. */
  function Added(c: Candidate): set<UnitId> {
    set n | n in c.units && n in c.replaced :: c.units[n]
  }

  /** The active instances that the candidate replaces or removes. */
  function Leaving(s: Runtime, c: Candidate): set<UnitId> {
    set n | n in s.units && n in c.replaced :: s.units[n]
  }

  ghost function AwaitedCalls(s: Runtime, affected: set<UnitName>): set<CallId> {
    set i | i in s.calls && s.calls[i] in affected
  }

  /** `commitActivation` up to its first wait. */
  ghost function Commit(s: Runtime, c: Candidate): Runtime {
    var affected := Affected(Described(s.units, s.infos), c.replaced);
    var awaited := AwaitedCalls(s, affected);
    if awaited == {} && (!s.hosted || Leaving(s, c) == {}) then Publish(s, c)
    else s.(state := Draining(c, awaited), blocked := affected)
  }

  /** `#retire`: a pinned unit waits for its last snapshot, any other one is closed. */
  function Retire(s: Runtime, u: UnitId): Runtime {
    if u in s.pins then s.(retired := s.retired + {u})
    else if u in s.disposals then s.(retired := s.retired - {u})
    else s.(retired := s.retired - {u}, disposals := s.disposals + {u}, closes := s.closes + [u])
  }

  function RetireAll(s: Runtime, us: seq<UnitId>): Runtime {
    if us == [] then s else Retire(RetireAll(s, us[..|us| - 1]), us[|us| - 1])
  }

  /** The publication waits for the replaced instances that are being closed now, not for those that
      wait for their last snapshot. */
  function Awaiting(s: Runtime): Runtime {
    if s.state.Disposing? then s.(state := s.state.(closing := Leaving(s, s.state.candidate) * s.disposals)) else s
  }

  /** An abandoned candidate closes the instances that it would have added. */
  function Abandon(s: Runtime, order: seq<UnitId>): Runtime {
    s.(state := Ready, closes := s.closes + order)
  }

  /* ---------- snapshots ---------- */

  function Pin(pins: map<UnitId, nat>, us: seq<UnitId>): map<UnitId, nat> {
    if us == [] then pins
    else
      var rest, u := Pin(pins, us[..|us| - 1]), us[|us| - 1];
      rest[u := (if u in rest then rest[u] else 0) + 1]
  }

  /** A captured callback keeps these units. */
  function Capture(s: Runtime, kept: map<UnitName, UnitId>, order: seq<UnitId>): Runtime {
    s.(snapshots := s.snapshots[s.next := kept], pins := Pin(s.pins, order), next := s.next + 1)
  }

  /** One unit of a released snapshot loses a pin; the last pin of a retired unit closes it. */
  function Unpin(s: Runtime, u: UnitId): Runtime {
    if u !in s.pins then s
    else if s.pins[u] > 1 then s.(pins := s.pins[u := s.pins[u] - 1])
    else
      var t := s.(pins := s.pins - {u});
      if u in s.retired && !s.aborted then Retire(t, u) else t
  }

  function UnpinAll(s: Runtime, us: seq<UnitId>): Runtime {
    if us == [] then s else Unpin(UnpinAll(s, us[..|us| - 1]), us[|us| - 1])
  }

  /** The order lists every element once. */
  ghost predicate Lists<T(!new)>(order: seq<T>, elements: set<T>) {
    && |order| == |elements|
    && (forall x :: x in order <==> x in elements)
  }

  function Release(s: Runtime, x: SnapshotId, order: seq<UnitId>): Runtime {
    UnpinAll(s.(snapshots := s.snapshots - {x}), order)
  }

  /* ---------- events ---------- */

  /** `order` is the order in which a set of units is walked. */
  datatype Event =
    | Beginning(build: Build)
    | Finishing(intact: bool)
    | Committing
    | Retiring(order: seq<UnitId>)
    | Publishing
    | Aborting(order: seq<UnitId>)
    | Calling(name: UnitName)
    | Returning(call: CallId)
    | Capturing(call: CallId, entry: UnitName, order: seq<UnitId>)
    | Recapturing(snapshot: SnapshotId, entry: UnitName, order: seq<UnitId>)
    | Releasing(snapshot: SnapshotId, order: seq<UnitId>)
    | Disposed(gone: UnitId)
    | Closing

  ghost function Step(s: Runtime, e: Event): Runtime {
    match e
    case Beginning(b) => if s.state == Ready && !s.aborted && Validates(s, b) then s.(state := Preparing(b)) else s
    case Finishing(intact) =>
      if !s.state.Preparing? then s
      else if intact && Sound(s, s.state.build) then Prepared(s, s.state.build)
      else s.(state := Ready)
    case Committing => if s.state.Pending? then Commit(s, s.state.candidate) else s
    case Retiring(order) =>
      if s.state.Draining? && s.state.awaited !! s.calls.Keys && Lists(order, Leaving(s, s.state.candidate))
      then Awaiting(RetireAll(s.(state := Disposing(s.state.candidate, {})), order)) else s
    case Publishing =>
      if s.state.Disposing? && s.state.closing !! s.disposals then Publish(s, s.state.candidate) else s
    case Aborting(order) =>
      if s.state.Pending? && Lists(order, Added(s.state.candidate)) then Abandon(s, order) else s
    case Calling(n) =>
      if !s.aborted && s.hosted && n in s.units && n !in s.blocked
      then s.(calls := s.calls[s.next := n], next := s.next + 1) else s
    case Returning(i) => s.(calls := s.calls - {i})
    case Capturing(i, entry, order) =>
      if i in s.calls && Reaches(Described(s.units, s.infos), s.calls[i], entry)
         && Lists(order, Closure(s.units, s.infos, entry).Values)
      then Capture(s, Closure(s.units, s.infos, entry), order) else s
    case Recapturing(x, entry, order) =>
      if x in s.snapshots && entry in s.snapshots[x] && Lists(order, Closure(s.snapshots[x], s.infos, entry).Values)
      then Capture(s, Closure(s.snapshots[x], s.infos, entry), order) else s
    case Releasing(x, order) =>
      if x in s.snapshots && Lists(order, s.snapshots[x].Values) then Release(s, x, order) else s
    case Disposed(u) => s.(disposals := s.disposals - {u})
    case Closing => s.(aborted := true)
  }

  ghost function Run(s: Runtime, events: seq<Event>): Runtime {
    if events == [] then s else Step(Run(s, events[..|events| - 1]), events[|events| - 1])
  }

  /* ---------- the invariant ---------- */

  /** These instances are known under their own names, and their links resolve among them. */
  ghost predicate Coherent(units: map<UnitName, UnitId>, infos: map<UnitId, UnitInfo>) {
    && (forall n :: n in units ==> units[n] in infos && infos[units[n]].name == n)
    && LinksResolve(Described(units, infos))
  }

  ghost predicate Below(names: set<nat>, next: nat) {
    forall n :: n in names ==> n < next
  }

  ghost predicate NamesOk(s: Runtime) {
    Below(s.infos.Keys, s.next) && Below(s.calls.Keys, s.next) && Below(s.snapshots.Keys, s.next)
  }

  ghost function Holders(snapshots: map<SnapshotId, map<UnitName, UnitId>>, u: UnitId): set<SnapshotId> {
    set x | x in snapshots && u in snapshots[x].Values
  }

  /** The pin count of a unit is the number of live snapshots that hold it. */
  ghost predicate PinsOk(pins: map<UnitId, nat>, snapshots: map<SnapshotId, map<UnitName, UnitId>>) {
    forall u {:trigger Holders(snapshots, u)} ::
      (u in pins <==> Holders(snapshots, u) != {}) && (u in pins ==> pins[u] == |Holders(snapshots, u)|)
  }

  ghost predicate DistinctIds(s: seq<UnitId>) {
    forall i, j :: 0 <= i < j < |s| ==> s[i] != s[j]
  }

  /** A unit is closed once, and then nothing holds it; retired units are held, until the runtime
      itself closes. */
  ghost predicate ClosesOk(
    closes: seq<UnitId>, disposals: set<UnitId>, retired: set<UnitId>, pinned: set<UnitId>, known: set<UnitId>, aborted: bool) {
    && DistinctIds(closes)
    && (forall u :: u in disposals ==> u in closes)
    && (forall u :: u in closes ==> u !in pinned && u !in retired && u in known)
    && (forall u :: u in retired ==> u in known && (aborted || u in pinned))
  }

  ghost predicate SnapshotsOk(snapshots: map<SnapshotId, map<UnitName, UnitId>>, infos: map<UnitId, UnitInfo>) {
    forall x :: x in snapshots ==> Coherent(snapshots[x], infos)
  }

  /** The names whose active instances may be closed or retired already: those being replaced, once
      retirement began. */
  function Going(state: State): set<UnitName> {
    if state.Disposing? then state.candidate.replaced else {}
  }

  ghost predicate ActiveOk(units: map<UnitName, UnitId>, going: set<UnitName>, closes: seq<UnitId>, retired: set<UnitId>) {
    forall n :: n in units && n !in going ==> units[n] !in closes && units[n] !in retired
  }

  /** The candidate keeps the active instances but for the replaced names, and is link-closed. */
  ghost predicate CandidateOk(c: Candidate, units: map<UnitName, UnitId>, infos: map<UnitId, UnitInfo>) {
    && Coherent(c.units, infos)
    && (forall n :: n in units && n !in c.replaced ==> n in c.units && c.units[n] == units[n])
    && (forall n :: n in c.units && n !in c.replaced ==> n in units)
    && c.entry in c.units
  }

  function Coming(state: State): set<UnitId> {
    if state.Pending? || state.Draining? || state.Disposing? then Added(state.candidate) else {}
  }

  /** Instances not published yet are neither closed, retired, active nor held. */
  ghost predicate ComingOk(coming: set<UnitId>, closes: seq<UnitId>, retired: set<UnitId>, active: set<UnitId>, pinned: set<UnitId>) {
    forall u :: u in coming ==> u !in closes && u !in retired && u !in active && u !in pinned
  }

  ghost predicate CallsOk(calls: map<CallId, UnitName>, units: map<UnitName, UnitId>) {
    forall i :: i in calls ==> calls[i] in units
  }

  /** While draining, the calls into blocked units are those awaited; once retirement begins there
      are none. */
  ghost predicate DrainOk(state: State, blocked: set<UnitName>, calls: map<CallId, UnitName>, infos: map<UnitName, UnitInfo>) {
    match state
    case Draining(c, awaited) =>
      blocked == Affected(infos, c.replaced) && (forall i :: i in calls && calls[i] in blocked ==> i in awaited)
    case Disposing(c, _) => blocked == Affected(infos, c.replaced) && (forall i :: i in calls ==> calls[i] !in blocked)
    case _ => blocked == {}
  }

  ghost predicate StateOk(s: Runtime) {
    && DrainOk(s.state, s.blocked, s.calls, Described(s.units, s.infos))
    && (s.state.Preparing? ==> Validates(s, s.state.build))
    && (s.state.Pending? || s.state.Draining? || s.state.Disposing? ==> CandidateOk(s.state.candidate, s.units, s.infos))
  }

  /** Everything but the pin counts. */
  ghost predicate Rest(s: Runtime) {
    && NamesOk(s) && Coherent(s.units, s.infos) && SnapshotsOk(s.snapshots, s.infos)
    && ClosesOk(s.closes, s.disposals, s.retired, s.pins.Keys, s.infos.Keys, s.aborted)
    && ActiveOk(s.units, Going(s.state), s.closes, s.retired)
    && ComingOk(Coming(s.state), s.closes, s.retired, s.units.Values, s.pins.Keys)
    && StateOk(s) && CallsOk(s.calls, s.units)
  }

  ghost predicate Inv(s: Runtime) {
    Rest(s) && PinsOk(s.pins, s.snapshots)
  }
}
