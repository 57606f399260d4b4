/** What a run has published: the active revision, entry and units are those of the last published
    build, and every instance ever made is accounted for. */
module DevelopmentHistory {
  import opened DevelopmentProtocol
  import opened DevelopmentRuns

  /* ---------- which builds a run publishes ---------- */

  /** The event accepts this build for preparation. */
  ghost predicate Accepts(s: Runtime, e: Event) {
    e.Beginning? && s.state == Ready && !s.aborted && Validates(s, e.build)
  }

  /** The event publishes the candidate: it is committed while nothing has to drain, or its wait is over. */
  ghost predicate Publishes(s: Runtime, e: Event) {
    || (e.Committing? && s.state.Pending?
        && (forall i :: i in s.calls ==> !IsAffected(Described(s.units, s.infos), s.state.candidate.replaced, s.calls[i]))
        && (s.hosted ==> forall n :: n in s.units ==> n !in s.state.candidate.replaced))
    || (e.Publishing? && s.state.Disposing? && forall u :: u in s.state.closing ==> u !in s.disposals)
  }

  /** The build that was last accepted. */
  ghost function Building(hosted: bool, events: seq<Event>): Option<Build> {
    if events == [] then None
    else
      var before, e := events[..|events| - 1], events[|events| - 1];
      if Accepts(Reached(hosted, before), e) then Some(e.build) else Building(hosted, before)
  }

  /** All published builds, in order. */
  ghost function Published(hosted: bool, events: seq<Event>): seq<Build> {
    if events == [] then []
    else
      var before, e := events[..|events| - 1], events[|events| - 1];
      Published(hosted, before)
      + if Publishes(Reached(hosted, before), e) && Building(hosted, before).Some? then [Building(hosted, before).value] else []
  }

  /* ---------- what a build makes of the units ---------- */

  function RetainedNames(b: Build): set<UnitName> {
    set r | r in b.retained :: r.name
  }

  /** Nothing of the public face changes. */
  ghost predicate SameFace(s: Runtime, t: Runtime) {
    t.units == s.units && t.entry == s.entry && t.revision == s.revision
  }

  /** The changed units are there under their names, as the build describes them. */
  ghost predicate ShowsChanged(units: map<UnitName, UnitId>, infos: map<UnitId, UnitInfo>, b: Build) {
    forall u :: u in b.changed ==> u.name in units && units[u.name] in infos && infos[units[u.name]] == u
  }

  /** The retained units are there with the digests that the build names. */
  ghost predicate ShowsRetained(units: map<UnitName, UnitId>, infos: map<UnitId, UnitInfo>, b: Build) {
    forall r :: r in b.retained ==> r.name in units && units[r.name] in infos && infos[units[r.name]].digest == r.digest
  }

  ghost predicate HasLink(links: seq<Link>, e: Edge) {
    exists l :: l in links && l.provider == e.provider && l.name == e.name
  }

  /** The edges that the build declares are the links of these units. */
  ghost predicate ShowsEdges(units: map<UnitName, UnitId>, infos: map<UnitId, UnitInfo>, b: Build) {
    forall e: Edge :: e in b.edges <==> e.consumer in units && units[e.consumer] in infos && HasLink(infos[units[e.consumer]].links, e)
  }

  /** These units are what the build says: the changed and the retained ones, and no others. */
  ghost predicate Shows(units: map<UnitName, UnitId>, infos: map<UnitId, UnitInfo>, b: Build) {
    && units.Keys == Names(b.changed) + RetainedNames(b) && b.entry in units
    && ShowsChanged(units, infos, b) && ShowsRetained(units, infos, b) && ShowsEdges(units, infos, b)
  }

  /** From the active units to those of the build: retained units stay the same instances, changed ones
      are new, and every active unit is changed, retained or removed, exactly one of the three. */
  ghost predicate Moves(units: map<UnitName, UnitId>, units': map<UnitName, UnitId>, b: Build) {
    && (forall r :: r in b.retained ==> r.name in units && r.name in units' && units'[r.name] == units[r.name])
    && (forall u :: u in b.changed ==> u.name in units' && units'[u.name] !in units.Values)
    && (forall n :: n in b.removed ==> n in units && n !in units')
    && (forall n :: n in units ==> n in Names(b.changed) || n in RetainedNames(b) || n in b.removed)
    && Names(b.changed) !! RetainedNames(b) && Names(b.changed) !! (set n | n in b.removed) && RetainedNames(b) !! (set n | n in b.removed)
  }

  ghost predicate CandidateOf(s: Runtime, c: Candidate, b: Build) {
    && c.entry == b.entry && c.revision == b.revision && c.replaced == Names(b.changed) + (set n | n in b.removed)
    && b.base == s.revision && Shows(c.units, s.infos, b) && Moves(s.units, c.units, b)
  }

  /** The candidate, if there is one. */
  function Proposal(state: State): Option<Candidate> {
    if state.Pending? || state.Draining? || state.Disposing? then Some(state.candidate) else None
  }

  /* ---------- the candidate comes from the build ---------- */

  lemma ClassifiedSets(b: Build)
    ensures forall n :: n in Classified(b) <==> n in Names(b.changed) || n in RetainedNames(b) || n in b.removed
    ensures DistinctNames(Classified(b)) ==>
              Names(b.changed) !! RetainedNames(b) && Names(b.changed) !! (set n | n in b.removed) && RetainedNames(b) !! (set n | n in b.removed)
    ensures DistinctNames(Classified(b)) ==> forall i, j :: 0 <= i < j < |b.changed| ==> b.changed[i].name != b.changed[j].name
  {
    var c, r := |b.changed|, |b.retained|;
    var all := Classified(b);
    assert forall i :: 0 <= i < c ==> all[i] == b.changed[i].name;
    assert forall i :: 0 <= i < r ==> all[c + i] == b.retained[i].name;
    assert forall i :: 0 <= i < |b.removed| ==> all[c + r + i] == b.removed[i];
    forall n | n in Names(b.changed) ensures n in all {
      var u :| u in b.changed && u.name == n;
      var i :| 0 <= i < c && b.changed[i] == u;
      assert all[i] == n;
    }
    forall n | n in RetainedNames(b) ensures n in all {
      var u :| u in b.retained && u.name == n;
      var i :| 0 <= i < r && b.retained[i] == u;
      assert all[c + i] == n;
    }
    forall n | n in b.removed ensures n in all {
      var i :| 0 <= i < |b.removed| && b.removed[i] == n;
      assert all[c + r + i] == n;
    }
    forall n | n in all ensures n in Names(b.changed) || n in RetainedNames(b) || n in b.removed {
      var i :| 0 <= i < |all| && all[i] == n;
      if i < c {
        assert b.changed[i] in b.changed;
      } else if i < c + r {
        assert b.retained[i - c] in b.retained;
      } else {
        assert b.removed[i - c - r] in b.removed;
      }
    }
    if DistinctNames(all) {
      Apart(b, all);
    }
  }

  lemma Apart(b: Build, all: seq<UnitName>)
    requires all == Classified(b) && DistinctNames(all)
    ensures Names(b.changed) !! RetainedNames(b) && Names(b.changed) !! (set n | n in b.removed) && RetainedNames(b) !! (set n | n in b.removed)
  {
    var c, r := |b.changed|, |b.retained|;
    assert forall i :: 0 <= i < c ==> all[i] == b.changed[i].name;
    assert forall i :: 0 <= i < r ==> all[c + i] == b.retained[i].name;
    assert forall i :: 0 <= i < |b.removed| ==> all[c + r + i] == b.removed[i];
  }

  /** Each changed unit has its own new instance. */
  lemma {:induction false} InstanceOf(changed: seq<UnitInfo>, next: nat, k: nat)
    requires k < |changed| && forall i, j :: 0 <= i < j < |changed| ==> changed[i].name != changed[j].name
    ensures changed[k].name in Instances(changed, next) && Instances(changed, next)[changed[k].name] == next + k
  {
    var last := |changed| - 1;
    if k < last { InstanceOf(changed[..last], next, k); }
  }

  lemma {:induction false} DerivedIs(infos: map<UnitName, UnitInfo>, e: Edge)
    ensures e in DerivedEdges(infos) <==> e.consumer in infos && HasLink(infos[e.consumer].links, e)
    decreases |infos|
  {
    if infos != map[] {
      var n :| n in infos && DerivedEdges(infos) == multiset(LinkEdges(n, infos[n].links)) + DerivedEdges(infos - {n});
      RemoveSmaller(infos, n);
      DerivedIs(infos - {n}, e);
      EdgeIs(n, infos[n].links, e);
    }
  }

  lemma EdgeIs(n: UnitName, links: seq<Link>, e: Edge)
    ensures e in LinkEdges(n, links) <==> e.consumer == n && HasLink(links, e)
  {
    if e in LinkEdges(n, links) {
      var i :| 0 <= i < |links| && LinkEdges(n, links)[i] == e;
      assert links[i] in links;
    }
    if e.consumer == n && HasLink(links, e) {
      var l :| l in links && l.provider == e.provider && l.name == e.name;
      var i :| 0 <= i < |links| && links[i] == l;
      assert LinkEdges(n, links)[i] == e;
    }
  }

  lemma PreparedEdges(s: Runtime, b: Build)
    requires Sound(s, b)
    ensures ShowsEdges(FinalUnits(s, b), FinalInfos(s, b), b)
  {
    hide LinksResolve, DerivedEdges, FinalUnits, FinalInfos, HasLink;
    var units, infos := FinalUnits(s, b), FinalInfos(s, b);
    var final := Described(units, infos);
    forall e: Edge ensures e in b.edges <==> e.consumer in units && units[e.consumer] in infos && HasLink(infos[units[e.consumer]].links, e) {
      DerivedIs(final, e);
      assert e in b.edges <==> e in multiset(b.edges);
    }
  }

  lemma PreparedChanged(s: Runtime, b: Build)
    requires NamesOk(s) && Validates(s, b)
    ensures ShowsChanged(FinalUnits(s, b), FinalInfos(s, b), b)
    ensures forall u :: u in b.changed ==> u.name in FinalUnits(s, b) && FinalUnits(s, b)[u.name] >= s.next
  {
    hide FinalUnits, FinalInfos, Classified, DistinctNames, NamesOk;
    ClassifiedSets(b);
    forall u | u in b.changed
      ensures u.name in FinalUnits(s, b) && FinalUnits(s, b)[u.name] >= s.next
      ensures FinalUnits(s, b)[u.name] in FinalInfos(s, b) && FinalInfos(s, b)[FinalUnits(s, b)[u.name]] == u
    {
      var k :| 0 <= k < |b.changed| && b.changed[k] == u;
      ChangedAt(s, b, k);
    }
  }

  lemma ChangedAt(s: Runtime, b: Build, k: nat)
    requires k < |b.changed| && forall i, j :: 0 <= i < j < |b.changed| ==> b.changed[i].name != b.changed[j].name
    ensures var n := b.changed[k].name;
            && n in FinalUnits(s, b) && FinalUnits(s, b)[n] == s.next + k
            && s.next + k in FinalInfos(s, b) && FinalInfos(s, b)[s.next + k] == b.changed[k]
  {
    hide Instances, NewInfos;
    InstanceOf(b.changed, s.next, k);
  }

  lemma PreparedRetained(s: Runtime, b: Build)
    requires NamesOk(s) && Validates(s, b)
    ensures ShowsRetained(FinalUnits(s, b), FinalInfos(s, b), b)
    ensures forall r :: r in b.retained ==> r.name in s.units && r.name in FinalUnits(s, b) && FinalUnits(s, b)[r.name] == s.units[r.name]
    ensures FinalUnits(s, b).Keys == Names(b.changed) + RetainedNames(b)
  {
    hide Instances, Classified, DistinctNames, NewInfos;
    ClassifiedSets(b);
    OldInfos(s, b);
    assert Instances(b.changed, s.next).Keys == Names(b.changed);
    forall r | r in b.retained
      ensures r.name in s.units && r.name in FinalUnits(s, b) && FinalUnits(s, b)[r.name] == s.units[r.name]
    {
      assert r.name in RetainedNames(b);
    }
  }

  lemma PreparedCandidateOf(s: Runtime, b: Build)
    requires Inv(s) && Validates(s, b) && Sound(s, b)
    ensures CandidateOf(Prepared(s, b), Prepared(s, b).state.candidate, b)
  {
    hide FinalUnits, FinalInfos, Sound, ShowsChanged, ShowsRetained, ShowsEdges, Classified, DistinctNames;
    PreparedEdges(s, b);
    EntryIsThere(s, b);
    PreparedChanged(s, b);
    PreparedRetained(s, b);
    ClassifiedSets(b);
    KnownAreOld(s);
  }

  lemma EntryIsThere(s: Runtime, b: Build)
    requires Validates(s, b)
    ensures b.entry in FinalUnits(s, b)
  {
    hide Classified, DistinctNames;
  }

  lemma KnownAreOld(s: Runtime)
    requires Inv(s)
    ensures forall u :: u in s.units.Values ==> u < s.next
  {
    hide PinsOk, StateOk, LinksResolve, ClosesOk, ActiveOk, ComingOk, SnapshotsOk, CallsOk;
  }

  /* ---------- one step ---------- */

  /** What the events leave of the public face, of the candidate and of what is known of instances. */
  ghost predicate Faces(s: Runtime, t: Runtime) {
    && SameFace(s, t) && t.infos == s.infos
    && (t.state.Preparing? ==> t.state == s.state)
    && (Proposal(t.state).Some? ==> Proposal(t.state) == Proposal(s.state))
  }

  lemma {:induction false} RetireAllFaces(s: Runtime, us: seq<UnitId>)
    ensures var t := RetireAll(s, us); SameFace(s, t) && t.infos == s.infos && t.state == s.state && t.hosted == s.hosted
  {
    hide Retire;
    if us != [] {
      RetireAllFaces(s, us[..|us| - 1]);
      RetireSame(RetireAll(s, us[..|us| - 1]), us[|us| - 1]);
    }
  }

  lemma {:induction false} UnpinAllFaces(s: Runtime, us: seq<UnitId>)
    ensures var t := UnpinAll(s, us); SameFace(s, t) && t.infos == s.infos && t.state == s.state && t.hosted == s.hosted
  {
    hide Unpin;
    if us != [] {
      UnpinAllFaces(s, us[..|us| - 1]);
      UnpinSame(UnpinAll(s, us[..|us| - 1]), us[|us| - 1]);
    }
  }

  /** What a commit decides: the units that stop taking calls are the replaced ones and every active unit
      that links to one of them, however indirectly; the calls into those are awaited; and it publishes
      at once exactly when there are none and no hosted instance has to go. */
  lemma CommitDrainsExactly(s: Runtime)
    requires s.state.Pending?
    ensures var t, c, running := Step(s, Committing), s.state.candidate, Described(s.units, s.infos);
            var held := (exists i :: i in s.calls && (s.calls[i] in c.replaced || (s.calls[i] in running && IsAffected(running, c.replaced, s.calls[i]))))
                        || (s.hosted && exists n :: n in s.units && n in c.replaced);
            if held then
              && t == s.(state := t.state, blocked := t.blocked) && t.state.Draining? && t.state.candidate == c
              && (forall n :: n in t.blocked <==> n in c.replaced || (n in running && IsAffected(running, c.replaced, n)))
              && (forall i :: i in t.state.awaited <==> i in s.calls && s.calls[i] in t.blocked)
            else t == Publish(s, c)
  {
    hide IsAffected, Described;
    var c := s.state.candidate;
    var affected := Affected(Described(s.units, s.infos), c.replaced);
    assert forall i :: i in s.calls && s.calls[i] in affected ==> i in AwaitedCalls(s, affected);
    assert forall n :: n in s.units && n in c.replaced ==> s.units[n] in Leaving(s, c);
  }

  lemma CommitPublishes(s: Runtime, e: Event)
    requires Inv(s) && e.Committing? && s.state.Pending?
    ensures if Publishes(s, e) then Step(s, e) == Publish(s, s.state.candidate)
            else Step(s, e) == s.(state := Step(s, e).state, blocked := Step(s, e).blocked)
                 && Step(s, e).state.Draining? && Step(s, e).state.candidate == s.state.candidate
  {
    hide Inv, Step, IsAffected, Described, Publish;
    CommitDrainsExactly(s);
    var c, infos := s.state.candidate, Described(s.units, s.infos);
    CalledAreActive(s);
    forall i | i in s.calls ensures s.calls[i] in c.replaced ==> IsAffected(infos, c.replaced, s.calls[i]) {
      ReplacedIsAffected(infos, c.replaced, s.calls[i]);
    }
  }

  lemma CalledAreActive(s: Runtime)
    requires Inv(s)
    ensures forall i :: i in s.calls ==> s.calls[i] in Described(s.units, s.infos)
  {
    hide PinsOk, StateOk, LinksResolve, ClosesOk, ActiveOk, ComingOk, SnapshotsOk, NamesOk;
  }

  lemma ReplacedIsAffected(infos: map<UnitName, UnitInfo>, replaced: set<UnitName>, n: UnitName)
    ensures n in replaced ==> IsAffected(infos, replaced, n)
  {
    ReachesItself(infos, n);
  }

  lemma RetiringFaces(s: Runtime, order: seq<UnitId>)
    ensures Faces(s, Step(s, Retiring(order)))
  {
    hide RetireAll, Lists, Leaving;
    if s.state.Draining? { RetireAllFaces(s.(state := Disposing(s.state.candidate, {})), order); }
  }

  lemma ReleasingFaces(s: Runtime, x: SnapshotId, order: seq<UnitId>)
    ensures Faces(s, Step(s, Releasing(x, order)))
  {
    hide UnpinAll, Lists;
    UnpinAllFaces(s.(snapshots := s.snapshots - {x}), order);
  }

  lemma QuietFaces(s: Runtime, e: Event)
    requires e.Calling? || e.Returning? || e.Capturing? || e.Recapturing? || e.Disposed? || e.Closing? || e.Aborting?
    ensures Faces(s, Step(s, e))
  {
    hide Lists, Reaches, Described, Closure, Pin, Sound, Validates, RetireAll, UnpinAll, Prepared, Commit, Leaving, Added;
  }

  lemma FacesStep(s: Runtime, e: Event)
    requires Inv(s)
    ensures var t := Step(s, e);
            if Publishes(s, e) then Proposal(s.state).Some? && t == Publish(s, Proposal(s.state).value)
            else if Accepts(s, e) then t == s.(state := Preparing(e.build))
            else if e.Finishing? && s.state.Preparing? && e.intact && Sound(s, s.state.build) then t == Prepared(s, s.state.build)
            else Faces(s, t)
  {
    hide Inv, Prepared, Commit, Sound, Validates, IsAffected, Described, Lists, Reaches, Closure, Leaving, RetireAll, UnpinAll, Capture, Abandon, Release;
    match e
    case Committing => if s.state.Pending? { CommitPublishes(s, e); }
    case Retiring(order) => RetiringFaces(s, order);
    case Releasing(x, order) => ReleasingFaces(s, x, order);
    case Beginning(_) =>
    case Finishing(_) =>
    case Publishing =>
    case _ => QuietFaces(s, e);
  }

  /* ---------- over whole runs ---------- */

  /** The public face is that of the last published build. */
  ghost predicate FaceOf(s: Runtime, published: seq<Build>) {
    if published == [] then s.units == map[] && s.entry == None && s.revision == None
    else
      var b := published[|published| - 1];
      s.entry == Some(b.entry) && s.revision == Some(b.revision) && Shows(s.units, s.infos, b)
  }

  /** What is being prepared or activated is the build accepted last. */
  ghost predicate WorkOf(s: Runtime, building: Option<Build>) {
    && (s.state.Preparing? ==> building == Some(s.state.build))
    && (Proposal(s.state).Some? ==> building.Some? && CandidateOf(s, Proposal(s.state).value, building.value))
  }

  ghost predicate BasesChain(published: seq<Build>) {
    && (published != [] ==> published[0].base == None)
    && forall i :: 0 < i < |published| ==> published[i].base == Some(published[i - 1].revision)
  }

  lemma FacesKeep(s: Runtime, t: Runtime, published: seq<Build>, building: Option<Build>)
    requires FaceOf(s, published) && WorkOf(s, building) && Faces(s, t)
    ensures FaceOf(t, published) && WorkOf(t, building)
  {
    hide Shows, Moves;
  }

  lemma AcceptedKeeps(s: Runtime, b: Build, published: seq<Build>)
    requires FaceOf(s, published)
    ensures FaceOf(s.(state := Preparing(b)), published) && WorkOf(s.(state := Preparing(b)), Some(b))
  {
    hide Shows, Moves;
  }

  lemma ShownStill(units: map<UnitName, UnitId>, infos: map<UnitId, UnitInfo>, infos': map<UnitId, UnitInfo>, b: Build)
    requires Shows(units, infos, b) && (forall u :: u in infos ==> u in infos' && infos'[u] == infos[u])
    requires forall n :: n in units ==> units[n] in infos
    ensures Shows(units, infos', b)
  {
    hide HasLink;
  }

  lemma ActiveAreKnownToo(s: Runtime)
    requires Inv(s)
    ensures NamesOk(s) && forall n :: n in s.units ==> s.units[n] in s.infos
  {
    hide PinsOk, StateOk, LinksResolve, ClosesOk, ActiveOk, ComingOk, SnapshotsOk, CallsOk;
  }

  lemma PreparedFace(s: Runtime, b: Build, published: seq<Build>)
    requires Inv(s) && s.state == Preparing(b) && Sound(s, b) && FaceOf(s, published)
    ensures FaceOf(Prepared(s, b), published) && WorkOf(Prepared(s, b), Some(b))
  {
    hide Inv, Shows, Sound, FinalUnits, FinalInfos, CandidateOf, Validates, NamesOk;
    AcceptedWas(s);
    ActiveAreKnownToo(s);
    PreparedCandidateOf(s, b);
    OldInfos(s, b);
    if published != [] { ShownStill(s.units, s.infos, FinalInfos(s, b), published[|published| - 1]); }
  }

  lemma AcceptedWas(s: Runtime)
    requires Inv(s) && s.state.Preparing?
    ensures Validates(s, s.state.build)
  {
    hide PinsOk, LinksResolve, ClosesOk, ActiveOk, ComingOk, SnapshotsOk, CallsOk, Validates;
  }

  lemma PublishedFace(s: Runtime, published: seq<Build>, b: Build)
    requires Proposal(s.state).Some? && CandidateOf(s, Proposal(s.state).value, b) && FaceOf(s, published) && BasesChain(published)
    ensures FaceOf(Publish(s, Proposal(s.state).value), published + [b]) && WorkOf(Publish(s, Proposal(s.state).value), Some(b))
    ensures BasesChain(published + [b])
  {
    hide Shows, Moves;
    var all := published + [b];
    forall i | 0 < i < |all| ensures all[i].base == Some(all[i - 1].revision) {
      if i < |published| { assert all[i] == published[i] && all[i - 1] == published[i - 1]; }
    }
  }

  lemma {:induction false} RunFaces(hosted: bool, events: seq<Event>)
    ensures var s := Reached(hosted, events);
            && FaceOf(s, Published(hosted, events)) && WorkOf(s, Building(hosted, events)) && BasesChain(Published(hosted, events))
  {
    hide Inv, Step, FaceOf, WorkOf, BasesChain, Publishes, Accepts, Sound, CandidateOf, Faces;
    if events == [] {
      NothingYet(hosted);
    } else {
      var before, e := events[..|events| - 1], events[|events| - 1];
      var s, published, building := Reached(hosted, before), Published(hosted, before), Building(hosted, before);
      RunFaces(hosted, before);
      ReachedOk(hosted, before);
      FacesStep(s, e);
      FaceStep(s, e, published, building);
      assert published + [] == published;
    }
  }

  lemma NothingYet(hosted: bool)
    ensures FaceOf(Init(hosted), []) && WorkOf(Init(hosted), None) && BasesChain([])
  {
  }

  lemma FaceStep(s: Runtime, e: Event, published: seq<Build>, building: Option<Build>)
    requires Inv(s) && FaceOf(s, published) && WorkOf(s, building) && BasesChain(published)
    ensures var t := Step(s, e);
            var building' := if Accepts(s, e) then Some(e.build) else building;
            var published' := if Publishes(s, e) && building.Some? then published + [building.value] else published;
            FaceOf(t, published') && WorkOf(t, building') && BasesChain(published')
  {
    hide Inv, Step, FaceOf, BasesChain, Publishes, Accepts, Sound, CandidateOf, Faces, Prepared;
    var t := Step(s, e);
    FacesStep(s, e);
    NotBoth(s, e);
    if Publishes(s, e) {
      PublishedFace(s, published, building.value);
    } else if Accepts(s, e) {
      AcceptedKeeps(s, e.build, published);
    } else if e.Finishing? && s.state.Preparing? && e.intact && Sound(s, s.state.build) {
      PreparedFace(s, s.state.build, published);
    } else {
      FacesKeep(s, t, published, building);
    }
  }

  lemma NotBoth(s: Runtime, e: Event)
    ensures Accepts(s, e) ==> e.Beginning? && !Publishes(s, e)
  {
  }

  /** Over any run, the active revision and entry are those of the last published build, and the active
      units are its changed and retained ones, as it describes them; each published build started from
      the revision published before it. */
  lemma TheLastPublishedBuildIsActive(hosted: bool, events: seq<Event>)
    ensures var s, published := Reached(hosted, events), Published(hosted, events);
            && FaceOf(s, published) && BasesChain(published)
  {
    hide Reached, FaceOf, BasesChain, WorkOf;
    RunFaces(hosted, events);
  }

  lemma ReachedNext(hosted: bool, events: seq<Event>, e: Event)
    ensures Reached(hosted, events + [e]) == Step(Reached(hosted, events), e)
  {
    hide Step;
    assert (events + [e])[..|events|] == events;
  }

  /** Nothing but a publication changes the active units, entry or revision; a publication moves from the
      one build's units to the other's: retained units stay the very same instances, changed ones are
      new, and every unit that was active is changed, retained or removed, and one of them only. */
  lemma OnlyPublicationsMove(hosted: bool, events: seq<Event>, e: Event)
    ensures var s, t := Reached(hosted, events), Reached(hosted, events + [e]);
            if Publishes(s, e) then
              && Building(hosted, events).Some?
              && var b := Building(hosted, events).value;
                 && t.entry == Some(b.entry) && t.revision == Some(b.revision) && b.base == s.revision
                 && Moves(s.units, t.units, b) && Shows(t.units, t.infos, b) && t.state == Ready && t.blocked == {}
            else SameFace(s, t)
  {
    hide Inv, Step, Reached, FaceOf, BasesChain, Publishes, Accepts, Sound, Shows, Moves;
    var s := Reached(hosted, events);
    ReachedOk(hosted, events);
    RunFaces(hosted, events);
    ReachedNext(hosted, events, e);
    FacesStep(s, e);
  }

  /* ---------- no instance is lost ---------- */

  /** A replaced instance of a hosted runtime is closed, or waits for the last callback that holds it. */
  ghost predicate LetGo(s: Runtime, u: UnitId) {
    u in s.closes || u in s.retired
  }

  ghost predicate SomewhereIs(s: Runtime, u: UnitId) {
    u in s.units.Values || u in Coming(s.state) || LetGo(s, u)
  }

  ghost predicate Accounted(s: Runtime) {
    && (forall u :: u in s.infos ==> SomewhereIs(s, u))
    && (s.state.Disposing? ==> forall u :: u in Leaving(s, s.state.candidate) ==> LetGo(s, u))
  }

  /** What was let go stays so. */
  ghost predicate StaysLetGo(s: Runtime, t: Runtime) {
    forall u :: LetGo(s, u) ==> LetGo(t, u)
  }

  lemma {:induction false} RetireAllLetsGo(s: Runtime, us: seq<UnitId>)
    requires forall u :: u in s.disposals ==> u in s.closes
    ensures var t := RetireAll(s, us);
            && StaysLetGo(s, t) && (forall u :: u in us ==> LetGo(t, u)) && (forall u :: u in t.disposals ==> u in t.closes)
  {
    hide Retire;
    if us != [] {
      var rest, u := us[..|us| - 1], us[|us| - 1];
      assert us == rest + [u];
      RetireAllLetsGo(s, rest);
      RetireLetsGo(RetireAll(s, rest), u);
    }
  }

  lemma RetireLetsGo(s: Runtime, u: UnitId)
    requires forall v :: v in s.disposals ==> v in s.closes
    ensures var t := Retire(s, u); StaysLetGo(s, t) && LetGo(t, u) && forall v :: v in t.disposals ==> v in t.closes
  {
    var t := Retire(s, u);
    if u !in s.pins && u !in s.disposals { assert t.closes == s.closes + [u]; }
  }

  lemma {:induction false} UnpinAllLetsGo(s: Runtime, us: seq<UnitId>)
    requires forall u :: u in s.disposals ==> u in s.closes
    ensures var t := UnpinAll(s, us); StaysLetGo(s, t) && forall u :: u in t.disposals ==> u in t.closes
  {
    hide Unpin;
    if us != [] {
      UnpinAllLetsGo(s, us[..|us| - 1]);
      UnpinLetsGo(UnpinAll(s, us[..|us| - 1]), us[|us| - 1]);
    }
  }

  lemma UnpinLetsGo(s: Runtime, u: UnitId)
    requires forall v :: v in s.disposals ==> v in s.closes
    ensures var t := Unpin(s, u); StaysLetGo(s, t) && forall v :: v in t.disposals ==> v in t.closes
  {
    hide Retire;
    RetireLetsGo(s.(pins := s.pins - {u}), u);
  }

  lemma ClosingsKnown(s: Runtime)
    requires Inv(s)
    ensures forall u :: u in s.disposals ==> u in s.closes
    ensures NamesOk(s)
  {
    hide PinsOk, StateOk, LinksResolve, ActiveOk, ComingOk, SnapshotsOk, CallsOk, Coherent;
  }

  /** Publishing drops the replaced names only, whose instances were let go, if any were active. */
  lemma PublishAccounts(s: Runtime, c: Candidate)
    requires Inv(s) && Accounted(s) && Proposal(s.state) == Some(c)
    requires forall u :: u in Leaving(s, c) ==> LetGo(s, u)
    ensures Accounted(Publish(s, c))
  {
    hide PinsOk, LinksResolve, ActiveOk, ComingOk, SnapshotsOk, CallsOk, ClosesOk, NamesOk, DrainOk, Validates;
    var t := Publish(s, c);
    forall u | u in t.infos ensures SomewhereIs(t, u) {
      assert SomewhereIs(s, u);
      if u in s.units.Values && !LetGo(s, u) {
        var n :| n in s.units && s.units[n] == u;
        assert n in c.replaced ==> u in Leaving(s, c);
        assert c.units[n] == u;
      } else if u in Coming(s.state) {
        var n :| n in c.units && n in c.replaced && c.units[n] == u;
      }
    }
  }

  lemma PreparedAccounts(s: Runtime, b: Build)
    requires Inv(s) && Accounted(s) && s.state == Preparing(b) && Sound(s, b)
    ensures Accounted(Prepared(s, b))
  {
    hide *;
    var t := Prepared(s, b);
    AcceptedWas(s);
    DistinctChanged(b, s);
    forall u | u in t.infos ensures SomewhereIs(t, u) {
      PreparedSomewhere(s, b, u);
    }
    PreparedPends(s, b);
  }

  lemma PreparedPends(s: Runtime, b: Build)
    ensures (forall u :: u in Prepared(s, b).infos ==> SomewhereIs(Prepared(s, b), u)) ==> Accounted(Prepared(s, b))
  {
    hide FinalUnits, FinalInfos, SomewhereIs;
  }

  lemma PreparedSomewhere(s: Runtime, b: Build, u: UnitId)
    requires Accounted(s) && u in Prepared(s, b).infos && s.state == Preparing(b)
    requires forall i, j :: 0 <= i < j < |b.changed| ==> b.changed[i].name != b.changed[j].name
    ensures SomewhereIs(Prepared(s, b), u)
  {
    hide FinalUnits, NewInfos;
    if u in s.infos {
      assert SomewhereIs(s, u);
    } else {
      var k := u - s.next;
      assert 0 <= k < |b.changed|;
      ChangedAt(s, b, k);
      assert b.changed[k] in b.changed && b.changed[k].name in Prepared(s, b).state.candidate.replaced;
    }
  }

  lemma DistinctChanged(b: Build, s: Runtime)
    requires Validates(s, b)
    ensures forall i, j :: 0 <= i < j < |b.changed| ==> b.changed[i].name != b.changed[j].name
  {
    hide Classified, DistinctNames;
    ClassifiedSets(b);
  }

  /** Units, instances and the candidate stay, and what was let go stays so. */
  lemma SameAccounts(s: Runtime, t: Runtime)
    requires Accounted(s) && t.units == s.units && t.infos == s.infos && StaysLetGo(s, t) && Coming(t.state) == Coming(s.state)
    requires t.state.Disposing? ==> s.state.Disposing? && s.state.candidate == t.state.candidate
    ensures Accounted(t)
  {
    if t.state.Disposing? { assert Leaving(t, t.state.candidate) == Leaving(s, s.state.candidate); }
  }

  lemma RetiringAccounts(s: Runtime, order: seq<UnitId>)
    requires Inv(s) && Accounted(s)
    ensures Accounted(Step(s, Retiring(order)))
  {
    hide Inv, RetireAll, LetGo;
    ClosingsKnown(s);
    if s.state.Draining? && s.state.awaited !! s.calls.Keys && Lists(order, Leaving(s, s.state.candidate)) {
      var u := s.(state := Disposing(s.state.candidate, {}));
      var t := Step(s, Retiring(order));
      RetireAllFaces(u, order);
      RetireAllLetsGo(u, order);
      assert StaysLetGo(s, t) by { SameTables(s, u, RetireAll(u, order), t); }
      forall v | v in t.infos ensures SomewhereIs(t, v) {
        assert SomewhereIs(s, v);
      }
      forall v | v in Leaving(t, t.state.candidate) ensures LetGo(t, v) {
        assert v in order;
        SameTables(s, u, RetireAll(u, order), t);
      }
    }
  }

  lemma SameTables(s: Runtime, u: Runtime, v: Runtime, t: Runtime)
    requires u.closes == s.closes && u.retired == s.retired && StaysLetGo(u, v) && t.closes == v.closes && t.retired == v.retired
    ensures StaysLetGo(s, t) && forall x :: LetGo(v, x) <==> LetGo(t, x)
  {
    forall x | LetGo(s, x) ensures LetGo(t, x) {
      assert LetGo(u, x) && LetGo(v, x);
    }
  }

  lemma ReleasingAccounts(s: Runtime, x: SnapshotId, order: seq<UnitId>)
    requires Inv(s) && Accounted(s)
    ensures Accounted(Step(s, Releasing(x, order)))
  {
    hide Inv, UnpinAll, LetGo, Lists;
    ClosingsKnown(s);
    var u := s.(snapshots := s.snapshots - {x});
    UnpinAllFaces(u, order);
    UnpinAllLetsGo(u, order);
    SameTables(s, u, UnpinAll(u, order), UnpinAll(u, order));
    SameAccounts(s, Release(s, x, order));
  }

  lemma AbortingAccounts(s: Runtime, order: seq<UnitId>)
    requires Inv(s) && Accounted(s)
    ensures Accounted(Step(s, Aborting(order)))
  {
    hide Inv;
    if s.state.Pending? && Lists(order, Added(s.state.candidate)) {
      var t := Abandon(s, order);
      forall u | u in t.infos ensures SomewhereIs(t, u) {
        assert SomewhereIs(s, u);
        if u in Coming(s.state) { assert u in order; }
      }
    }
  }

  lemma CommitAccounts(s: Runtime, e: Event)
    requires Inv(s) && Accounted(s) && s.hosted && (e.Committing? || e.Publishing?)
    ensures Accounted(Step(s, e))
  {
    hide Inv, IsAffected, Affected, Described;
    if Publishes(s, e) {
      FacesStep(s, e);
      PublishAccounts(s, Proposal(s.state).value);
    } else if e.Committing? && s.state.Pending? {
      CommitPublishes(s, e);
      SameAccounts(s, Step(s, e));
    }
  }

  lemma AccountsStep(s: Runtime, e: Event)
    requires Inv(s) && Accounted(s) && s.hosted
    ensures Accounted(Step(s, e)) && Step(s, e).hosted
  {
    hide Inv, Accounted, RetireAll, UnpinAll, Prepared, Commit, Lists, Sound, Validates, Reaches, Described, Leaving, Closure, Pin, LetGo;
    StaysHosted(s, e);
    match e
    case Committing => CommitAccounts(s, e);
    case Publishing => CommitAccounts(s, e);
    case Retiring(order) => RetiringAccounts(s, order);
    case Releasing(x, order) => ReleasingAccounts(s, x, order);
    case Aborting(order) => AbortingAccounts(s, order);
    case Finishing(_) =>
      if s.state.Preparing? {
        if e.intact && Sound(s, s.state.build) { PreparedAccounts(s, s.state.build); } else { QuietAccounts(s, e); }
      }
    case _ => QuietAccounts(s, e);
  }

  lemma QuietAccounts(s: Runtime, e: Event)
    requires Accounted(s)
    requires e.Calling? || e.Returning? || e.Capturing? || e.Recapturing? || e.Disposed? || e.Closing? || e.Beginning?
             || (e.Finishing? && s.state.Preparing? && !(e.intact && Sound(s, s.state.build)))
    ensures Accounted(Step(s, e))
  {
    hide Accounted, Lists, Reaches, Described, Closure, Pin, Sound, Validates;
    SameAccounts(s, Step(s, e));
  }

  lemma StaysHosted(s: Runtime, e: Event)
    ensures Step(s, e).hosted == s.hosted
  {
    hide RetireAll, UnpinAll, Lists, Sound, Validates, Reaches, Described, Leaving, Closure, Pin, FinalUnits, FinalInfos;
    match e
    case Retiring(order) => if s.state.Draining? { RetireAllFaces(s.(state := Disposing(s.state.candidate, {})), order); }
    case Releasing(x, order) => UnpinAllFaces(s.(snapshots := s.snapshots - {x}), order);
    case _ =>
  }

  lemma {:induction false} RunAccounts(events: seq<Event>)
    ensures Accounted(Reached(true, events)) && Reached(true, events).hosted
  {
    hide Inv, Step, Accounted;
    if events == [] {
      NothingToAccount();
    } else {
      RunAccounts(events[..|events| - 1]);
      ReachedOk(true, events[..|events| - 1]);
      AccountsStep(Reached(true, events[..|events| - 1]), events[|events| - 1]);
    }
  }

  lemma NothingToAccount()
    ensures Accounted(Init(true))
  {
  }

  /** No instance of a hosted runtime is lost: over any run each one ever prepared is active, or about to
      be, or has been closed, or is retired, and then, until the runtime itself ends, some captured
      callback still holds it. */
  lemma InstancesAreAccountedFor(events: seq<Event>, u: UnitId)
    requires u in Reached(true, events).infos
    ensures var s := Reached(true, events);
            || u in s.units.Values || u in Coming(s.state) || u in s.closes
            || (u in s.retired && (s.aborted || exists x :: x in s.snapshots && u in s.snapshots[x].Values))
  {
    hide Reached, StateOk, LinksResolve, ActiveOk, ComingOk, CallsOk, Coherent;
    ReachedOk(true, events);
    RunAccounts(events);
    var s := Reached(true, events);
    assert SomewhereIs(s, u);
    if u in s.pins {
      var x :| x in Holders(s.snapshots, u);
    }
  }

  /* ---------- what a publication waits for ---------- */

  lemma {:induction false} RetireAllDisposes(s: Runtime, us: seq<UnitId>, u: UnitId)
    ensures u in RetireAll(s, us).disposals <==> u in s.disposals || (u in us && u !in s.pins)
  {
    hide Retire;
    if us != [] {
      var rest, last := us[..|us| - 1], us[|us| - 1];
      assert us == rest + [last];
      RetireAllDisposes(s, rest, u);
      RetireAllFaces(s, rest);
      RetireAllPins(s, rest);
      RetireDisposes(RetireAll(s, rest), last);
    }
  }

  lemma {:induction false} RetireAllPins(s: Runtime, us: seq<UnitId>)
    ensures RetireAll(s, us).pins == s.pins
  {
    hide Retire;
    if us != [] {
      RetireAllPins(s, us[..|us| - 1]);
      RetireSame(RetireAll(s, us[..|us| - 1]), us[|us| - 1]);
    }
  }

  lemma RetireDisposes(s: Runtime, u: UnitId)
    ensures Retire(s, u).disposals == if u in s.pins || u in s.disposals then s.disposals else s.disposals + {u}
  {
    if u in s.pins {
    } else if u in s.disposals {
    } else {
      assert Retire(s, u) == s.(retired := s.retired - {u}, disposals := s.disposals + {u}, closes := s.closes + [u]);
    }
  }

  /** When retirement begins, the publication waits for exactly the replaced instances that no callback
      holds; it goes on once each of them has been disposed of, whatever else is being closed by then. */
  lemma RetirementAwaitsTheUnheld(hosted: bool, events: seq<Event>, order: seq<UnitId>, u: UnitId)
    requires var s, t := Reached(hosted, events), Reached(hosted, events + [Retiring(order)]);
             s.state.Draining? && t.state.Disposing?
    ensures var s, t := Reached(hosted, events), Reached(hosted, events + [Retiring(order)]);
            && t.state.candidate == s.state.candidate
            && (u in t.state.closing <==>
                  && (exists n :: n in s.units && n in s.state.candidate.replaced && s.units[n] == u)
                  && forall x :: x in s.snapshots ==> u !in s.snapshots[x].Values)
  {
    hide Inv, RetireAll, Reached;
    var s, c := Reached(hosted, events), Reached(hosted, events).state.candidate;
    ReachedOk(hosted, events);
    ReachedNext(hosted, events, Retiring(order));
    var w := s.(state := Disposing(c, {}));
    RetireAllFaces(w, order);
    RetireAllDisposes(w, order, u);
    SameLeavers(s, RetireAll(w, order), c);
    HeldOrNot(s, u);
    assert u in Leaving(s, c) <==> u in order;
  }

  lemma SameLeavers(s: Runtime, t: Runtime, c: Candidate)
    requires t.units == s.units
    ensures Leaving(t, c) == Leaving(s, c)
  {
  }

  lemma HeldOrNot(s: Runtime, u: UnitId)
    requires Inv(s)
    ensures u in s.pins <==> exists x :: x in s.snapshots && u in s.snapshots[x].Values
    ensures u in s.pins ==> u !in s.disposals
  {
    hide StateOk, LinksResolve, ActiveOk, ComingOk, CallsOk, Coherent;
    assert u in s.pins <==> Holders(s.snapshots, u) != {};
    if Holders(s.snapshots, u) != {} {
      var y :| y in Holders(s.snapshots, u);
    }
    if y :| y in s.snapshots && u in s.snapshots[y].Values {
      assert y in Holders(s.snapshots, u);
    }
  }

  /* ---------- what a link needs ---------- */

  /** The one export of this name. */
  ghost predicate Sole(exports: seq<Export>, name: string, k: nat) {
    k < |exports| && exports[k].name == name && forall j :: 0 <= j < |exports| && j != k ==> exports[j].name != name
  }

  lemma {:induction false} NamedOnce(exports: seq<Export>, name: string, k: nat)
    requires Sole(exports, name, k)
    ensures Named(exports, name) == [exports[k]]
  {
    if k == 0 {
      NamedNone(exports[1..], name);
    } else {
      NamedOnce(exports[1..], name, k - 1);
    }
  }

  lemma {:induction false} NamedNone(exports: seq<Export>, name: string)
    requires forall e :: e in exports ==> e.name != name
    ensures Named(exports, name) == []
  {
    if exports != [] { NamedNone(exports[1..], name); }
  }

  lemma {:induction false} NamedOne(exports: seq<Export>, name: string) returns (k: nat)
    requires |Named(exports, name)| == 1
    ensures Sole(exports, name, k)
  {
    if exports[0].name == name {
      k := 0;
      forall j | 1 <= j < |exports| ensures exports[j].name != name {
        assert exports[1..][j - 1] == exports[j];
        assert Named(exports[1..], name) == [] && exports[j] in exports[1..];
      }
    } else {
      k := NamedOne(exports[1..], name);
      k := k + 1;
      assert forall j :: 1 <= j < |exports| ==> exports[j] == exports[1..][j - 1];
    }
  }

  /** A link is met by the one export of its name, when that has the layout of the link, and suspends
      exactly if the link does; two exports of one name meet none. */
  lemma LinksNeedOneExport(provider: UnitInfo, link: Link)
    ensures Matches(provider, link) <==>
            exists k: nat :: Sole(provider.exports, link.name, k) && provider.exports[k] == Export(link.name, Some(link.layout), link.suspends)
  {
    hide Named;
    var exports := provider.exports;
    if Matches(provider, link) {
      var k := NamedOne(exports, link.name);
      NamedOnce(exports, link.name, k);
      SoleName(exports, link.name, k);
    }
    if k: nat :| Sole(exports, link.name, k) && exports[k] == Export(link.name, Some(link.layout), link.suspends) {
      NamedOnce(exports, link.name, k);
    }
  }

  lemma SoleName(exports: seq<Export>, name: string, k: nat)
    requires Sole(exports, name, k)
    ensures k < |exports| && exports[k].name == name
  {
  }
}
