/** The development runtime. Every method is the step of `DevelopmentProtocol` that it names; the
    loops are those of link resolution, of the affected units and of the snapshot's dependencies. */
module DevelopmentRuntimes {
  import opened DevelopmentProtocol
  import opened DevelopmentRuns

  /* ---------- the worklists ---------- */

  predicate LinksInto(infos: map<UnitName, UnitInfo>, n: UnitName, names: set<UnitName>) {
    n in infos && exists l :: l in infos[n].links && l.provider in names
  }

  /** A set that holds the replaced names and everything that links into it holds all affected units. */
  lemma {:induction false} ClosedHoldsChain(infos: map<UnitName, UnitInfo>, names: set<UnitName>, p: seq<UnitName>)
    requires (forall n :: n in infos && LinksInto(infos, n, names) ==> n in names) && Chain(infos, p) && p[|p| - 1] in names
    ensures p[0] in names
    decreases |p|
  {
    if |p| > 1 {
      var rest := p[1..];
      forall i | 0 <= i < |rest| - 1 ensures LinksTo(infos, rest[i], rest[i + 1]) {
        assert LinksTo(infos, p[i + 1], p[i + 2]);
      }
      ClosedHoldsChain(infos, names, rest);
      assert LinksTo(infos, p[0], p[1]);
      assert LinksInto(infos, p[0], names);
    }
  }

  lemma ClosedIsAffected(infos: map<UnitName, UnitInfo>, replaced: set<UnitName>, names: set<UnitName>)
    requires replaced <= names <= Affected(infos, replaced)
    requires forall n :: n in infos && LinksInto(infos, n, names) ==> n in names
    ensures names == Affected(infos, replaced)
  {
    forall n | n in infos && IsAffected(infos, replaced, n) ensures n in names {
      var r :| r in replaced && Reaches(infos, n, r);
      var p :| Chain(infos, p) && p[0] == n && p[|p| - 1] == r;
      ClosedHoldsChain(infos, names, p);
    }
  }

  lemma LinksIntoAffected(infos: map<UnitName, UnitInfo>, replaced: set<UnitName>, names: set<UnitName>, n: UnitName)
    requires names <= Affected(infos, replaced) && LinksInto(infos, n, names)
    ensures n in Affected(infos, replaced)
  {
    var l :| l in infos[n].links && l.provider in names;
    assert LinksTo(infos, n, l.provider);
    LinkReaches(infos, n, l.provider);
    AffectedBack(infos, replaced, n, l.provider);
  }

  /** The drain loop: passes over the active units until one adds nothing. */
  method FindAffected(infos: map<UnitName, UnitInfo>, replaced: set<UnitName>) returns (affected: set<UnitName>)
    ensures affected == Affected(infos, replaced)
  {
    hide Affected;
    affected := replaced;
    ReplacedAffected(infos, replaced);
    var growing := true;
    while growing
      invariant replaced <= affected <= Affected(infos, replaced) && affected <= replaced + infos.Keys
      invariant growing || forall n :: n in infos && LinksInto(infos, n, affected) ==> n in affected
      decreases growing, |replaced + infos.Keys - affected|
    {
      var before := affected;
      var rest := infos.Keys;
      while rest != {}
        invariant rest <= infos.Keys && before <= affected <= Affected(infos, replaced) && affected <= replaced + infos.Keys
        invariant forall n :: n in infos && n !in rest && LinksInto(infos, n, before) ==> n in affected
        decreases |rest|
      {
        var n :| n in rest;
        if LinksInto(infos, n, affected) {
          LinksIntoAffected(infos, replaced, affected, n);
          affected := affected + {n};
        } else {
          assert !LinksInto(infos, n, before);
        }
        rest := rest - {n};
      }
      growing := before != affected;
      if growing {
        FewerLeft(before, affected, replaced + infos.Keys);
      }
    }
    ClosedIsAffected(infos, replaced, affected);
  }

  lemma ReplacedAffected(infos: map<UnitName, UnitInfo>, replaced: set<UnitName>)
    ensures replaced <= Affected(infos, replaced)
  {
  }

  lemma FewerLeft<T>(before: set<T>, after: set<T>, all: set<T>)
    requires before <= after <= all && before != after
    ensures |all - after| < |all - before|
  {
    assert after == before + (after - before);
    var x :| x in after - before;
    assert all - after <= all - before - {x};
    SubsetSize(all - after, all - before - {x});
  }

  lemma {:induction false} SubsetSize<T>(a: set<T>, b: set<T>)
    requires a <= b
    ensures |a| <= |b|
  {
    if a != {} {
      var x :| x in a;
      SubsetSize(a - {x}, b - {x});
    }
  }

  lemma {:induction false} ClosureIsLeast(infos: map<UnitName, UnitInfo>, kept: set<UnitName>, p: seq<UnitName>)
    requires Chain(infos, p) && p[0] in kept
    requires forall n, l :: n in kept && n in infos && l in infos[n].links ==> l.provider in kept
    ensures p[|p| - 1] in kept
    decreases |p|
  {
    if |p| > 1 {
      assert LinksTo(infos, p[0], p[1]);
      var rest := p[1..];
      forall i | 0 <= i < |rest| - 1 ensures LinksTo(infos, rest[i], rest[i + 1]) {
        assert LinksTo(infos, p[i + 1], p[i + 2]);
      }
      ClosureIsLeast(infos, kept, rest);
    }
  }

  function Providers(links: seq<Link>): (r: seq<UnitName>)
    ensures |r| == |links| && forall i :: 0 <= i < |r| ==> r[i] == links[i].provider
  {
    seq(|links|, i requires 0 <= i < |links| => links[i].provider)
  }

  /** What the snapshot loop has kept so far: reached units, each from the given providers. */
  ghost predicate Kept(providers: map<UnitName, UnitId>, infos: map<UnitId, UnitInfo>, entry: UnitName, kept: map<UnitName, UnitId>) {
    forall n :: n in kept ==> n in providers && kept[n] == providers[n] && Reaches(Described(providers, infos), entry, n)
  }

  ghost predicate Waiting(providers: map<UnitName, UnitId>, infos: map<UnitId, UnitInfo>, entry: UnitName, pending: seq<UnitName>) {
    forall n :: n in pending ==> n in providers && Reaches(Described(providers, infos), entry, n)
  }

  /** What kept units link to is kept or waiting. */
  ghost predicate Covered(infos: map<UnitName, UnitInfo>, kept: set<UnitName>, pending: seq<UnitName>) {
    forall n, l :: n in kept && n in infos && l in infos[n].links ==> l.provider in kept || l.provider in pending
  }

  /** One turn of the snapshot loop, for a unit that was not kept yet. */
  lemma Visit(providers: map<UnitName, UnitId>, infos: map<UnitId, UnitInfo>, entry: UnitName, kept: map<UnitName, UnitId>,
              pending: seq<UnitName>, name: UnitName)
    requires Coherent(providers, infos) && Kept(providers, infos, entry, kept) && Waiting(providers, infos, entry, pending + [name])
    requires Covered(Described(providers, infos), kept.Keys, pending + [name])
    ensures name in providers && providers[name] in infos
    ensures var next := pending + Providers(infos[providers[name]].links);
            && Kept(providers, infos, entry, kept[name := providers[name]])
            && Waiting(providers, infos, entry, next)
            && Covered(Described(providers, infos), kept.Keys + {name}, next)
  {
    hide Coherent, Reaches, Described;
    var all := Described(providers, infos);
    assert name in pending + [name];
    Known(providers, infos, name);
    var links := infos[providers[name]].links;
    var next := pending + Providers(links);
    forall l | l in links ensures l.provider in next {
      var i :| 0 <= i < |links| && links[i] == l;
      assert Providers(links)[i] == l.provider;
    }
    forall n | n in next ensures n in providers && Reaches(all, entry, n) {
      if n in Providers(links) {
        var i :| 0 <= i < |links| && Providers(links)[i] == n;
        LinkedKnown(providers, infos, name, links[i]);
        LinkReaches(all, name, n);
        ReachesOn(all, entry, name, n);
      } else {
        assert n in pending + [name];
      }
    }
  }

  lemma AlreadyKept(infos: map<UnitName, UnitInfo>, kept: set<UnitName>, pending: seq<UnitName>, name: UnitName)
    requires Covered(infos, kept, pending + [name]) && name in kept
    ensures Covered(infos, kept, pending)
  {
  }

  /** The snapshot loop: the entry unit and what it links to, each from the given providers. None
      when the entry is not there; a missing dependency is excluded by coherent providers. */
  method Dependencies(providers: map<UnitName, UnitId>, infos: map<UnitId, UnitInfo>, entry: UnitName)
    returns (found: Option<map<UnitName, UnitId>>)
    requires Coherent(providers, infos)
    ensures found.Some? <==> entry in providers
    ensures found.Some? ==> found.value == Closure(providers, infos, entry)
  {
    hide Coherent, Reaches, Closure, Kept, Waiting, Covered, Described;
    var kept: map<UnitName, UnitId> := map[];
    var pending := [entry];
    if entry !in providers { return None; }
    FirstTurn(providers, infos, entry);
    while pending != []
      invariant Kept(providers, infos, entry, kept) && Waiting(providers, infos, entry, pending)
      invariant Covered(Described(providers, infos), kept.Keys, pending)
      invariant entry in kept || entry in pending
      decreases |providers.Keys - kept.Keys|, |pending|
    {
      var name := pending[|pending| - 1];
      SplitLast(pending);
      pending := pending[..|pending| - 1];
      if name in kept {
        AlreadyKept(Described(providers, infos), kept.Keys, pending, name);
        StillWaiting(providers, infos, entry, pending, name);
      } else {
        Visit(providers, infos, entry, kept, pending, name);
        KeptInside(providers, infos, entry, kept);
        FewerLeft(kept.Keys, kept.Keys + {name}, providers.Keys);
        assert kept[name := providers[name]].Keys == kept.Keys + {name};
        kept := kept[name := providers[name]];
        pending := pending + Providers(infos[providers[name]].links);
      }
    }
    KeptIsClosure(providers, infos, entry, kept);
    found := Some(kept);
  }

  lemma SplitLast<T>(s: seq<T>)
    requires s != []
    ensures s == s[..|s| - 1] + [s[|s| - 1]]
  {
  }

  lemma FirstTurn(providers: map<UnitName, UnitId>, infos: map<UnitId, UnitInfo>, entry: UnitName)
    requires entry in providers
    ensures Kept(providers, infos, entry, map[]) && Waiting(providers, infos, entry, [entry])
    ensures Covered(Described(providers, infos), {}, [entry])
  {
    hide Reaches;
    ReachesItself(Described(providers, infos), entry);
  }

  lemma StillWaiting(providers: map<UnitName, UnitId>, infos: map<UnitId, UnitInfo>, entry: UnitName, pending: seq<UnitName>, name: UnitName)
    requires Waiting(providers, infos, entry, pending + [name])
    ensures Waiting(providers, infos, entry, pending)
  {
    hide Reaches;
    forall n | n in pending ensures n in providers && Reaches(Described(providers, infos), entry, n) {
      assert n in pending + [name];
    }
  }

  lemma KeptInside(providers: map<UnitName, UnitId>, infos: map<UnitId, UnitInfo>, entry: UnitName, kept: map<UnitName, UnitId>)
    requires Kept(providers, infos, entry, kept)
    ensures kept.Keys <= providers.Keys
  {
  }

  lemma Known(providers: map<UnitName, UnitId>, infos: map<UnitId, UnitInfo>, n: UnitName)
    requires Coherent(providers, infos) && n in providers
    ensures providers[n] in infos && n in Described(providers, infos) && Described(providers, infos)[n] == infos[providers[n]]
  {
  }

  lemma LinkedKnown(providers: map<UnitName, UnitId>, infos: map<UnitId, UnitInfo>, n: UnitName, l: Link)
    requires Coherent(providers, infos) && n in providers && providers[n] in infos && l in infos[providers[n]].links
    ensures l.provider in providers && LinksTo(Described(providers, infos), n, l.provider)
  {
    assert n in Described(providers, infos);
    assert Resolves(Described(providers, infos), l);
  }

  lemma KeptIsClosure(providers: map<UnitName, UnitId>, infos: map<UnitId, UnitInfo>, entry: UnitName, kept: map<UnitName, UnitId>)
    requires Kept(providers, infos, entry, kept) && entry in kept && Covered(Described(providers, infos), kept.Keys, [])
    ensures kept == Closure(providers, infos, entry)
  {
    var all := Described(providers, infos);
    forall n | n in providers && Reaches(all, entry, n) ensures n in kept {
      var p :| Chain(all, p) && p[0] == entry && p[|p| - 1] == n;
      ClosureIsLeast(all, kept.Keys, p);
    }
    assert kept == Closure(providers, infos, entry);
  }

  /** Some order of a set of units, each once. */
  method InOrder(units: set<UnitId>) returns (order: seq<UnitId>)
    ensures Lists(order, units)
  {
    order := [];
    var rest := units;
    while rest != {}
      invariant rest <= units && |order| + |rest| == |units| && forall x :: x in order <==> x in units && x !in rest
      decreases |rest|
    {
      var u :| u in rest;
      order := order + [u];
      rest := rest - {u};
    }
  }

  /* ---------- the declared edges ---------- */

  lemma {:induction false} DerivedBy(infos: map<UnitName, UnitInfo>, n: UnitName)
    requires n in infos
    ensures DerivedEdges(infos) == multiset(LinkEdges(n, infos[n].links)) + DerivedEdges(infos - {n})
    decreases |infos|
  {
    hide LinkEdges;
    var m :| m in infos && DerivedEdges(infos) == multiset(LinkEdges(m, infos[m].links)) + DerivedEdges(infos - {m});
    if m != n {
      RemoveSmaller(infos, m);
      RemoveSmaller(infos, n);
      DerivedBy(infos - {m}, n);
      DerivedBy(infos - {n}, m);
      assert infos - {m} - {n} == infos - {n} - {m};
    }
  }

  /** Every link is resolved and every edge derived, unit by unit. */
  method CheckLinks(final: map<UnitName, UnitInfo>, edges: seq<Edge>) returns (sound: bool)
    ensures sound <==> LinksResolve(final) && multiset(edges) == DerivedEdges(final)
  {
    hide DerivedEdges, Resolves, LinkEdges;
    var derived: seq<Edge> := [];
    var rest := final;
    NoEdges();
    sound := true;
    assert final.Keys - final.Keys == {};
    while rest != map[]
      invariant rest.Keys <= final.Keys && (forall n :: n in rest ==> rest[n] == final[n])
      invariant multiset(derived) + DerivedEdges(rest) == DerivedEdges(final)
      invariant sound <==> forall n :: n in final && n !in rest ==> forall l :: l in final[n].links ==> Resolves(final, l)
      decreases |rest|
    {
      NonEmpty(rest);
      var consumer :| consumer in rest;
      DerivedBy(rest, consumer);
      RemoveSmaller(rest, consumer);
      if !AllResolve(final, rest[consumer].links) {
        sound := false;
      }
      derived := derived + LinkEdges(consumer, rest[consumer].links);
      rest := rest - {consumer};
    }
    sound := sound && multiset(edges) == multiset(derived);
  }

  lemma NoEdges()
    ensures DerivedEdges(map[]) == multiset{}
  {
  }

  lemma NonEmpty<K, V>(m: map<K, V>)
    ensures m.Keys == {} ==> m == map[]
  {
  }

  predicate AllResolve(final: map<UnitName, UnitInfo>, links: seq<Link>) {
    forall l :: l in links ==> Resolves(final, l)
  }

  class DevelopmentRuntime {
    const hosted: bool
    var infos: map<UnitId, UnitInfo>
    var units: map<UnitName, UnitId>
    var entry: Option<UnitName>
    var revision: Option<nat>
    var state: State
    var blocked: set<UnitName>
    var calls: map<CallId, UnitName>
    var snapshots: map<SnapshotId, map<UnitName, UnitId>>
    var pins: map<UnitId, nat>
    var retired: set<UnitId>
    var disposals: set<UnitId>
    var closes: seq<UnitId>
    var aborted: bool
    var next: nat

    function View(): Runtime
      reads this
    {
      Runtime(hosted, infos, units, entry, revision, state, blocked, calls, snapshots, pins, retired, disposals, closes, aborted, next)
    }

    ghost predicate Valid()
      reads this
    {
      Inv(View())
    }

    constructor (hosted: bool)
      ensures Valid() && View() == Init(hosted)
    {
      this.hosted := hosted;
      infos, units, entry, revision, state, blocked := map[], map[], None, None, Ready, {};
      calls, snapshots, pins, retired, disposals, closes, aborted, next := map[], map[], map[], {}, {}, [], false, 0;
      new;
      InitOk(hosted);
    }

    method BeginPreparation(build: Build) returns (accepted: bool)
      requires Valid()
      modifies this
      ensures Valid() && View() == Step(old(View()), Beginning(build)) && accepted == (old(state) == Ready && !old(aborted) && Validates(old(View()), build))
    {
      hide Inv;
      StepKeeps(View(), Beginning(build));
      if state != Ready || aborted { return false; }
      if !Validates(View(), build) { return false; }
      state := Preparing(build);
      accepted := true;
    }

    /** `intact`: digests, embedded manifests and instantiation were all in order. */
    method FinishPreparation(intact: bool) returns (prepared: bool)
      requires Valid() && state.Preparing?
      modifies this
      ensures Valid() && View() == Step(old(View()), Finishing(intact)) && prepared == state.Pending?
    {
      hide Inv, LinksResolve, DerivedEdges, FinalUnits, FinalInfos;
      StepKeeps(View(), Finishing(intact));
      var build := state.build;
      var sound := CheckLinks(Described(FinalUnits(View(), build), FinalInfos(View(), build)), build.edges);
      if !intact || !sound {
        state := Ready;
        return false;
      }
      var candidate := Candidate(FinalUnits(View(), build), build.entry, build.revision, Names(build.changed) + (set n | n in build.removed));
      infos, next := FinalInfos(View(), build), next + |build.changed|;
      state := Pending(candidate);
      prepared := true;
    }

    /** Publishes at once when nothing has to drain. */
    method CommitActivation() returns (published: bool)
      requires Valid() && state.Pending?
      modifies this
      ensures Valid() && View() == Step(old(View()), Committing) && published == state.Ready?
      ensures published ==> var candidate := old(state).candidate;
                units == candidate.units && entry == Some(candidate.entry) && revision == Some(candidate.revision) && blocked == {}
      ensures !published ==>
                && units == old(units) && entry == old(entry) && revision == old(revision)
                && state.Draining? && state.candidate == old(state).candidate
    {
      hide Inv, Step, Commit;
      StepKeeps(View(), Committing);
      StepCommits(View());
      published := Commits(state.candidate);
    }

    method Commits(candidate: Candidate) returns (published: bool)
      modifies this
      ensures View() == Commit(old(View()), candidate)
      ensures if published then View() == Publish(old(View()), candidate)
              else state.Draining? && state.candidate == candidate && units == old(units) && entry == old(entry) && revision == old(revision)
    {
      hide Affected, Described, Leaving;
      var affected := FindAffected(Described(units, infos), candidate.replaced);
      var awaited := set i | i in calls && calls[i] in affected;
      if awaited == {} && (!hosted || Leaving(View(), candidate) == {}) {
        Published(candidate);
        return true;
      }
      state, blocked := Draining(candidate, awaited), affected;
      published := false;
    }

    lemma StepCommits(s: Runtime)
      requires s.state.Pending?
      ensures Step(s, Committing) == Commit(s, s.state.candidate)
    {
      hide Commit;
    }

    method Published(candidate: Candidate)
      modifies this
      ensures View() == Publish(old(View()), candidate)
    {
      units, entry, revision := candidate.units, Some(candidate.entry), Some(candidate.revision);
      blocked, state := {}, Ready;
    }

    /** The awaited calls have ended: the replaced units retire. */
    method RetireReplaced() returns (ghost order: seq<UnitId>)
      requires Valid() && state.Draining? && state.awaited !! calls.Keys
      modifies this
      ensures Valid() && View() == Step(old(View()), Retiring(order)) && state.Disposing?
    {
      hide Inv, Retire, Lists, Leaving;
      ghost var s := View();
      var leaving := InOrder(Leaving(View(), state.candidate));
      order := leaving;
      StepKeeps(s, Retiring(order));
      state := Disposing(state.candidate, {});
      ghost var start := View();
      for i := 0 to |leaving|
        invariant View() == RetireAll(start, leaving[..i])
      {
        assert leaving[..i + 1][..i] == leaving[..i];
        RetireUnit(leaving[i]);
      }
      assert leaving[..|leaving|] == leaving;
      RetireAllState(start, leaving);
      state := state.(closing := Leaving(View(), state.candidate) * disposals);
    }

    lemma {:induction false} RetireAllState(s: Runtime, us: seq<UnitId>)
      ensures RetireAll(s, us).state == s.state
    {
      hide Retire;
      if us != [] {
        RetireAllState(s, us[..|us| - 1]);
        RetireSame(RetireAll(s, us[..|us| - 1]), us[|us| - 1]);
      }
    }

    method RetireUnit(u: UnitId)
      modifies `retired, `disposals, `closes
      ensures View() == Retire(old(View()), u)
    {
      if u in pins {
        retired := retired + {u};
        return;
      }
      retired := retired - {u};
      if u in disposals { return; }
      disposals, closes := disposals + {u}, closes + [u];
    }

    /** The closings that retirement began have settled; later ones, of units released since, may go on. */
    method PublishReplacement()
      requires Valid() && state.Disposing? && state.closing !! disposals
      modifies this
      ensures Valid() && View() == Step(old(View()), Publishing)
      ensures var candidate := old(state).candidate;
              && units == candidate.units && entry == Some(candidate.entry) && revision == Some(candidate.revision)
              && blocked == {} && state == Ready
      ensures infos == old(infos) && calls == old(calls) && snapshots == old(snapshots) && closes == old(closes)
    {
      hide Inv;
      StepKeeps(View(), Publishing);
      Published(state.candidate);
    }

    /** The candidate is abandoned: the instances that it would have added are closed. */
    method AbortActivation() returns (ghost order: seq<UnitId>)
      requires Valid() && state.Pending?
      modifies this
      ensures Valid() && View() == Step(old(View()), Aborting(order)) && units == old(units) && revision == old(revision)
      ensures closes == old(closes) + order && forall u :: u in order <==> u in Added(old(state).candidate)
    {
      hide Inv, Lists;
      var added := InOrder(Added(state.candidate));
      order := added;
      Listing(order, Added(state.candidate));
      StepKeeps(View(), Aborting(order));
      state := Ready;
      closes := closes + added;
    }

    lemma Listing(order: seq<UnitId>, elements: set<UnitId>)
      requires Lists(order, elements)
      ensures forall u :: u in order <==> u in elements
    {
    }

    /** Admits a call into an active unit, unless it is draining. */
    method CallAsync(unit: UnitName) returns (call: Option<CallId>)
      requires Valid()
      modifies this
      ensures Valid() && View() == Step(old(View()), Calling(unit))
      ensures call.Some? <==> !old(aborted) && hosted && unit in old(units) && unit !in old(blocked)
    {
      hide Inv;
      StepKeeps(View(), Calling(unit));
      if unit in blocked || aborted || unit !in units || !hosted { return None; }
      call := Some(next);
      calls, next := calls[next := unit], next + 1;
    }

    method Returned(call: CallId)
      requires Valid()
      modifies this
      ensures Valid() && View() == Step(old(View()), Returning(call))
    {
      hide Inv;
      StepKeeps(View(), Returning(call));
      calls := calls - {call};
    }

    /** A callback captured by a running call. */
    method Snapshot(call: CallId, entryUnit: UnitName) returns (snapshot: SnapshotId, ghost order: seq<UnitId>)
      requires Valid() && call in calls && Reaches(Described(units, infos), calls[call], entryUnit)
      modifies this
      ensures Valid() && View() == Step(old(View()), Capturing(call, entryUnit, order))
      ensures snapshot in snapshots && snapshots[snapshot] == Closure(old(units), old(infos), entryUnit)
      ensures forall u :: u in snapshots[snapshot].Values ==> u in pins && u !in closes
    {
      hide Inv, Closure, Reaches, Lists, Pin;
      ghost var s := View();
      ReachedIsActive(s, call, entryUnit);
      var found := Dependencies(units, infos, entryUnit);
      var kept := found.value;
      var listed := InOrder(kept.Values);
      order := listed;
      StepKeeps(s, Capturing(call, entryUnit, order));
      snapshot := next;
      Remember(kept, listed);
      HeldAndOpen(View(), snapshot);
    }

    lemma ReachedIsActive(s: Runtime, call: CallId, entryUnit: UnitName)
      requires Inv(s) && call in s.calls && Reaches(Described(s.units, s.infos), s.calls[call], entryUnit)
      ensures Coherent(s.units, s.infos) && entryUnit in s.units
    {
      hide PinsOk, StateOk, ClosesOk, ActiveOk, ComingOk, SnapshotsOk;
      var infos := Described(s.units, s.infos);
      var p :| Chain(infos, p) && p[0] == s.calls[call] && p[|p| - 1] == entryUnit;
      ReachedIsDescribed(infos, p);
    }

    lemma HeldAndOpen(s: Runtime, x: SnapshotId)
      requires Inv(s) && x in s.snapshots
      ensures forall u :: u in s.snapshots[x].Values ==> u in s.pins && u !in s.closes
    {
      hide StateOk, PinsOk, Coherent;
      HeldOpen(s, x);
      forall u | u in s.snapshots[x].Values ensures u in s.pins {
        HeldIsPinned(s, x, u);
      }
    }

    /** Records a snapshot and pins its units. */
    method Remember(kept: map<UnitName, UnitId>, order: seq<UnitId>)
      modifies `snapshots, `pins, `next
      ensures View() == Capture(old(View()), kept, order)
    {
      hide Pin;
      ghost var s, before := View(), pins;
      snapshots := snapshots[next := kept];
      next := next + 1;
      NoPins(before, order);
      for i := 0 to |order|
        invariant pins == Pin(before, order[..i]) && View() == s.(snapshots := snapshots, next := next, pins := pins)
        invariant snapshots == s.snapshots[s.next := kept] && next == s.next + 1
      {
        PinNext(before, order, i);
        var count := if order[i] in pins then pins[order[i]] else 0;
        pins := pins[order[i] := count + 1];
      }
      assert order[..|order|] == order;
    }

    lemma NoPins(pins: map<UnitId, nat>, order: seq<UnitId>)
      ensures Pin(pins, order[..0]) == pins
    {
    }

    lemma PinNext(pins: map<UnitId, nat>, order: seq<UnitId>, i: nat)
      requires i < |order|
      ensures var now := Pin(pins, order[..i]);
              Pin(pins, order[..i + 1]) == now[order[i] := (if order[i] in now then now[order[i]] else 0) + 1]
    {
      assert order[..i + 1][..i] == order[..i];
    }

    /** A callback captured while a captured callback runs: its providers are the captured ones. */
    method SnapshotAgain(previous: SnapshotId, entryUnit: UnitName) returns (snapshot: SnapshotId, ghost order: seq<UnitId>)
      requires Valid() && previous in snapshots && entryUnit in snapshots[previous]
      modifies this
      ensures Valid() && View() == Step(old(View()), Recapturing(previous, entryUnit, order))
      ensures snapshot in snapshots && forall n :: n in snapshots[snapshot] ==>
                n in old(snapshots)[previous] && snapshots[snapshot][n] == old(snapshots)[previous][n]
    {
      hide Inv, Reaches, Lists, Pin;
      ghost var s := View();
      HeldOpen(s, previous);
      var found := Dependencies(snapshots[previous], infos, entryUnit);
      var kept := found.value;
      var listed := InOrder(kept.Values);
      order := listed;
      StepKeeps(s, Recapturing(previous, entryUnit, order));
      snapshot := next;
      Remember(kept, listed);
    }

    /** Releases a captured callback: retired units that nothing holds any more are closed. */
    method Release(snapshot: SnapshotId) returns (ghost order: seq<UnitId>)
      requires Valid() && snapshot in snapshots
      modifies this
      ensures Valid() && View() == Step(old(View()), Releasing(snapshot, order)) && snapshot !in snapshots
    {
      hide Inv, Unpin, Lists;
      ghost var s := View();
      var pinned := InOrder(snapshots[snapshot].Values);
      order := pinned;
      StepKeeps(s, Releasing(snapshot, order));
      snapshots := snapshots - {snapshot};
      ghost var start := View();
      for i := 0 to |pinned|
        invariant View() == UnpinAll(start, pinned[..i])
      {
        assert pinned[..i + 1][..i] == pinned[..i];
        UnpinUnit(pinned[i]);
      }
      assert pinned[..|pinned|] == pinned;
      UnpinAllHolds(start, pinned);
    }

    method UnpinUnit(u: UnitId)
      modifies `pins, `retired, `disposals, `closes
      ensures View() == Unpin(old(View()), u)
    {
      if u !in pins { return; }
      if pins[u] > 1 {
        pins := pins[u := pins[u] - 1];
        return;
      }
      pins := pins - {u};
      if u in retired && !aborted {
        RetireUnit(u);
      }
    }

    method Disposal(u: UnitId)
      requires Valid()
      modifies this
      ensures Valid() && View() == Step(old(View()), Disposed(u))
    {
      hide Inv;
      StepKeeps(View(), Disposed(u));
      disposals := disposals - {u};
    }

    /** The runtime's own lifetime ends. */
    method Close()
      requires Valid()
      modifies this
      ensures Valid() && View() == Step(old(View()), Closing)
    {
      hide Inv;
      StepKeeps(View(), Closing);
      aborted := true;
    }
  }
}
