/** Replacement of development units over whole runs. */
module DevelopmentRuns {
  import opened DevelopmentProtocol

  /* ---------- chains of links ---------- */

  lemma ReachesItself(infos: map<UnitName, UnitInfo>, a: UnitName)
    ensures Reaches(infos, a, a)
  {
    assert Chain(infos, [a]) && [a][0] == a;
  }

  lemma ReachesOn(infos: map<UnitName, UnitInfo>, a: UnitName, b: UnitName, c: UnitName)
    requires Reaches(infos, a, b) && Reaches(infos, b, c)
    ensures Reaches(infos, a, c)
  {
    var p :| Chain(infos, p) && p[0] == a && p[|p| - 1] == b;
    var q :| Chain(infos, q) && q[0] == b && q[|q| - 1] == c;
    var r := p + q[1..];
    forall i | 0 <= i < |r| - 1 ensures LinksTo(infos, r[i], r[i + 1]) {
      if i < |p| - 1 {
        assert LinksTo(infos, p[i], p[i + 1]);
      } else {
        var j := i - (|p| - 1);
        assert LinksTo(infos, q[j], q[j + 1]);
        assert r[i] == q[j] && r[i + 1] == q[j + 1];
      }
    }
    assert Chain(infos, r) && r[0] == a && r[|r| - 1] == c;
  }

  lemma LinkReaches(infos: map<UnitName, UnitInfo>, a: UnitName, b: UnitName)
    requires LinksTo(infos, a, b)
    ensures Reaches(infos, a, b)
  {
    assert Chain(infos, [a, b]) && [a, b][0] == a && [a, b][1] == b;
  }

  /** What is reached from a described unit is described, if links resolve. */
  lemma {:induction false} ReachedIsDescribed(infos: map<UnitName, UnitInfo>, p: seq<UnitName>)
    requires LinksResolve(infos) && Chain(infos, p) && p[0] in infos
    ensures p[|p| - 1] in infos
    decreases |p|
  {
    if |p| > 1 {
      assert LinksTo(infos, p[0], p[1]);
      var l :| l in infos[p[0]].links && l.provider == p[1];
      assert Resolves(infos, l);
      var rest := p[1..];
      forall i | 0 <= i < |rest| - 1 ensures LinksTo(infos, rest[i], rest[i + 1]) {
        assert LinksTo(infos, p[i + 1], p[i + 2]);
      }
      ReachedIsDescribed(infos, rest);
    }
  }

  /** What reaches an affected unit is affected. */
  lemma AffectedBack(infos: map<UnitName, UnitInfo>, replaced: set<UnitName>, a: UnitName, b: UnitName)
    requires a in infos && Reaches(infos, a, b) && b in Affected(infos, replaced)
    ensures a in Affected(infos, replaced)
  {
    if b in replaced {
      assert IsAffected(infos, replaced, a);
    } else {
      var r :| r in replaced && Reaches(infos, b, r);
      ReachesOn(infos, a, b, r);
      assert IsAffected(infos, replaced, a);
    }
  }

  /** The units reached from an entry are closed under links, each to the very instance of the
      providers they were taken from. */
  lemma ClosureCoherent(units: map<UnitName, UnitId>, infos: map<UnitId, UnitInfo>, entry: UnitName)
    requires Coherent(units, infos)
    ensures Coherent(Closure(units, infos, entry), infos)
  {
    var kept, all := Closure(units, infos, entry), Described(units, infos);
    var described := Described(kept, infos);
    forall n | n in described ensures forall l :: l in described[n].links ==> Resolves(described, l) {
      forall l | l in described[n].links ensures Resolves(described, l) {
        assert all[n] == described[n] && Resolves(all, l);
        assert LinksTo(all, n, l.provider);
        LinkReaches(all, n, l.provider);
        ReachesOn(all, entry, n, l.provider);
      }
    }
  }

  lemma MoreInfos(units: map<UnitName, UnitId>, infos: map<UnitId, UnitInfo>, infos': map<UnitId, UnitInfo>)
    requires Coherent(units, infos) && forall u :: u in infos ==> u in infos' && infos'[u] == infos[u]
    ensures Coherent(units, infos') && Described(units, infos') == Described(units, infos)
  {
    hide LinksResolve;
    assert Described(units, infos') == Described(units, infos);
  }

  /* ---------- preparation ---------- */

  lemma {:induction false} InstanceAt(changed: seq<UnitInfo>, next: nat, n: UnitName)
    requires n in Instances(changed, next)
    ensures var i := Instances(changed, next)[n] - next; 0 <= i < |changed| && changed[i].name == n
  {
    var last := |changed| - 1;
    if changed[last].name != n {
      InstanceAt(changed[..last], next, n);
    }
  }

  lemma PreparedUnits(s: Runtime, b: Build)
    requires NamesOk(s) && Coherent(s.units, s.infos) && Sound(s, b)
    ensures Coherent(FinalUnits(s, b), FinalInfos(s, b))
  {
    hide LinksResolve, Described, Instances;
    var units, infos := FinalUnits(s, b), FinalInfos(s, b);
    forall n | n in units ensures units[n] in infos && infos[units[n]].name == n {
      FinalUnit(s, b, n);
    }
  }

  lemma FinalUnit(s: Runtime, b: Build, n: UnitName)
    requires NamesOk(s) && Coherent(s.units, s.infos) && n in FinalUnits(s, b)
    ensures FinalUnits(s, b)[n] in FinalInfos(s, b) && FinalInfos(s, b)[FinalUnits(s, b)[n]].name == n
    ensures n in Instances(b.changed, s.next) ==> FinalUnits(s, b)[n] >= s.next
    ensures n !in Instances(b.changed, s.next) ==> n in s.units && n !in b.removed && FinalUnits(s, b)[n] == s.units[n]
  {
    hide LinksResolve, Instances;
    if n in Instances(b.changed, s.next) {
      InstanceAt(b.changed, s.next, n);
    }
  }

  lemma OldInfos(s: Runtime, b: Build)
    requires NamesOk(s)
    ensures forall u :: u in s.infos ==> u in FinalInfos(s, b) && FinalInfos(s, b)[u] == s.infos[u]
    ensures Below(FinalInfos(s, b).Keys, s.next + |b.changed|)
  {
  }

  lemma PreparedCandidate(s: Runtime, b: Build)
    requires NamesOk(s) && Coherent(s.units, s.infos) && Sound(s, b) && Validates(s, b)
    ensures var c := Prepared(s, b).state.candidate;
            CandidateOk(c, s.units, FinalInfos(s, b)) && forall u :: u in Added(c) ==> u >= s.next
  {
    hide LinksResolve, Sound, Described, FinalInfos, NewInfos, Coherent, Classified, DistinctNames;
    PreparedUnits(s, b);
    var c := Prepared(s, b).state.candidate;
    forall n | n in c.units ensures n !in c.replaced ==> n in s.units && c.units[n] == s.units[n]
                            ensures n in c.replaced ==> c.units[n] >= s.next {
      FinalUnit(s, b, n);
    }
  }

  lemma PreparedKeeps(s: Runtime, b: Build)
    requires Inv(s) && s.state == Preparing(b) && Sound(s, b)
    ensures Inv(Prepared(s, b))
  {
    hide LinksResolve, Sound, PinsOk, Validates, Coherent, CandidateOk, Affected, FinalInfos, FinalUnits;
    var t := Prepared(s, b);
    PreparedCandidate(s, b);
    OldInfos(s, b);
    MoreInfos(s.units, s.infos, t.infos);
    forall x | x in s.snapshots ensures Coherent(s.snapshots[x], t.infos) {
      MoreInfos(s.snapshots[x], s.infos, t.infos);
    }
    PinnedAreKnown(s);
    ActiveAreKnown(s);
  }

  lemma PinnedAreKnown(s: Runtime)
    requires PinsOk(s.pins, s.snapshots) && SnapshotsOk(s.snapshots, s.infos)
    ensures forall u :: u in s.pins ==> u in s.infos
  {
    forall u | u in s.pins ensures u in s.infos {
      assert Holders(s.snapshots, u) != {};
      var x :| x in Holders(s.snapshots, u);
      var n :| n in s.snapshots[x] && s.snapshots[x][n] == u;
      assert Coherent(s.snapshots[x], s.infos);
    }
  }

  lemma ActiveAreKnown(s: Runtime)
    requires Coherent(s.units, s.infos)
    ensures forall u :: u in s.units.Values ==> u in s.infos
  {
  }

  /* ---------- activation ---------- */

  lemma PublishKeeps(s: Runtime, c: Candidate)
    requires Inv(s) && (s.state == Pending(c) || (s.state.Disposing? && s.state.candidate == c))
    requires forall i :: i in s.calls ==> s.calls[i] !in c.replaced
    ensures Inv(Publish(s, c))
  {
    hide PinsOk, Coherent, SnapshotsOk, Below, ClosesOk, Affected, Described;
    var t := Publish(s, c);
    PublishedActive(s, c);
    assert CallsOk(t.calls, t.units);
  }

  lemma PublishedActive(s: Runtime, c: Candidate)
    requires CandidateOk(c, s.units, s.infos)
    requires ActiveOk(s.units, Going(s.state), s.closes, s.retired) && Going(s.state) <= c.replaced
    requires ComingOk(Added(c), s.closes, s.retired, s.units.Values, s.pins.Keys)
    ensures ActiveOk(c.units, {}, s.closes, s.retired)
  {
    hide Coherent;
    forall n | n in c.units ensures c.units[n] !in s.closes && c.units[n] !in s.retired {
      if n in c.replaced {
        assert c.units[n] in Added(c);
      }
    }
  }

  lemma CommitKeeps(s: Runtime, c: Candidate)
    requires Inv(s) && s.state == Pending(c)
    ensures Inv(Commit(s, c))
  {
    hide PinsOk, Coherent, SnapshotsOk, Below, ClosesOk, CandidateOk, Affected, Described, ActiveOk, ComingOk;
    var infos := Described(s.units, s.infos);
    var affected := Affected(infos, c.replaced);
    var awaited := AwaitedCalls(s, affected);
    if awaited == {} && (!s.hosted || Leaving(s, c) == {}) {
      forall i | i in s.calls ensures s.calls[i] !in c.replaced {
        assert i !in awaited;
        NotReplaced(infos, c.replaced, s.calls[i]);
      }
      PublishKeeps(s, c);
    }
  }

  lemma NotReplaced(infos: map<UnitName, UnitInfo>, replaced: set<UnitName>, n: UnitName)
    requires n !in Affected(infos, replaced)
    ensures n !in replaced
  {
  }

  /** A replaced instance that is not closed yet. */
  ghost predicate Retirable(s: Runtime, u: UnitId) {
    s.state.Disposing? && u in Leaving(s, s.state.candidate) && u in s.infos && u !in s.closes
  }

  lemma RetireKeeps(s: Runtime, u: UnitId)
    requires Rest(s) && Retirable(s, u)
    ensures Rest(Retire(s, u))
    ensures forall v :: v != u && Retirable(s, v) ==> Retirable(Retire(s, u), v)
    ensures Retire(s, u).pins == s.pins && Retire(s, u).snapshots == s.snapshots
  {
    hide Coherent, SnapshotsOk, Below, StateOk, CallsOk, ClosesOk, ActiveOk, ComingOk, Retire, Leaving;
    var t := Retire(s, u);
    RetireSame(s, u);
    LeavingName(s, u);
    RetireCloses(s, u);
    ActiveWith(s, t, u);
    SameState(s, t);
    assert Leaving(t, t.state.candidate) == Leaving(s, s.state.candidate) by { SameLeaving(s, t); }
  }

  lemma SameLeaving(s: Runtime, t: Runtime)
    requires t.units == s.units && t.state == s.state && (s.state.Pending? || s.state.Draining? || s.state.Disposing?)
    ensures Leaving(t, t.state.candidate) == Leaving(s, s.state.candidate)
  {
  }

  lemma RetireSame(s: Runtime, u: UnitId)
    ensures var t := Retire(s, u);
            && t == s.(retired := t.retired, disposals := t.disposals, closes := t.closes)
            && forall v :: v in t.closes || v in t.retired ==> v == u || v in s.closes || v in s.retired
    ensures forall v :: v in Retire(s, u).closes ==> v == u || v in s.closes
  {
    if u in s.pins {
    } else if u in s.disposals {
    } else {
      assert forall v :: v in s.closes + [u] ==> v == u || v in s.closes;
    }
  }

  lemma LeavingName(s: Runtime, u: UnitId)
    requires Coherent(s.units, s.infos) && Retirable(s, u)
    ensures u in s.units.Values && forall m :: m in s.units && s.units[m] == u ==> m in Going(s.state)
  {
    hide Coherent;
    var n :| n in s.units && n in s.state.candidate.replaced && s.units[n] == u;
    OneName(s, n);
  }

  /** Closing or retiring one more instance that is active under a replaced name only. */
  lemma ActiveWith(s: Runtime, t: Runtime, u: UnitId)
    requires t.units == s.units && t.state == s.state && t.pins.Keys <= s.pins.Keys
    requires u in s.units.Values && forall m :: m in s.units && s.units[m] == u ==> m in Going(s.state)
    requires forall v :: v in t.closes || v in t.retired ==> v == u || v in s.closes || v in s.retired
    requires ActiveOk(s.units, Going(s.state), s.closes, s.retired)
    requires ComingOk(Coming(s.state), s.closes, s.retired, s.units.Values, s.pins.Keys)
    ensures ActiveOk(t.units, Going(t.state), t.closes, t.retired)
    ensures ComingOk(Coming(t.state), t.closes, t.retired, t.units.Values, t.pins.Keys)
  {
  }

  lemma ActiveStill(s: Runtime, t: Runtime)
    requires t.units == s.units && t.state == s.state && t.pins.Keys <= s.pins.Keys
    requires forall v :: v in t.closes || v in t.retired ==> v in s.closes || v in s.retired
    requires ActiveOk(s.units, Going(s.state), s.closes, s.retired)
    requires ComingOk(Coming(s.state), s.closes, s.retired, s.units.Values, s.pins.Keys)
    ensures ActiveOk(t.units, Going(t.state), t.closes, t.retired)
    ensures ComingOk(Coming(t.state), t.closes, t.retired, t.units.Values, t.pins.Keys)
  {
  }

  lemma RetireCloses(s: Runtime, u: UnitId)
    requires ClosesOk(s.closes, s.disposals, s.retired, s.pins.Keys, s.infos.Keys, s.aborted) && u in s.infos && u !in s.closes
    ensures var t := Retire(s, u); ClosesOk(t.closes, t.disposals, t.retired, t.pins.Keys, t.infos.Keys, t.aborted)
  {
    assert u !in s.disposals;
    if u !in s.pins {
      assert DistinctIds(s.closes + [u]);
    }
  }

  lemma SameState(s: Runtime, t: Runtime)
    requires StateOk(s) && t.state == s.state && t.blocked == s.blocked && t.units == s.units && t.infos == s.infos
    requires t.revision == s.revision && t.calls == s.calls
    ensures StateOk(t)
  {
    hide DrainOk, CandidateOk;
  }

  lemma OneName(s: Runtime, n: UnitName)
    requires Coherent(s.units, s.infos) && n in s.units
    ensures forall m :: m in s.units && s.units[m] == s.units[n] ==> m == n
  {
    hide LinksResolve;
  }

  lemma {:induction false} RetireAllKeeps(s: Runtime, us: seq<UnitId>)
    requires Rest(s) && DistinctIds(us) && forall u :: u in us ==> Retirable(s, u)
    ensures Rest(RetireAll(s, us))
    ensures forall v :: v !in us && Retirable(s, v) ==> Retirable(RetireAll(s, us), v)
    ensures RetireAll(s, us).pins == s.pins && RetireAll(s, us).snapshots == s.snapshots
    decreases |us|
  {
    hide Rest, Retirable, Retire;
    if us != [] {
      var rest, u := us[..|us| - 1], us[|us| - 1];
      assert us == rest + [u];
      RetireAllKeeps(s, rest);
      RetireKeeps(RetireAll(s, rest), u);
    }
  }

  lemma ListedAreDistinct(order: seq<UnitId>, elements: set<UnitId>)
    requires Lists(order, elements)
    ensures DistinctIds(order)
  {
    forall i, j | 0 <= i < j < |order| ensures order[i] != order[j] {
      if order[i] == order[j] {
        var rest := order[..i] + order[i + 1..];
        assert forall x :: x in elements ==> x in rest by {
          forall x | x in elements ensures x in rest {
            var k :| 0 <= k < |order| && order[k] == x;
            if k == i { assert rest[j - 1] == x; } else if k < i { assert rest[k] == x; } else { assert rest[k - 1] == x; }
          }
        }
        SeqCovers(rest, elements);
      }
    }
  }

  lemma {:induction false} SeqCovers(s: seq<UnitId>, elements: set<UnitId>)
    requires forall x :: x in elements ==> x in s
    ensures |elements| <= |s|
    decreases |s|
  {
    if s == [] {
      assert elements == {};
    } else {
      SeqCovers(s[1..], elements - {s[0]});
    }
  }

  lemma RetiringKeeps(s: Runtime, order: seq<UnitId>)
    requires Inv(s) && s.state.Draining? && s.state.awaited !! s.calls.Keys && Lists(order, Leaving(s, s.state.candidate))
    ensures Inv(Awaiting(RetireAll(s.(state := Disposing(s.state.candidate, {})), order)))
  {
    hide PinsOk, RetireAll, Rest, Retirable, Lists, Leaving, Awaiting;
    DisposingRest(s);
    ListedAreDistinct(order, Leaving(s, s.state.candidate));
    LeavingRetirable(s, order);
    var t := s.(state := Disposing(s.state.candidate, {}));
    RetireAllKeeps(t, order);
    AwaitingRest(RetireAll(t, order));
  }

  lemma AwaitingRest(s: Runtime)
    requires Rest(s)
    ensures Rest(Awaiting(s)) && Awaiting(s).pins == s.pins && Awaiting(s).snapshots == s.snapshots
  {
    hide Coherent, SnapshotsOk, Below, Affected, ClosesOk, ComingOk, CallsOk, CandidateOk, Described, ActiveOk;
  }

  /** The instances of an abandoned candidate are closed for the first time, and nothing holds them. */
  lemma AbandonKeeps(s: Runtime, order: seq<UnitId>)
    requires Inv(s) && s.state.Pending? && Lists(order, Added(s.state.candidate))
    ensures Inv(Abandon(s, order))
  {
    hide PinsOk, Coherent, SnapshotsOk, Below, Affected, Described, Lists, CandidateOk, ClosesOk, ActiveOk, ComingOk;
    ListedAreDistinct(order, Added(s.state.candidate));
    AbandonCloses(s, order);
    AbandonActive(s, order);
  }

  lemma AbandonCloses(s: Runtime, order: seq<UnitId>)
    requires s.state.Pending? && Lists(order, Added(s.state.candidate)) && DistinctIds(order)
    requires ClosesOk(s.closes, s.disposals, s.retired, s.pins.Keys, s.infos.Keys, s.aborted)
    requires ComingOk(Added(s.state.candidate), s.closes, s.retired, s.units.Values, s.pins.Keys)
    requires CandidateOk(s.state.candidate, s.units, s.infos)
    ensures ClosesOk(s.closes + order, s.disposals, s.retired, s.pins.Keys, s.infos.Keys, s.aborted)
  {
    hide LinksResolve;
    var closes := s.closes + order;
    forall i, j | 0 <= i < j < |closes| ensures closes[i] != closes[j] {
      if i < |s.closes| <= j { assert closes[j] in order && closes[i] in s.closes; }
    }
    forall u | u in closes ensures u !in s.pins && u !in s.retired && u in s.infos {
      if u in order {
        assert u in Added(s.state.candidate);
        var n :| n in s.state.candidate.units && n in s.state.candidate.replaced && s.state.candidate.units[n] == u;
      }
    }
  }

  lemma AbandonActive(s: Runtime, order: seq<UnitId>)
    requires s.state.Pending? && Lists(order, Added(s.state.candidate))
    requires ActiveOk(s.units, {}, s.closes, s.retired)
    requires ComingOk(Added(s.state.candidate), s.closes, s.retired, s.units.Values, s.pins.Keys)
    ensures ActiveOk(s.units, {}, s.closes + order, s.retired)
    ensures ComingOk({}, s.closes + order, s.retired, s.units.Values, s.pins.Keys)
  {
    forall n | n in s.units ensures s.units[n] !in s.closes + order {
      if s.units[n] in order { assert s.units[n] in Added(s.state.candidate); }
    }
  }

  lemma DisposingRest(s: Runtime)
    requires Rest(s) && s.state.Draining? && s.state.awaited !! s.calls.Keys
    ensures Rest(s.(state := Disposing(s.state.candidate, {})))
  {
    hide Coherent, SnapshotsOk, Below, Affected, ClosesOk, ComingOk, CallsOk, CandidateOk, Described;
  }

  lemma LeavingRetirable(s: Runtime, order: seq<UnitId>)
    requires Rest(s) && s.state.Draining? && Lists(order, Leaving(s, s.state.candidate))
    ensures forall u :: u in order ==> Retirable(s.(state := Disposing(s.state.candidate, {})), u)
  {
    hide SnapshotsOk, Below, Affected, LinksResolve, StateOk, ClosesOk, ComingOk, CallsOk;
    var t := s.(state := Disposing(s.state.candidate, {}));
    forall u | u in order ensures Retirable(t, u) {
      assert u in Leaving(s, s.state.candidate);
      var n :| n in s.units && n in s.state.candidate.replaced && s.units[n] == u;
      assert Leaving(t, t.state.candidate) == Leaving(s, s.state.candidate);
    }
  }

  /* ---------- pins ---------- */

  lemma {:induction false} PinAt(pins: map<UnitId, nat>, us: seq<UnitId>, u: UnitId)
    requires DistinctIds(us)
    ensures u in Pin(pins, us) <==> u in pins || u in us
    ensures u in Pin(pins, us) ==> Pin(pins, us)[u] == (if u in pins then pins[u] else 0) + (if u in us then 1 else 0)
    decreases |us|
  {
    if us != [] {
      var rest := us[..|us| - 1];
      assert us == rest + [us[|us| - 1]];
      assert us[|us| - 1] !in rest;
      PinAt(pins, rest, u);
      PinAt(pins, rest, us[|us| - 1]);
    }
  }

  lemma CapturePins(s: Runtime, kept: map<UnitName, UnitId>, order: seq<UnitId>)
    requires PinsOk(s.pins, s.snapshots) && s.next !in s.snapshots && Lists(order, kept.Values)
    ensures PinsOk(Capture(s, kept, order).pins, Capture(s, kept, order).snapshots)
  {
    var t := Capture(s, kept, order);
    ListedAreDistinct(order, kept.Values);
    forall u ensures (u in t.pins <==> Holders(t.snapshots, u) != {}) && (u in t.pins ==> t.pins[u] == |Holders(t.snapshots, u)|) {
      PinAt(s.pins, order, u);
      if u in kept.Values {
        assert Holders(t.snapshots, u) == Holders(s.snapshots, u) + {s.next};
        assert s.next !in Holders(s.snapshots, u);
      } else {
        assert Holders(t.snapshots, u) == Holders(s.snapshots, u);
      }
    }
  }

  /** A snapshot of units that are open, and none of them about to be published. */
  lemma CaptureRest(s: Runtime, kept: map<UnitName, UnitId>, order: seq<UnitId>)
    requires Rest(s) && Coherent(kept, s.infos) && Lists(order, kept.Values)
    requires forall u :: u in order ==> u !in s.closes && u !in Coming(s.state)
    ensures Rest(Capture(s, kept, order))
  {
    hide Coherent, StateOk, CallsOk, ActiveOk, Coming, Pin;
    var t := Capture(s, kept, order);
    ListedAreDistinct(order, kept.Values);
    forall u ensures u in t.pins <==> u in s.pins || u in order {
      PinAt(s.pins, order, u);
    }
    SameState(s, t);
  }

  lemma CapturingKeeps(s: Runtime, i: CallId, entry: UnitName, order: seq<UnitId>)
    requires Inv(s) && i in s.calls && Reaches(Described(s.units, s.infos), s.calls[i], entry)
    requires Lists(order, Closure(s.units, s.infos, entry).Values)
    ensures Inv(Capture(s, Closure(s.units, s.infos, entry), order))
  {
    hide PinsOk, Closure, StateOk, ClosesOk, ActiveOk, SnapshotsOk, CallsOk, Reaches;
    var kept := Closure(s.units, s.infos, entry);
    ClosureCoherent(s.units, s.infos, entry);
    forall u | u in order ensures u !in s.closes && u !in Coming(s.state) {
      CapturedIsOpen(s, i, entry, u);
    }
    CaptureRest(s, kept, order);
    CapturePins(s, kept, order);
  }

  lemma CapturedIsOpen(s: Runtime, i: CallId, entry: UnitName, u: UnitId)
    requires Rest(s) && i in s.calls && Reaches(Described(s.units, s.infos), s.calls[i], entry)
    requires u in Closure(s.units, s.infos, entry).Values
    ensures u !in s.closes && u in s.units.Values
  {
    hide SnapshotsOk, Below, Affected, LinksResolve, ClosesOk, ComingOk, CandidateOk, Validates, Reaches;
    var infos := Described(s.units, s.infos);
    var n :| n in s.units && Reaches(infos, entry, n) && s.units[n] == u;
    ReachesOn(infos, s.calls[i], entry, n);
    if s.state.Disposing? {
      if n in Affected(infos, s.state.candidate.replaced) {
        AffectedBack(infos, s.state.candidate.replaced, s.calls[i], n);
      }
      NotReplaced(infos, s.state.candidate.replaced, n);
    }
  }

  lemma RecapturingKeeps(s: Runtime, x: SnapshotId, entry: UnitName, order: seq<UnitId>)
    requires Inv(s) && x in s.snapshots && Lists(order, Closure(s.snapshots[x], s.infos, entry).Values)
    ensures Inv(Capture(s, Closure(s.snapshots[x], s.infos, entry), order))
  {
    hide PinsOk, StateOk, ActiveOk, CallsOk, Coherent, Reaches;
    var kept := Closure(s.snapshots[x], s.infos, entry);
    assert Coherent(s.snapshots[x], s.infos);
    ClosureCoherent(s.snapshots[x], s.infos, entry);
    forall u | u in order ensures u !in s.closes && u !in Coming(s.state) {
      assert u in kept.Values;
      var n :| n in kept && kept[n] == u;
      HeldIsPinned(s, x, u);
    }
    CaptureRest(s, kept, order);
    CapturePins(s, kept, order);
  }

  lemma HeldIsPinned(s: Runtime, x: SnapshotId, u: UnitId)
    requires PinsOk(s.pins, s.snapshots) && x in s.snapshots && u in s.snapshots[x].Values
    ensures u in s.pins
  {
    assert x in Holders(s.snapshots, u);
  }

  /* ---------- release ---------- */

  lemma UnpinKeeps(s: Runtime, u: UnitId)
    requires Rest(s)
    ensures Rest(Unpin(s, u)) && Unpin(s, u).snapshots == s.snapshots
  {
    hide Coherent, SnapshotsOk, Below, StateOk, CallsOk, ClosesOk, ActiveOk, ComingOk, Unpin;
    var t := Unpin(s, u);
    UnpinSame(s, u);
    UnpinCloses(s, u);
    ActiveStill(s, t);
    SameState(s, t);
  }

  lemma UnpinSame(s: Runtime, u: UnitId)
    ensures var t := Unpin(s, u);
            && t == s.(pins := t.pins, retired := t.retired, disposals := t.disposals, closes := t.closes)
  {
    hide Retire;
    RetireSame(s.(pins := s.pins - {u}), u);
  }

  lemma UnpinCloses(s: Runtime, u: UnitId)
    requires ClosesOk(s.closes, s.disposals, s.retired, s.pins.Keys, s.infos.Keys, s.aborted)
    ensures var t := Unpin(s, u);
            && ClosesOk(t.closes, t.disposals, t.retired, t.pins.Keys, t.infos.Keys, t.aborted)
            && t.pins.Keys <= s.pins.Keys && t.retired <= s.retired
            && forall v :: v in t.closes ==> v in s.closes || v in s.retired
  {
    if u in s.pins && s.pins[u] > 1 {
      assert s.pins[u := s.pins[u] - 1].Keys == s.pins.Keys;
    } else if u in s.pins {
      assert (s.pins - {u}).Keys == s.pins.Keys - {u};
    }
  }

  lemma UnpinPins(s: Runtime, u: UnitId, v: UnitId)
    ensures v in Unpin(s, u).pins <==> v in s.pins && (v != u || s.pins[v] > 1)
    ensures v in Unpin(s, u).pins ==> Unpin(s, u).pins[v] == if v == u then s.pins[v] - 1 else s.pins[v]
  {
    if u in s.pins && s.pins[u] <= 1 {
      assert Unpin(s, u).pins == s.pins - {u};
    }
  }

  lemma {:induction false} UnpinAllKeeps(s: Runtime, us: seq<UnitId>)
    requires Rest(s)
    ensures Rest(UnpinAll(s, us)) && UnpinAll(s, us).snapshots == s.snapshots
    decreases |us|
  {
    hide Rest, Unpin;
    if us != [] {
      UnpinAllKeeps(s, us[..|us| - 1]);
      UnpinKeeps(UnpinAll(s, us[..|us| - 1]), us[|us| - 1]);
    }
  }

  lemma {:induction false} UnpinAllPins(s: Runtime, us: seq<UnitId>, v: UnitId)
    requires DistinctIds(us)
    ensures v in UnpinAll(s, us).pins <==> v in s.pins && (v !in us || s.pins[v] > 1)
    ensures v in UnpinAll(s, us).pins ==> UnpinAll(s, us).pins[v] == if v in us then s.pins[v] - 1 else s.pins[v]
    decreases |us|
  {
    hide Unpin;
    if us != [] {
      var rest, u := us[..|us| - 1], us[|us| - 1];
      assert us == rest + [u] && u !in rest;
      UnpinAllPins(s, rest, v);
      UnpinPins(UnpinAll(s, rest), u, v);
    }
  }

  lemma ReleaseKeeps(s: Runtime, x: SnapshotId, order: seq<UnitId>)
    requires Inv(s) && x in s.snapshots && Lists(order, s.snapshots[x].Values)
    ensures Inv(Release(s, x, order))
  {
    hide Rest, UnpinAll, PinsOk, Holders;
    var t := s.(snapshots := s.snapshots - {x});
    ListedAreDistinct(order, s.snapshots[x].Values);
    ReleasedRest(s, x);
    UnpinAllKeeps(t, order);
    ReleasedPins(s, x, order);
  }

  lemma ReleasedPins(s: Runtime, x: SnapshotId, order: seq<UnitId>)
    requires PinsOk(s.pins, s.snapshots) && x in s.snapshots && Lists(order, s.snapshots[x].Values)
    ensures PinsOk(UnpinAll(s.(snapshots := s.snapshots - {x}), order).pins, s.snapshots - {x})
  {
    hide UnpinAll, Holders, PinsOk;
    var t := s.(snapshots := s.snapshots - {x});
    ListedAreDistinct(order, s.snapshots[x].Values);
    forall v ensures PinOk(UnpinAll(t, order).pins, t.snapshots, v) {
      UnpinAllPins(t, order, v);
      HoldersReleased(s, x, v);
    }
    AllPinsOk(UnpinAll(t, order).pins, t.snapshots);
  }

  ghost predicate PinOk(pins: map<UnitId, nat>, snapshots: map<SnapshotId, map<UnitName, UnitId>>, u: UnitId) {
    (u in pins <==> Holders(snapshots, u) != {}) && (u in pins ==> pins[u] == |Holders(snapshots, u)|)
  }

  lemma AllPinsOk(pins: map<UnitId, nat>, snapshots: map<SnapshotId, map<UnitName, UnitId>>)
    requires forall u :: PinOk(pins, snapshots, u)
    ensures PinsOk(pins, snapshots)
  {
    hide Holders;
    forall u ensures (u in pins <==> Holders(snapshots, u) != {}) && (u in pins ==> pins[u] == |Holders(snapshots, u)|) {
      assert PinOk(pins, snapshots, u);
    }
  }

  lemma ReleasedRest(s: Runtime, x: SnapshotId)
    requires Rest(s)
    ensures Rest(s.(snapshots := s.snapshots - {x}))
  {
    hide Coherent, StateOk, ClosesOk, ActiveOk, ComingOk, CallsOk;
    SameState(s, s.(snapshots := s.snapshots - {x}));
  }

  lemma HoldersReleased(s: Runtime, x: SnapshotId, v: UnitId)
    requires PinsOk(s.pins, s.snapshots) && x in s.snapshots
    ensures var all, left := Holders(s.snapshots, v), Holders(s.snapshots - {x}, v);
            && PinOk(s.pins, s.snapshots, v)
            && (v in s.snapshots[x].Values ==> all != {} && |left| == |all| - 1)
            && (v !in s.snapshots[x].Values ==> left == all)
            && (left != {} <==> |left| > 0)
  {
    var all, left := Holders(s.snapshots, v), Holders(s.snapshots - {x}, v);
    if v in s.snapshots[x].Values {
      assert x in all && left == all - {x};
    } else {
      assert left == all;
    }
  }

  /* ---------- every step ---------- */

  lemma CallKeeps(s: Runtime, n: UnitName)
    requires Inv(s) && n in s.units && n !in s.blocked
    ensures Inv(s.(calls := s.calls[s.next := n], next := s.next + 1))
  {
    hide Coherent, PinsOk, Affected, ClosesOk, ActiveOk, ComingOk, CandidateOk, Described, SnapshotsOk;
  }

  lemma QuietKeeps(s: Runtime, e: Event)
    requires Inv(s) && (e.Beginning? || e.Returning? || e.Disposed? || e.Closing?)
    ensures Inv(Step(s, e))
  {
    hide Coherent, PinsOk, Affected, ActiveOk, CandidateOk, Described, SnapshotsOk, Validates;
    if e.Beginning? && s.state == Ready && !s.aborted && Validates(s, e.build) {
      StillValid(s, e.build);
    } else if e.Returning? {
      StateReturned(s, e.call);
    } else if e.Disposed? {
      SameState(s, s.(disposals := s.disposals - {e.gone}));
    } else if e.Closing? {
      SameState(s, s.(aborted := true));
    }
  }

  lemma StillValid(s: Runtime, b: Build)
    requires Validates(s, b)
    ensures Validates(s.(state := Preparing(b)), b)
  {
  }

  lemma StateReturned(s: Runtime, i: CallId)
    requires StateOk(s)
    ensures StateOk(s.(calls := s.calls - {i}))
  {
    hide CandidateOk, Affected, Described;
    if s.state.Preparing? {
      assert Validates(s.(calls := s.calls - {i}), s.state.build);
    }
  }

  lemma StepKeeps(s: Runtime, e: Event)
    requires Inv(s)
    ensures Inv(Step(s, e))
  {
    hide Inv, Prepared, Commit, Sound;
    match e
    case Finishing(intact) =>
      if s.state.Preparing? {
        if intact && Sound(s, s.state.build) { PreparedKeeps(s, s.state.build); } else { RefusedKeeps(s); }
      }
    case Committing => if s.state.Pending? { CommitKeeps(s, s.state.candidate); }
    case Retiring(order) => RetiringStep(s, order);
    case Publishing => PublishingStep(s);
    case Aborting(order) => AbortingStep(s, order);
    case Calling(n) => CallingStep(s, n);
    case Capturing(i, entry, order) => CapturingStep(s, i, entry, order);
    case Recapturing(x, entry, order) => RecapturingStep(s, x, entry, order);
    case Releasing(x, order) => ReleasingStep(s, x, order);
    case _ => QuietKeeps(s, e);
  }

  lemma RefusedKeeps(s: Runtime)
    requires Inv(s) && s.state.Preparing?
    ensures Inv(s.(state := Ready))
  {
    hide Coherent, PinsOk, Affected, Validates, ClosesOk, SnapshotsOk, Below, Described;
  }

  lemma RetiringStep(s: Runtime, order: seq<UnitId>)
    requires Inv(s)
    ensures Inv(Step(s, Retiring(order)))
  {
    hide Inv;
    if s.state.Draining? && s.state.awaited !! s.calls.Keys && Lists(order, Leaving(s, s.state.candidate)) {
      RetiringKeeps(s, order);
    }
  }

  lemma PublishingStep(s: Runtime)
    requires Inv(s)
    ensures Inv(Step(s, Publishing))
  {
    hide Coherent, PinsOk, SnapshotsOk, Affected, Described, Below, ClosesOk, ComingOk, ActiveOk, CandidateOk;
    if s.state.Disposing? && s.state.closing !! s.disposals {
      forall i | i in s.calls ensures s.calls[i] !in s.state.candidate.replaced {
        NotReplaced(Described(s.units, s.infos), s.state.candidate.replaced, s.calls[i]);
      }
      PublishKeeps(s, s.state.candidate);
    }
  }

  lemma AbortingStep(s: Runtime, order: seq<UnitId>)
    requires Inv(s)
    ensures Inv(Step(s, Aborting(order)))
  {
    hide Inv, Abandon, Lists;
    if s.state.Pending? && Lists(order, Added(s.state.candidate)) { AbandonKeeps(s, order); }
  }

  lemma CallingStep(s: Runtime, n: UnitName)
    requires Inv(s)
    ensures Inv(Step(s, Calling(n)))
  {
    hide Inv;
    if !s.aborted && s.hosted && n in s.units && n !in s.blocked { CallKeeps(s, n); }
  }

  lemma CapturingStep(s: Runtime, i: CallId, entry: UnitName, order: seq<UnitId>)
    requires Inv(s)
    ensures Inv(Step(s, Capturing(i, entry, order)))
  {
    hide Inv, Closure, Capture;
    if i in s.calls && Reaches(Described(s.units, s.infos), s.calls[i], entry) && Lists(order, Closure(s.units, s.infos, entry).Values) {
      CapturingKeeps(s, i, entry, order);
    }
  }

  lemma RecapturingStep(s: Runtime, x: SnapshotId, entry: UnitName, order: seq<UnitId>)
    requires Inv(s)
    ensures Inv(Step(s, Recapturing(x, entry, order)))
  {
    hide Inv, Closure, Capture;
    if x in s.snapshots && entry in s.snapshots[x] && Lists(order, Closure(s.snapshots[x], s.infos, entry).Values) {
      RecapturingKeeps(s, x, entry, order);
    }
  }

  lemma ReleasingStep(s: Runtime, x: SnapshotId, order: seq<UnitId>)
    requires Inv(s)
    ensures Inv(Step(s, Releasing(x, order)))
  {
    hide Inv, Release;
    if x in s.snapshots && Lists(order, s.snapshots[x].Values) {
      ReleaseKeeps(s, x, order);
    }
  }

  lemma {:induction false} RunKeeps(s: Runtime, events: seq<Event>)
    requires Inv(s)
    ensures Inv(Run(s, events))
    decreases |events|
  {
    hide Inv, Step;
    if events != [] {
      RunKeeps(s, events[..|events| - 1]);
      StepKeeps(Run(s, events[..|events| - 1]), events[|events| - 1]);
    }
  }

  lemma InitOk(hosted: bool)
    ensures Inv(Init(hosted))
  {
  }

  /* ---------- what holds in every reachable state ---------- */

  ghost function Reached(hosted: bool, events: seq<Event>): Runtime {
    Run(Init(hosted), events)
  }

  lemma ReachedOk(hosted: bool, events: seq<Event>)
    ensures Inv(Reached(hosted, events))
  {
    hide Inv, Run;
    InitOk(hosted);
    RunKeeps(Init(hosted), events);
  }

  /** After every activation each link of an active unit resolves to an active unit with exactly one
      matching export. */
  lemma ActiveUnitsAreLinked(hosted: bool, events: seq<Event>, n: UnitName, l: Link)
    requires var s := Reached(hosted, events); n in s.units && s.units[n] in s.infos && l in s.infos[s.units[n]].links
    ensures var s := Reached(hosted, events);
            l.provider in s.units && s.units[l.provider] in s.infos && Matches(s.infos[s.units[l.provider]], l)
  {
    hide Run;
    ReachedOk(hosted, events);
    var s := Reached(hosted, events);
    assert n in Described(s.units, s.infos);
    assert Resolves(Described(s.units, s.infos), l);
  }

  /** A unit is closed at most once and never while a live snapshot holds it, and its pin count is
      the number of those snapshots. */
  lemma UnitsCloseOnce(hosted: bool, events: seq<Event>, x: SnapshotId, u: UnitId)
    ensures var s := Reached(hosted, events);
            && DistinctIds(s.closes)
            && (x in s.snapshots && u in s.snapshots[x].Values ==> u !in s.closes)
            && (u in s.pins <==> exists y :: y in s.snapshots && u in s.snapshots[y].Values)
            && (u in s.pins ==> s.pins[u] == |Holders(s.snapshots, u)|)
  {
    hide Run;
    ReachedOk(hosted, events);
    var s := Reached(hosted, events);
    if x in s.snapshots && u in s.snapshots[x].Values {
      HeldIsPinned(s, x, u);
    }
    assert u in s.pins <==> Holders(s.snapshots, u) != {};
    if Holders(s.snapshots, u) != {} {
      var y :| y in Holders(s.snapshots, u);
    }
    if y :| y in s.snapshots && u in s.snapshots[y].Values {
      assert y in Holders(s.snapshots, u);
    }
  }

  /** Once retirement has begun, no running call reaches a unit being replaced; while the earlier
      calls drain, those not awaited do not either. */
  lemma RetirementIsUnobserved(hosted: bool, events: seq<Event>, i: CallId, n: UnitName)
    requires var s := Reached(hosted, events);
             && i in s.calls && Reaches(Described(s.units, s.infos), s.calls[i], n)
             && (s.state.Disposing? || (s.state.Draining? && i !in s.state.awaited))
    ensures n !in Reached(hosted, events).state.candidate.replaced
  {
    hide Run;
    ReachedOk(hosted, events);
    var s := Reached(hosted, events);
    var infos, replaced := Described(s.units, s.infos), s.state.candidate.replaced;
    assert s.calls[i] in infos;
    if n in Affected(infos, replaced) {
      AffectedBack(infos, replaced, s.calls[i], n);
    }
    NotReplaced(infos, replaced, n);
  }

  /* ---------- captured callbacks ---------- */

  /** The snapshot and the instances that it holds are as before. */
  ghost predicate Holding(s: Runtime, t: Runtime, x: SnapshotId) {
    x in s.snapshots ==>
      && x in t.snapshots && t.snapshots[x] == s.snapshots[x]
      && forall n :: n in s.snapshots[x] && s.snapshots[x][n] in s.infos ==>
           s.snapshots[x][n] in t.infos && t.infos[s.snapshots[x][n]] == s.infos[s.snapshots[x][n]]
  }

  lemma {:induction false} RetireAllHolds(s: Runtime, us: seq<UnitId>)
    ensures RetireAll(s, us).snapshots == s.snapshots && RetireAll(s, us).infos == s.infos
  {
    hide Retire;
    if us != [] {
      RetireAllHolds(s, us[..|us| - 1]);
      RetireSame(RetireAll(s, us[..|us| - 1]), us[|us| - 1]);
    }
  }

  lemma {:induction false} UnpinAllHolds(s: Runtime, us: seq<UnitId>)
    ensures UnpinAll(s, us).snapshots == s.snapshots && UnpinAll(s, us).infos == s.infos
  {
    hide Unpin;
    if us != [] {
      UnpinAllHolds(s, us[..|us| - 1]);
      UnpinSame(UnpinAll(s, us[..|us| - 1]), us[|us| - 1]);
    }
  }

  lemma StepHolds(s: Runtime, e: Event, x: SnapshotId)
    requires Inv(s) && !(e.Releasing? && e.snapshot == x)
    ensures Holding(s, Step(s, e), x)
  {
    hide Inv, Holding, RetireAll, Release, Capture, Prepared, Commit, Lists, Sound, Validates, Reaches, Described, Leaving, Closure;
    Same(s, Step(s, e), x);
    match e
    case Finishing(_) => if s.state.Preparing? { PreparedHolds(s, s.state.build, x); }
    case Committing => if s.state.Pending? { CommitHolds(s, s.state.candidate, x); }
    case Retiring(order) =>
      if s.state.Draining? {
        var t := s.(state := Disposing(s.state.candidate, {}));
        RetireAllHolds(t, order);
        Same(s, RetireAll(t, order), x);
      }
    case Capturing(_, entry, order) => CaptureHolds(s, Closure(s.units, s.infos, entry), order, x);
    case Recapturing(y, entry, order) => if y in s.snapshots { CaptureHolds(s, Closure(s.snapshots[y], s.infos, entry), order, x); }
    case Releasing(y, order) => if y in s.snapshots { ReleaseHolds(s, y, order, x); }
    case _ =>
  }

  lemma Same(s: Runtime, t: Runtime, x: SnapshotId)
    ensures t.snapshots == s.snapshots && t.infos == s.infos ==> Holding(s, t, x)
  {
  }

  lemma PreparedHolds(s: Runtime, b: Build, x: SnapshotId)
    requires Inv(s)
    ensures Holding(s, Prepared(s, b), x)
  {
    hide PinsOk, StateOk, ClosesOk, ActiveOk, ComingOk, SnapshotsOk, Coherent, CallsOk, FinalUnits;
    OldInfos(s, b);
  }

  lemma CommitHolds(s: Runtime, c: Candidate, x: SnapshotId)
    ensures Holding(s, Commit(s, c), x)
  {
    hide Affected, Described, Leaving, AwaitedCalls;
  }

  lemma CaptureHolds(s: Runtime, kept: map<UnitName, UnitId>, order: seq<UnitId>, x: SnapshotId)
    requires Inv(s)
    ensures Holding(s, Capture(s, kept, order), x)
  {
    hide PinsOk, StateOk, ClosesOk, ActiveOk, ComingOk, SnapshotsOk, Coherent, CallsOk, Pin;
  }

  lemma ReleaseHolds(s: Runtime, y: SnapshotId, order: seq<UnitId>, x: SnapshotId)
    requires x != y
    ensures Holding(s, Release(s, y, order), x)
  {
    hide UnpinAll;
    UnpinAllHolds(s.(snapshots := s.snapshots - {y}), order);
  }

  /** Across any number of commits, until it is released, a captured callback keeps the very units
      that it was captured with, open, and each of their links resolves among them. */
  lemma {:induction false} CapturedCallbacksKeepTheirUnits(s: Runtime, events: seq<Event>, x: SnapshotId)
    requires Inv(s) && x in s.snapshots && forall e :: e in events ==> !(e.Releasing? && e.snapshot == x)
    ensures var t := Run(s, events);
            && Inv(t) && Holding(s, t, x) && x in t.snapshots && Coherent(t.snapshots[x], t.infos)
            && forall u :: u in t.snapshots[x].Values ==> u !in t.closes
    decreases |events|
  {
    hide Inv, Step;
    if events != [] {
      var before, e := events[..|events| - 1], events[|events| - 1];
      CapturedCallbacksKeepTheirUnits(s, before, x);
      StepKeeps(Run(s, before), e);
      StepHolds(Run(s, before), e, x);
      HoldsOn(s, Run(s, before), Run(s, events), x);
    }
    HeldOpen(Run(s, events), x);
  }

  lemma HoldsOn(s: Runtime, t: Runtime, u: Runtime, x: SnapshotId)
    requires Holding(s, t, x) && Holding(t, u, x)
    ensures Holding(s, u, x)
  {
  }

  lemma HeldOpen(s: Runtime, x: SnapshotId)
    requires Inv(s) && x in s.snapshots
    ensures Coherent(s.snapshots[x], s.infos) && forall u :: u in s.snapshots[x].Values ==> u !in s.closes
  {
    hide Coherent, StateOk, PinsOk;
    forall u | u in s.snapshots[x].Values ensures u !in s.closes {
      HeldIsPinned(s, x, u);
    }
  }
}
