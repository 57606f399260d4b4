/** The program cache of a worker over whole runs, and the requests that a cancellation sends. */
module PoolPrograms {
  import opened PoolProtocol
  import opened PoolInvariant
  import opened PoolRuns
  import opened PoolOrders
  import opened PoolService

  /* ---------- the least recently used program goes ---------- */

  /** What is installed after launches of these programs on a new worker. */
  function InstalledAfter(programs: seq<ProgramId>): seq<ProgramId> {
    if programs == [] then []
    else Touched(InstalledAfter(programs[..|programs| - 1]), programs[|programs| - 1])
  }

  /** The last launch of `p`. */
  function LastUse(programs: seq<ProgramId>, p: ProgramId): (k: nat)
    requires p in programs
    ensures k < |programs| && programs[k] == p && forall i :: k < i < |programs| ==> programs[i] != p
  {
    if programs[|programs| - 1] == p then |programs| - 1
    else
      assert programs == programs[..|programs| - 1] + [programs[|programs| - 1]];
      LastUse(programs[..|programs| - 1], p)
  }

  lemma LastUseLater(programs: seq<ProgramId>, q: ProgramId, p: ProgramId)
    requires p in programs
    ensures LastUse(programs + [q], p) == if p == q then |programs| else LastUse(programs, p)
  {
    assert (programs + [q])[..|programs|] == programs;
  }

  /** In the order of their last launch. */
  ghost predicate ByLastUse(programs: seq<ProgramId>, r: seq<ProgramId>) {
    && (forall a :: 0 <= a < |r| ==> r[a] in programs)
    && (forall a, b :: 0 <= a < b < |r| ==> LastUse(programs, r[a]) < LastUse(programs, r[b]))
  }

  /** `p` is left out of a full list of later launches. */
  ghost predicate UsedBefore(programs: seq<ProgramId>, p: ProgramId, r: seq<ProgramId>, size: nat)
    requires p in programs
  {
    |r| == size && forall b :: 0 <= b < |r| ==> r[b] in programs && LastUse(programs, p) < LastUse(programs, r[b])
  }

  ghost predicate RecentlyUsed(programs: seq<ProgramId>, r: seq<ProgramId>) {
    && NoDuplicates(r) && |r| <= PROGRAM_CACHE && ByLastUse(programs, r)
    && forall p :: p in programs && p !in r ==> UsedBefore(programs, p, r, PROGRAM_CACHE)
  }

  /** The host keeps the programs that its worker ran last, at most 16, in the order of their last
      launch: a program is left out only when 16 others were used after it. */
  lemma {:induction false} LastUsedStay(programs: seq<ProgramId>)
    ensures RecentlyUsed(programs, InstalledAfter(programs))
  {
    if programs != [] {
      var before, q := programs[..|programs| - 1], programs[|programs| - 1];
      LastUsedStay(before);
      assert programs == before + [q];
      TouchedIsRecent(before, InstalledAfter(before), q);
    }
  }

  lemma TouchedIsRecent(programs: seq<ProgramId>, r: seq<ProgramId>, q: ProgramId)
    requires RecentlyUsed(programs, r)
    ensures RecentlyUsed(programs + [q], Touched(r, q))
  {
    hide Without;
    if q in r {
      WithoutKeepsOrder(r, q);
      WithoutSize(r, q);
      WithoutByLastUse(programs, r, q);
      NewestIsRecent(programs, Without(r, q), q);
    } else if |r| >= PROGRAM_CACHE {
      NoDuplicatesTail(r);
      assert r == [r[0]] + r[1..];
      NewestIsRecent(programs, r[1..], q);
    } else {
      NewestIsRecent(programs, r, q);
    }
  }

  lemma {:induction false} WithoutByLastUse(programs: seq<ProgramId>, r: seq<ProgramId>, q: ProgramId)
    requires ByLastUse(programs, r)
    ensures ByLastUse(programs, Without(r, q))
  {
    hide ByLastUse;
    if r != [] {
      ByLastUseTail(programs, r);
      WithoutByLastUse(programs, r[1..], q);
      ByLastUseCons(programs, r[0], Without(r[1..], q));
    } else {
      assert Without(r, q) == r;
    }
  }

  lemma ByLastUseTail(programs: seq<ProgramId>, r: seq<ProgramId>)
    requires ByLastUse(programs, r) && r != []
    ensures ByLastUse(programs, r[1..]) && r[0] in programs
    ensures forall y :: y in r[1..] ==> y in programs && LastUse(programs, r[0]) < LastUse(programs, y)
  {
    hide LastUse;
  }

  lemma ByLastUseCons(programs: seq<ProgramId>, x: ProgramId, rest: seq<ProgramId>)
    requires ByLastUse(programs, rest) && x in programs
    requires forall y :: y in rest ==> y in programs && LastUse(programs, x) < LastUse(programs, y)
    ensures ByLastUse(programs, [x] + rest)
  {
    hide LastUse;
  }

  lemma NewestIsRecent(programs: seq<ProgramId>, r: seq<ProgramId>, q: ProgramId)
    requires NoDuplicates(r) && q !in r && |r| < PROGRAM_CACHE && ByLastUse(programs, r)
    requires forall p :: p in programs && p !in r && p != q ==> UsedBefore(programs, p, r, PROGRAM_CACHE - 1)
    ensures RecentlyUsed(programs + [q], r + [q])
  {
    forall p | p in programs ensures LastUse(programs + [q], p) == if p == q then |programs| else LastUse(programs, p) {
      LastUseLater(programs, q, p);
    }
    NoDuplicatesSnoc(r, q);
  }

  /* ---------- the launches of a run ---------- */

  /** The program, if any, that the step launched on `w`. */
  ghost function Launch1(s: Pool, t: Pool, w: WorkerId): seq<ProgramId> {
    if w in t.links && t.links[w].job.Some? && t.links[w].job.value in t.pending && !(w in s.links && s.links[w].job == t.links[w].job)
    then [t.pending[t.links[w].job.value].program]
    else []
  }

  /** All launches on `w` over the run, in order. */
  ghost function Launched(size: nat, events: seq<Event>, w: WorkerId): seq<ProgramId>
    requires size >= 1
    decreases |events|
  {
    if events == [] then []
    else
      var before := events[..|events| - 1];
      Launched(size, before, w) + Launch1(Reached(size, before), Reached(size, events), w)
  }

  function InstalledOn(s: Pool, w: WorkerId): seq<ProgramId> {
    if w in s.links then s.links[w].installed else []
  }

  /** A worker goes on as it was. */
  ghost predicate Continues(s: Pool, t: Pool, w: WorkerId) {
    w in s.links && w in t.links && t.links[w].job == s.links[w].job && t.links[w].installed == s.links[w].installed
  }

  /** A free or new worker gets a job, whose program becomes its newest. */
  ghost predicate Launches(s: Pool, t: Pool, w: WorkerId) {
    && w in t.links && (if w in s.links then s.links[w].job.None? else w >= s.nextWorker)
    && t.links[w].job.Some? && t.links[w].job.value in t.pending
    && t.links[w].installed == Touched(InstalledOn(s, w), t.pending[t.links[w].job.value].program)
  }

  ghost predicate OnlyLaunches(s: Pool, t: Pool) {
    && t.nextWorker >= s.nextWorker
    && forall w: WorkerId {:trigger w in t.links} :: w in t.links ==> Continues(s, t, w) || Launches(s, t, w)
  }

  lemma OnlyLaunchesMore(s: Pool, u: Pool, t: Pool)
    requires OnlyLaunches(s, u) && OnlyLaunches(u, t) && OnlyServed(u, t)
    requires forall w :: w in s.links ==> w < s.nextWorker
    requires forall j :: j in u.pending && u.pending[j].worker.Some? ==> j in t.pending
    requires forall w :: w in u.links && u.links[w].job.Some? && u.links[w].job.value in u.pending ==> u.pending[u.links[w].job.value].worker.Some?
    ensures OnlyLaunches(s, t)
  {
    hide Touched;
    forall w: WorkerId | w in t.links ensures Continues(s, t, w) || Launches(s, t, w) {
      if w in u.links {
        assert Continues(s, u, w) || Launches(s, u, w);
      }
    }
  }

  lemma AssignLaunches(s: Pool, j: JobId, w: WorkerId, fate: Fate)
    requires j in s.pending && w in s.links && s.links[w].job.None?
    ensures var t := AssignAndLaunch(s, j, w, fate);
            && t.nextWorker == s.nextWorker
            && (forall v :: v in t.links && v != w ==> v in s.links && t.links[v] == s.links[v])
            && (w in t.links ==> Launches(s, t, w))
  {
    hide Touched, Preparation, Without;
  }

  lemma TurnLaunches(s: Pool, fates: Fates)
    requires Core(s, None) && Dispatchable(s) && DispatchStep(s, fates).Some?
    ensures OnlyLaunches(s, DispatchStep(s, fates).value)
  {
    hide AssignAndLaunch, Finish, Touched, Core;
    CandidateOk(s);
    var t, j := DispatchStep(s, fates).value, Candidate(s).value;
    if s.idle != [] {
      var u := s.(idle := s.idle[1..]);
      AssignLaunches(u, j, s.idle[0], fates(j));
    } else if fates(j) == NoWorker {
      FinishFrees(s, j);
    } else {
      LinksFit(s);
      NewIsFree(s);
      AssignLaunches(WithNewWorker(s), j, s.nextWorker, fates(j));
    }
  }

  lemma NewIsFree(s: Pool)
    requires Core(s, None)
    ensures forall w :: w in s.links ==> w < s.nextWorker
    ensures forall w :: w in s.links && s.links[w].job.Some? ==>
              s.links[w].job.value in s.pending && s.pending[s.links[w].job.value].worker == Some(w)
  {
    hide LinkOk, QueuesOk, CallbacksOk, CountsOk, IdleOk;
    forall w | w in s.links && s.links[w].job.Some?
      ensures s.links[w].job.value in s.pending && s.pending[s.links[w].job.value].worker == Some(w)
    {
      assert Holds(s.links, s.retiring, w, s.links[w].job.value);
    }
  }

  lemma FinishFrees(s: Pool, j: JobId)
    requires j in s.pending && s.pending[j].worker.None?
    ensures Finish(s, j).links == s.links && Finish(s, j).nextWorker == s.nextWorker
  {
  }

  lemma {:induction false} DispatchLaunches(s: Pool, fates: Fates)
    requires Core(s, None) && Dispatchable(s)
    ensures OnlyLaunches(s, Dispatch(s, fates))
    decreases Queued(s)
  {
    hide DispatchStep, Core, Touched;
    if !s.closed && DispatchStep(s, fates).Some? {
      var u := DispatchStep(s, fates).value;
      DispatchStepCore(s, fates);
      DispatchStepShrinks(s, fates);
      TurnLaunches(s, fates);
      DispatchLaunches(u, fates);
      DispatchOnlyServes(u, fates);
      NewIsFree(s);
      NewIsFree(u);
      OnlyLaunchesMore(s, u, Dispatch(u, fates));
    }
  }

  /* ---------- events leave the programs alone ---------- */

  /** No job is given, no program comes or goes. */
  ghost predicate NoLaunches(s: Pool, t: Pool) {
    && t.nextWorker == s.nextWorker
    && forall w :: w in t.links ==>
         && w in s.links && t.links[w].installed == s.links[w].installed
         && (t.links[w].job == s.links[w].job || t.links[w].job.None?)
  }

  lemma FinishLaunchesNone(s: Pool, j: JobId)
    requires j in s.pending
    ensures NoLaunches(s, Finish(s, j))
  {
  }

  lemma AbortLaunchesNone(s: Pool, j: JobId, sendFails: bool)
    ensures NoLaunches(s, AbortJob(s, j, sendFails))
  {
    hide Without, Finish;
    if j in s.pending {
      FinishLaunchesNone(s.(pending := s.pending[j := s.pending[j].(aborted := true)]), j);
    }
  }

  lemma {:induction false} AbortFromLaunchesNone(s: Pool, j: JobId, failing: JobId -> bool)
    requires j <= s.nextJob
    ensures NoLaunches(s, AbortFrom(s, j, failing))
    decreases s.nextJob - j
  {
    hide AbortJob;
    if j < s.nextJob {
      AbortLaunchesNone(s, j, failing(j));
      AbortFromLaunchesNone(AbortJob(s, j, failing(j)), j + 1, failing);
    }
  }

  lemma TakeLaunchesNone(s: Pool, w: WorkerId)
    requires w in s.links && s.links[w].responses != []
    ensures NoLaunches(s, Take(s, w))
  {
    hide Finish, Without;
    var l := s.links[w];
    var t := SetLink(s, w, l.(responses := l.responses[1..]));
    if Judge(l.job, s.pending, l.responses[0]) == Complete { FinishLaunchesNone(t, l.responses[0].job); }
  }

  lemma EffectLaunchesNone(s: Pool, e: Event)
    ensures NoLaunches(s, Effect(s, e))
  {
    hide Finish, Without, AbortJob, AbortFrom, Take, Apply, IsAnswer, Judge, CallbackQueue;
    match e
    case Abort(j, sendFails, _) => AbortLaunchesNone(s, j, sendFails);
    case Deliver(w, _) => if w in s.links && s.links[w].responses != [] { TakeLaunchesNone(s, w); }
    case Close(failing) => if !s.closed { AbortFromLaunchesNone(s.(closed := true), 0, failing); }
    case Retired(w) =>
      if w in s.retiring && s.retiring[w].Some? && s.retiring[w].value in s.pending {
        FinishLaunchesNone(s, s.retiring[w].value);
      }
    case _ =>
  }

  /* ---------- the program cache over runs ---------- */

  lemma WorkerHasJob(s: Pool, j: JobId, w: WorkerId)
    requires Core(s, None) && j in s.pending && s.pending[j].worker == Some(w) && w in s.links
    ensures s.links[w].job == Some(j)
  {
    hide LinkOk, QueuesOk, CallbacksOk, CountsOk, IdleOk;
    assert Holds(s.links, s.retiring, w, j);
  }

  /** What a step makes of the programs of `w`. */
  ghost predicate Programs(s: Pool, t: Pool, w: WorkerId) {
    var last := Launch1(s, t, w);
    && t.nextWorker >= s.nextWorker
    && (last == [] && w in t.links ==> w in s.links && t.links[w].installed == s.links[w].installed)
    && (last != [] ==>
          && |last| == 1 && w in t.links && (w in s.links || w >= s.nextWorker)
          && t.links[w].installed == Touched(InstalledOn(s, w), last[0]))
  }

  lemma ContinuesPrograms(s: Pool, u: Pool, t: Pool, w: WorkerId)
    requires NoLaunches(s, u) && t.nextWorker >= u.nextWorker && (w in t.links ==> Continues(u, t, w))
    ensures Programs(s, t, w)
  {
    hide Touched;
  }

  lemma LaunchesPrograms(s: Pool, u: Pool, t: Pool, w: WorkerId)
    requires NoLaunches(s, u) && t.nextWorker >= u.nextWorker && Launches(u, t, w)
    requires w in s.links ==> s.links[w].job != t.links[w].job && w in u.links
    ensures Programs(s, t, w)
  {
    hide Touched;
  }

  lemma StepLaunches(size: nat, events: seq<Event>, e: Event, w: WorkerId)
    requires size >= 1
    ensures Programs(Reached(size, events), Reached(size, events + [e]), w)
  {
    hide Effect, Core, Dispatch, Reached, Touched, Programs, Launches, NoLaunches, Affected, Ordered, HostOk, Saturated;
    var s, t := Reached(size, events), Reached(size, events + [e]);
    var u := Effect(s, e);
    ReachedNext(size, events, e);
    StepAffects(size, events, e);
    EffectLaunchesNone(s, e);
    match Redispatches(s, e)
    case None => ContinuesPrograms(s, u, t, w);
    case Some(fates) =>
      DispatchLaunches(u, fates);
      if w in t.links && Launches(u, t, w) {
        NotAgain(size, events, e, w);
        LaunchesPrograms(s, u, t, w);
      } else {
        ContinuesPrograms(s, u, t, w);
      }
  }

  /** A launch never gives a worker the job that it had before. */
  lemma NotAgain(size: nat, events: seq<Event>, e: Event, w: WorkerId)
    requires size >= 1
    requires Launches(Effect(Reached(size, events), e), Reached(size, events + [e]), w)
    ensures var s, t := Reached(size, events), Reached(size, events + [e]);
            w in s.links ==> s.links[w].job != t.links[w].job && w in Effect(s, e).links
  {
    hide Effect, Core, Dispatch, Reached, Promotes, Aborts, Starts, Answers, Loses, Touched, Ordered;
    var s, t := Reached(size, events), Reached(size, events + [e]);
    var u := Effect(s, e);
    NewIsFree(s);
    EffectLaunchesNone(s, e);
    if w in s.links && s.links[w].job == t.links[w].job {
      var j := t.links[w].job.value;
      ReachedNext(size, events, e);
      StepAffects(size, events, e);
      JobsChangeOnlySo(size, events, e, j);
      WorkerHasJob(u, j, w);
    }
  }

  /** The programs on `w` are those of these launches. */
  ghost predicate RecordedOn(s: Pool, w: WorkerId, launched: seq<ProgramId>) {
    && (w in s.links ==> s.links[w].installed == InstalledAfter(launched))
    && (w >= s.nextWorker ==> launched == [])
  }

  lemma ProgramsGrow(s: Pool, t: Pool, w: WorkerId, launched: seq<ProgramId>)
    requires RecordedOn(s, w, launched) && Programs(s, t, w) && (w in t.links ==> w < t.nextWorker)
    ensures RecordedOn(t, w, launched + Launch1(s, t, w))
  {
    hide Touched, Launch1;
    var last := Launch1(s, t, w);
    if last != [] {
      AfterOneMore(launched, last);
    } else {
      assert launched + last == launched;
    }
  }

  lemma {:induction false} RunLaunches(size: nat, events: seq<Event>, w: WorkerId)
    requires size >= 1
    ensures RecordedOn(Reached(size, events), w, Launched(size, events, w))
    decreases |events|
  {
    hide Step, Core, Saturated, Launch1, RecordedOn, Programs, InstalledAfter;
    if events == [] {
      NothingLaunched(size, w);
    } else {
      var before, e := events[..|events| - 1], events[|events| - 1];
      assert events == before + [e];
      RunLaunches(size, before, w);
      StepLaunches(size, before, e, w);
      NewIsFree(Reached(size, events));
      ProgramsGrow(Reached(size, before), Reached(size, events), w, Launched(size, before, w));
    }
  }

  lemma NothingLaunched(size: nat, w: WorkerId)
    ensures RecordedOn(Init(size), w, [])
  {
  }

  lemma AfterOneMore(programs: seq<ProgramId>, last: seq<ProgramId>)
    requires |last| == 1
    ensures InstalledAfter(programs + last) == Touched(InstalledAfter(programs), last[0])
  {
    assert (programs + last)[..|programs|] == programs;
  }

  /** Over any run, a worker's program list holds the programs of its own launches that were used
      last, at most 16 and in the order of their last use: the one evicted is the one used longest ago. */
  lemma ProgramsUsedLastStay(size: nat, events: seq<Event>, w: WorkerId)
    requires size >= 1 && w in Reached(size, events).links
    ensures RecentlyUsed(Launched(size, events, w), Reached(size, events).links[w].installed)
  {
    RunLaunches(size, events, w);
    LastUsedStay(Launched(size, events, w));
  }
}
