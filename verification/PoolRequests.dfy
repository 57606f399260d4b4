/** What the pool sends: a worker runs a job with the job's own program, and is asked to cancel a
    running job whenever that job is cancelled. */
module PoolRequests {
  import opened PoolProtocol
  import opened PoolInvariant
  import opened PoolRuns
  import opened PoolOrders
  import opened PoolService
  import opened PoolPrograms

  /* ---------- every run is of the job's own program ---------- */

  /** The program of every job ever submitted. */
  ghost function Submitted(size: nat, events: seq<Event>): map<JobId, ProgramId>
    requires size >= 1
    decreases |events|
  {
    if events == [] then map[]
    else
      var before, e := events[..|events| - 1], events[|events| - 1];
      var s := Reached(size, before);
      if e.Execute? && !s.closed then Submitted(size, before)[s.nextJob := e.program] else Submitted(size, before)
  }

  ghost predicate LinkRuns(l: Link, programs: map<JobId, ProgramId>) {
    && (forall m :: m in l.requests && m.Run? ==> m.job in programs && programs[m.job] == m.program)
    && (forall j :: j in l.remote.running ==> j in programs && programs[j] == l.remote.running[j].program)
  }

  ghost predicate Runs(s: Pool, programs: map<JobId, ProgramId>) {
    && (forall j :: j in s.pending ==> j in programs && programs[j] == s.pending[j].program)
    && (forall w :: w in s.links ==> LinkRuns(s.links[w], programs))
  }

  lemma FinishRuns(s: Pool, j: JobId, programs: map<JobId, ProgramId>)
    requires Runs(s, programs) && j in s.pending
    ensures Runs(Finish(s, j), programs)
  {
    hide Without;
  }

  lemma DropRuns(s: Pool, w: WorkerId, programs: map<JobId, ProgramId>)
    requires Runs(s, programs)
    ensures Runs(Drop(s, w), programs)
  {
    hide Without;
  }

  lemma SetRuns(s: Pool, w: WorkerId, l: Link, programs: map<JobId, ProgramId>)
    requires Runs(s, programs) && LinkRuns(l, programs)
    ensures Runs(SetLink(s, w, l), programs)
  {
    hide LinkRuns;
  }

  lemma AssignRuns(s: Pool, j: JobId, w: WorkerId, fate: Fate, programs: map<JobId, ProgramId>)
    requires Runs(s, programs) && j in s.pending && w in s.links
    ensures Runs(AssignAndLaunch(s, j, w, fate), programs)
  {
    hide Without, Touched, Preparation, Drop;
    var t := Assign(s, j, w);
    assert Runs(t, programs);
    DropRuns(t, w, programs);
    var p, l := t.pending[j].program, t.links[w];
    LaunchRuns(l, j, p, programs);
    SetRuns(t, w, l.(installed := Touched(l.installed, p), requests := l.requests + Preparation(l.installed, p) + [Run(j, p)]), programs);
  }

  lemma LaunchRuns(l: Link, j: JobId, p: ProgramId, programs: map<JobId, ProgramId>)
    requires LinkRuns(l, programs) && j in programs && programs[j] == p
    ensures LinkRuns(l.(installed := Touched(l.installed, p), requests := l.requests + Preparation(l.installed, p) + [Run(j, p)]), programs)
  {
    hide Touched;
  }

  lemma {:induction false} DispatchRuns(s: Pool, fates: Fates, programs: map<JobId, ProgramId>)
    requires Dispatchable(s) && Runs(s, programs)
    ensures Runs(Dispatch(s, fates), programs)
    decreases Queued(s)
  {
    hide AssignAndLaunch, Finish, LinkRuns, Fewer;
    if !s.closed && DispatchStep(s, fates).Some? {
      DispatchStepShrinks(s, fates);
      TurnEnds(s, fates);
      var j := Candidate(s).value;
      if s.idle != [] {
        AssignRuns(s.(idle := s.idle[1..]), j, s.idle[0], fates(j), programs);
      } else if fates(j) == NoWorker {
        FinishRuns(s, j, programs);
      } else {
        NewRuns(s, programs);
        AssignRuns(WithNewWorker(s), j, s.nextWorker, fates(j), programs);
      }
      DispatchRuns(DispatchStep(s, fates).value, fates, programs);
    }
  }

  lemma NewRuns(s: Pool, programs: map<JobId, ProgramId>)
    requires Runs(s, programs)
    ensures Runs(WithNewWorker(s), programs)
  {
  }

  lemma AbortRuns(s: Pool, j: JobId, sendFails: bool, programs: map<JobId, ProgramId>)
    requires Runs(s, programs)
    ensures Runs(AbortJob(s, j, sendFails), programs)
  {
    hide Finish, Drop;
    if j in s.pending && !s.pending[j].aborted {
      var t := s.(pending := s.pending[j := s.pending[j].(aborted := true)]);
      assert Runs(t, programs);
      match s.pending[j].worker
      case None => FinishRuns(t, j, programs);
      case Some(w) => DropRuns(t, w, programs);
    }
  }

  lemma {:induction false} AbortFromRuns(s: Pool, j: JobId, failing: JobId -> bool, programs: map<JobId, ProgramId>)
    requires j <= s.nextJob && Runs(s, programs)
    ensures Runs(AbortFrom(s, j, failing), programs)
    decreases s.nextJob - j
  {
    hide AbortJob, Runs;
    if j < s.nextJob {
      AbortRuns(s, j, failing(j), programs);
      AbortFromRuns(AbortJob(s, j, failing(j)), j + 1, failing, programs);
    }
  }

  lemma TakeRuns(s: Pool, w: WorkerId, programs: map<JobId, ProgramId>)
    requires Runs(s, programs) && w in s.links && s.links[w].responses != []
    ensures Runs(Take(s, w), programs)
  {
    hide Finish, Drop;
    var l := s.links[w];
    var t := SetLink(s, w, l.(responses := l.responses[1..]));
    SetRuns(s, w, l.(responses := l.responses[1..]), programs);
    match Judge(l.job, s.pending, l.responses[0])
    case Note =>
    case Complete => FinishRuns(t, l.responses[0].job, programs);
    case Refuse => DropRuns(t, w, programs);
  }

  lemma ReceivedRuns(s: Pool, w: WorkerId, programs: map<JobId, ProgramId>)
    requires Runs(s, programs) && w in s.links && s.links[w].requests != []
    ensures var l := s.links[w];
            Apply(l.remote, l.requests[0]).Some? ==>
              LinkRuns(l.(requests := l.requests[1..], remote := Apply(l.remote, l.requests[0]).value), programs)
  {
    var l := s.links[w];
    assert LinkRuns(l, programs) && l.requests[0] in l.requests;
  }

  lemma EnqueueRuns(s: Pool, job: Job, programs: map<JobId, ProgramId>)
    requires Runs(s, programs) && s.nextJob !in programs
    ensures Runs(Enqueue(s, job), programs[s.nextJob := job.program])
  {
  }

  lemma RaiseRuns(s: Pool, j: JobId, programs: map<JobId, ProgramId>)
    requires Runs(s, programs) && j in s.pending
    ensures Runs(Raise(s, j), programs)
  {
    hide LinkRuns, Without;
  }

  lemma EffectRuns(s: Pool, e: Event, programs: map<JobId, ProgramId>)
    requires Runs(s, programs) && s.nextJob !in programs
    ensures Runs(Effect(s, e), if e.Execute? && !s.closed then programs[s.nextJob := e.program] else programs)
  {
    hide Finish, Drop, AbortJob, AbortFrom, Take, Apply, Enqueue, Raise, CallbackQueue, Runs, LinkRuns;
    match e
    case Execute(p, c, priority, _) => EnqueueRuns(s, Job(p, c, priority, None, false, false), programs);
    case Promote(c, _) =>
      var queue := CallbackQueue(s, c);
      if queue != [] && queue[0] in s.pending { RaiseRuns(s, queue[0], programs); }
    case Abort(j, sendFails, _) => AbortRuns(s, j, sendFails, programs);
    case Deliver(w, _) => if w in s.links && s.links[w].responses != [] { TakeRuns(s, w, programs); }
    case Fault(w, _) => DropRuns(s, w, programs);
    case Retired(w) => RetiredRuns(s, w, programs);
    case Close(failing) =>
      if !s.closed {
        ClosedRuns(s, programs);
        AbortFromRuns(s.(closed := true), 0, failing, programs);
      }
    case Terminate => NoLinksRun(s, programs);
    case WorkerReceives(w, _) =>
      DropRuns(s, w, programs);
      if w in s.links && s.links[w].requests != [] {
        ReceivedRuns(s, w, programs);
        var l := s.links[w];
        if Apply(l.remote, l.requests[0]).Some? {
          SetRuns(s, w, l.(requests := l.requests[1..], remote := Apply(l.remote, l.requests[0]).value), programs);
        }
      }
    case WorkerAnnounces(w, j) => AnnouncedRuns(s, w, j, programs);
    case WorkerAnswers(w, m) => AnsweredRuns(s, w, m, programs);
  }

  lemma RetiredRuns(s: Pool, w: WorkerId, programs: map<JobId, ProgramId>)
    requires Runs(s, programs)
    ensures Runs(Effect(s, Retired(w)), programs)
  {
    hide Finish, LinkRuns;
    if w in s.retiring && s.retiring[w].Some? && s.retiring[w].value in s.pending {
      FinishRuns(s, s.retiring[w].value, programs);
    }
  }

  lemma ClosedRuns(s: Pool, programs: map<JobId, ProgramId>)
    requires Runs(s, programs)
    ensures Runs(s.(closed := true), programs)
  {
  }

  lemma NoLinksRun(s: Pool, programs: map<JobId, ProgramId>)
    requires Runs(s, programs)
    ensures Runs(s.(links := map[], idle := []), programs)
  {
  }

  lemma AnnouncedRuns(s: Pool, w: WorkerId, j: JobId, programs: map<JobId, ProgramId>)
    requires Runs(s, programs)
    ensures Runs(Effect(s, WorkerAnnounces(w, j)), programs)
  {
  }

  lemma AnsweredRuns(s: Pool, w: WorkerId, m: Response, programs: map<JobId, ProgramId>)
    requires Runs(s, programs)
    ensures Runs(Effect(s, WorkerAnswers(w, m)), programs)
  {
    hide IsAnswer;
  }

  /** Over any run, a worker is only ever asked to run a job with the program with which the job was
      submitted, and runs it with that one. */
  lemma {:induction false} JobsRunTheirProgram(size: nat, events: seq<Event>)
    requires size >= 1
    ensures Runs(Reached(size, events), Submitted(size, events))
    ensures forall j :: j in Submitted(size, events) ==> j < Reached(size, events).nextJob
    decreases |events|
  {
    hide Runs, Core, Saturated, Effect, Dispatch, Joining, Fewer;
    if events != [] {
      var before, e := events[..|events| - 1], events[|events| - 1];
      assert events == before + [e];
      var s := Reached(size, before);
      JobsRunTheirProgram(size, before);
      EffectRuns(s, e, Submitted(size, before));
      ReachedNext(size, before, e);
      EffectNext(s, e);
      if Redispatches(s, e).Some? {
        DispatchRuns(Effect(s, e), Redispatches(s, e).value, Submitted(size, events));
        DispatchFewer(Effect(s, e), Redispatches(s, e).value);
        FewerNext(Effect(s, e), Dispatch(Effect(s, e), Redispatches(s, e).value));
      }
    } else {
      InitRuns(size);
    }
  }

  lemma InitRuns(size: nat)
    ensures Runs(Init(size), map[])
  {
  }

  lemma FewerNext(s: Pool, t: Pool)
    requires Fewer(s, t)
    ensures t.nextJob == s.nextJob
  {
  }

  lemma EffectNext(s: Pool, e: Event)
    ensures Effect(s, e).nextJob == if e.Execute? && !s.closed then s.nextJob + 1 else s.nextJob
  {
    hide Lost, Finish, Drop, AbortJob, AbortFrom, Take, Apply, CallbackQueue, IsAnswer, Judge, Without;
    if !e.Execute? && !e.Promote? { EffectFewer(s, e); }
  }

  /* ---------- a cancelled job's worker is asked to stop ---------- */

  /** Nothing of this worker changes. */
  ghost predicate SameWorker(s: Pool, t: Pool, w: WorkerId) {
    (w in t.links <==> w in s.links) && (w in s.links ==> t.links[w] == s.links[w])
  }

  ghost predicate OnlyWorks(s: Pool, w: WorkerId, j: JobId) {
    forall i :: i in s.pending && i != j ==> s.pending[i].worker != Some(w)
  }

  lemma AbortElsewhere(s: Pool, i: JobId, sendFails: bool, w: WorkerId)
    requires i in s.pending ==> s.pending[i].worker != Some(w)
    ensures SameWorker(s, AbortJob(s, i, sendFails), w)
  {
    hide Without;
  }

  lemma {:induction false} AbortFromElsewhere(s: Pool, i: JobId, failing: JobId -> bool, w: WorkerId, j: JobId)
    requires i <= s.nextJob && OnlyWorks(s, w, j) && (j < i || j !in s.pending || s.pending[j].aborted)
    ensures SameWorker(s, AbortFrom(s, i, failing), w)
    decreases s.nextJob - i
  {
    hide AbortJob;
    if i < s.nextJob {
      AbortJobs(s, i, failing(i));
      if i != j { AbortElsewhere(s, i, failing(i), w); } else { AbortedBefore(s, i, failing(i)); }
      AbortFromElsewhere(AbortJob(s, i, failing(i)), i + 1, failing, w, j);
    }
  }

  lemma AbortedBefore(s: Pool, j: JobId, sendFails: bool)
    requires j !in s.pending || s.pending[j].aborted
    ensures AbortJob(s, j, sendFails) == s
  {
  }

  /** What becomes of the worker that runs a cancelled job. */
  ghost predicate Asked(s: Pool, t: Pool, w: WorkerId, j: JobId, fails: bool)
    requires w in s.links
  {
    if fails then w !in t.links
    else w in t.links && t.links[w] == s.links[w].(requests := s.links[w].requests + [Cancel(j)])
  }

  lemma AbortAsks(s: Pool, j: JobId, sendFails: bool, w: WorkerId)
    requires j in s.pending && !s.pending[j].aborted && s.pending[j].worker == Some(w) && w in s.links
    ensures Asked(s, AbortJob(s, j, sendFails), w, j, sendFails)
  {
    hide Finish, Without;
  }

  lemma {:induction false} AbortFromAsks(s: Pool, i: JobId, failing: JobId -> bool, w: WorkerId, j: JobId)
    requires i <= j < s.nextJob && OnlyWorks(s, w, j)
    requires j in s.pending && !s.pending[j].aborted && s.pending[j].worker == Some(w) && w in s.links
    ensures Asked(s, AbortFrom(s, i, failing), w, j, failing(j))
    decreases s.nextJob - i
  {
    hide AbortJob;
    var t := AbortJob(s, i, failing(i));
    AbortJobs(s, i, failing(i));
    if i == j {
      AbortAsks(s, j, failing(j), w);
      AbortFromElsewhere(t, i + 1, failing, w, j);
    } else {
      AbortElsewhere(s, i, failing(i), w);
      AbortFromAsks(t, i + 1, failing, w, j);
    }
  }

  lemma OneJobEach(s: Pool, j: JobId, w: WorkerId)
    requires Core(s, None) && j in s.pending && s.pending[j].worker == Some(w) && w in s.links
    ensures OnlyWorks(s, w, j) && j < s.nextJob && w < s.nextWorker
  {
    hide LinkOk, QueuesOk, CallbacksOk, IdleOk;
    WorkerHasJob(s, j, w);
    forall i | i in s.pending && s.pending[i].worker == Some(w) ensures i == j {
      WorkerHasJob(s, i, w);
    }
  }

  /** When a running job is cancelled, by its own signal or by the closing of the pool, its worker
      gets the request to cancel it behind all earlier requests, once, and nothing else of the worker
      changes; a worker that cannot be asked is lost, and the job waits for its termination. */
  lemma CancellationIsSent(size: nat, events: seq<Event>, e: Event, j: JobId, w: WorkerId)
    requires size >= 1
    requires var s := Reached(size, events);
             Aborts(s, e, j) && j in s.pending && !s.pending[j].aborted && s.pending[j].worker == Some(w) && w in s.links
    ensures var s, t := Reached(size, events), Reached(size, events + [e]);
            var fails := if e.Abort? then e.sendFails else e.failing(j);
            && Asked(s, t, w, j, fails)
            && (fails ==> w in t.retiring && t.retiring[w] == Some(j) && j in t.pending)
  {
    hide Reached, Dispatch, AbortJob, AbortFrom, HostOk, LinksOk, Joining, Promotes, Starts, Saturated;
    var s, t := Reached(size, events), Reached(size, events + [e]);
    OneJobEach(s, j, w);
    ReachedNext(size, events, e);
    JobsChangeOnlySo(size, events, e, j);
    NotLost(s, j, w);
    match e
    case Abort(_, sendFails, fates) =>
      AbortAsks(s, j, sendFails, w);
      if sendFails {
        EffectLaunchesNone(s, e);
        EffectCore(s, e);
        DispatchLaunches(Effect(s, e), fates);
        assert w !in t.links;
        StillHeld(t, j, w);
      }
    case Close(failing) =>
      AbortFromAsks(s.(closed := true), 0, failing, w, j);
    if w !in t.links { StillHeld(t, j, w); }
  }

  lemma NotLost(s: Pool, j: JobId, w: WorkerId)
    requires Core(s, None) && w in s.links
    ensures w !in s.retiring
  {
  }

  lemma StillHeld(s: Pool, j: JobId, w: WorkerId)
    requires Core(s, None) && j in s.pending && s.pending[j].worker == Some(w) && w !in s.links
    ensures w in s.retiring && s.retiring[w] == Some(j)
  {
    hide LinkOk, QueuesOk, CallbacksOk, CountsOk, IdleOk;
    assert Holds(s.links, s.retiring, w, j);
  }

  /* ---------- speculative work that waits ---------- */

  /** A worker is free or could be started. */
  predicate HasRoom(s: Pool) {
    s.idle != [] || |s.links| != s.size
  }

  /** Speculative work waits in an open pool that could serve it. */
  predicate Stalled(s: Pool) {
    !s.closed && s.required == [] && s.speculative != [] && s.activeSpeculative < s.size - 1 && HasRoom(s)
  }

  /** A speculative job ends with its lost worker while speculative work waits and there is room. */
  predicate Stalls(s: Pool, e: Event) {
    && e.Retired? && e.worker in s.retiring && s.retiring[e.worker].Some? && s.retiring[e.worker].value in s.pending
    && s.pending[s.retiring[e.worker].value].priority == Speculative
    && !s.closed && s.required == [] && s.speculative != [] && HasRoom(s)
  }

  lemma {:induction false} DispatchNeverStalls(s: Pool, fates: Fates)
    requires Dispatchable(s)
    ensures !Stalled(Dispatch(s, fates))
    decreases Queued(s)
  {
    hide AssignAndLaunch, Finish;
    if !s.closed && DispatchStep(s, fates).Some? {
      DispatchStepShrinks(s, fates);
      DispatchNeverStalls(DispatchStep(s, fates).value, fates);
    }
  }

  lemma QuietStalls(s: Pool, e: Event)
    requires Inv(s) && Redispatches(s, e).None? && !e.Retired? && !Stalled(s)
    ensures !Stalled(Effect(s, e))
  {
    hide HostOk, LinkOk, LinksOk, Apply, UnstartedOk, Without;
    match e
    case Abort(j, sendFails, _) =>
      if j in s.pending && !s.pending[j].aborted && s.pending[j].worker.None? {
        QueueShrinks(s.required, j);
        QueueShrinks(s.speculative, j);
      }
    case Close(failing) => if !s.closed { CloseCore(s, failing); }
    case _ =>
  }

  lemma RetiredStalls(s: Pool, e: Event)
    requires Inv(s) && e.Retired? && !Stalled(s)
    ensures Stalled(Effect(s, e)) <==> Stalls(s, e)
  {
    hide LinksOk, UnstartedOk, CallbacksOk, Without, IdleOk, HistoryOk;
    if e.worker in s.retiring && s.retiring[e.worker].Some? {
      var j := s.retiring[e.worker].value;
      assert Holds(s.links, s.retiring, e.worker, j);
      QueueKept(s.required, j);
      QueueKept(s.speculative, j);
    }
  }

  lemma QueueKept(queue: seq<JobId>, j: JobId)
    ensures j !in queue ==> Without(queue, j) == queue
  {
  }

  /** When does speculative work wait in vain? It begins to do so exactly when a speculative job ends
      with its lost worker while other speculative work waits: that end frees a place, and nothing is
      dispatched. Every event that dispatches ends it. */
  lemma SpeculationStallsIff(size: nat, events: seq<Event>, e: Event)
    requires size >= 1
    ensures var s, t := Reached(size, events), Reached(size, events + [e]);
            && (!Stalled(s) ==> (Stalled(t) <==> Stalls(s, e)))
            && (Redispatches(s, e).Some? ==> !Stalled(t))
  {
    hide Effect, Reached, Dispatch, HostOk, LinksOk, Saturated, Stalled, Stalls;
    var s := Reached(size, events);
    ReachedNext(size, events, e);
    if Redispatches(s, e).Some? {
      DispatchNeverStalls(Effect(s, e), Redispatches(s, e).value);
      NoRetirement(s, e);
    } else if e.Retired? {
      if !Stalled(s) { RetiredStalls(s, e); }
    } else {
      NoRetirement(s, e);
      if !Stalled(s) { QuietStalls(s, e); }
    }
  }

  lemma NoRetirement(s: Pool, e: Event)
    ensures !e.Retired? ==> !Stalls(s, e)
    ensures e.Retired? ==> Redispatches(s, e).None?
  {
  }

  /** Two speculative jobs in a pool of two; the first is lost with its worker. Once that has terminated,
      the second waits with both places free. */
  function StallingRun(): seq<Event> {
    [Execute(1, 1, Speculative, _ => Works), Execute(1, 1, Speculative, _ => Works), Fault(0, _ => Works), Retired(0)]
  }

  const FIRST: Job := Job(1, 1, Speculative, Some(0), false, false)

  predicate FirstRuns(s: Pool) {
    && s.pending.Keys == {1} && s.pending[1] == FIRST && s.links.Keys == {0} && s.links[0].job == Some(1)
    && s.required == [] && s.speculative == [] && s.idle == [] && s.retiring == map[]
    && s.activeSpeculative == 1 && s.size == 2 && !s.closed && s.nextJob == 2
  }

  predicate SecondWaits(s: Pool) {
    && 1 in s.pending && s.pending[1] == FIRST && s.required == [] && s.speculative == [2]
    && s.activeSpeculative == 1 && s.size == 2 && !s.closed
  }

  lemma FirstIsServed(fates: Fates)
    requires fates(1) == Works
    ensures var s := Enqueue(Init(2), Job(1, 1, Speculative, None, false, false));
            Dispatchable(s) && FirstRuns(Dispatch(s, fates))
  {
    hide Touched, Preparation;
    var s := Enqueue(Init(2), Job(1, 1, Speculative, None, false, false));
    assert s.speculative == [1] && s.required == [];
    assert Candidate(s) == Some(1);
    var t := AssignAndLaunch(WithNewWorker(s), 1, 0, Works);
    assert DispatchStep(s, fates) == Some(t);
    DispatchStepShrinks(s, fates);
    assert Without([1], 1) == [];
    NothingToDispatch(t, fates);
  }

  lemma NothingToDispatch(s: Pool, fates: Fates)
    requires Dispatchable(s) && Candidate(s).None?
    ensures Dispatch(s, fates) == s
  {
  }

  lemma FreshRun(size: nat)
    requires size >= 1
    ensures Reached(size, []) == Init(size)
  {
  }

  lemma SecondSubmitted(s: Pool)
    requires FirstRuns(s)
    ensures var t := Effect(s, StallingRun()[1]);
            SecondWaits(t) && t.links == s.links && t.retiring == map[] && t.idle == [] && Candidate(t).None?
  {
    hide CallbackQueue;
  }

  lemma FirstIsLost(s: Pool)
    requires SecondWaits(s) && s.links.Keys == {0} && s.links[0].job == Some(1) && s.retiring == map[] && s.idle == []
    ensures var t := Effect(s, StallingRun()[2]);
            SecondWaits(t) && t.links == map[] && t.retiring == map[0 := Some(1)] && t.idle == [] && Candidate(t).None?
  {
  }

  lemma FirstIsRetired(s: Pool)
    requires SecondWaits(s) && s.links == map[] && s.retiring == map[0 := Some(1)] && s.idle == []
    ensures Stalled(Effect(s, StallingRun()[3]))
  {
    hide CallbackQueue;
  }

  lemma RetirementStalls()
    ensures Stalled(Reached(2, StallingRun()))
  {
    hide Reached, Dispatch, Effect, Inv, Joining, Stalled, Candidate;
    var events := StallingRun();
    assert events[..1] == [] + [events[0]] && events[..2] == events[..1] + [events[1]];
    assert events[..3] == events[..2] + [events[2]] && events == events[..3] + [events[3]];
    FreshRun(2);
    ReachedNext(2, [], events[0]);
    FirstStep();
    ReachedNext(2, events[..1], events[1]);
    SecondSubmitted(Reached(2, events[..1]));
    NothingToDispatch(Effect(Reached(2, events[..1]), events[1]), events[1].fates);
    ReachedNext(2, events[..2], events[2]);
    FirstIsLost(Reached(2, events[..2]));
    NothingToDispatch(Effect(Reached(2, events[..2]), events[2]), events[2].fates);
    ReachedNext(2, events[..3], events[3]);
    FirstIsRetired(Reached(2, events[..3]));
  }

  lemma FirstStep()
    ensures var s := Effect(Init(2), StallingRun()[0]); Dispatchable(s) && FirstRuns(Dispatch(s, StallingRun()[0].fates))
  {
    FirstIsServed(StallingRun()[0].fates);
  }
}
