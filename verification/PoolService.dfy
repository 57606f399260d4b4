/** What one event does to a job, over whole runs: who is served, what changes, and why a job ends. */
module PoolService {
  import opened PoolProtocol
  import opened PoolInvariant
  import opened PoolRuns
  import opened PoolOrders

  /* ---------- what a dispatch does to a job ---------- */

  /** A dispatch changes nothing of a job but the worker, and that only once. */
  ghost predicate OnlyServed(s: Pool, t: Pool) {
    && t.closed == s.closed
    && forall j :: j in t.pending ==>
         && j in s.pending && t.pending[j] == s.pending[j].(worker := t.pending[j].worker)
         && (s.pending[j].worker.Some? ==> t.pending[j].worker == s.pending[j].worker)
  }

  lemma {:induction false} DispatchOnlyServes(s: Pool, fates: Fates)
    requires Dispatchable(s)
    ensures OnlyServed(s, Dispatch(s, fates))
    ensures forall j :: j in s.pending && s.pending[j].worker.Some? ==> j in Dispatch(s, fates).pending
    ensures forall j :: j in s.pending && j !in Dispatch(s, fates).pending ==> fates(j) == NoWorker
    ensures s.closed ==> Dispatch(s, fates) == s
    decreases Queued(s)
  {
    hide DispatchStep, Fewer;
    if !s.closed && DispatchStep(s, fates).Some? {
      DispatchStepShrinks(s, fates);
      TurnFewer(s, fates);
      TurnEnds(s, fates);
      DispatchOnlyServes(DispatchStep(s, fates).value, fates);
    }
  }

  lemma TurnEnds(s: Pool, fates: Fates)
    requires Dispatchable(s) && DispatchStep(s, fates).Some?
    ensures Candidate(s).Some? && s.pending[Candidate(s).value].worker.None?
    ensures Candidate(s).value !in DispatchStep(s, fates).value.pending ==> fates(Candidate(s).value) == NoWorker
  {
    hide AssignAndLaunch, Finish;
    var j := Candidate(s).value;
    if s.idle != [] {
      AssignFewer(s.(idle := s.idle[1..]), j, s.idle[0], fates(j));
    } else if fates(j) != NoWorker {
      AssignFewer(WithNewWorker(s), j, s.nextWorker, fates(j));
    }
  }

  /* ---------- what an event does to a job before the dispatch ---------- */

  /** The event is the promotion of this job. */
  ghost predicate Promotes(s: Pool, e: Event, j: JobId) {
    e.Promote? && IsOldest(s, e.callback, j) && s.pending[j].priority == Speculative
  }

  /** The event cancels this job. */
  predicate Aborts(s: Pool, e: Event, j: JobId) {
    (e.Abort? && e.job == j) || (e.Close? && !s.closed)
  }

  /** The host reads that this job was started. */
  predicate Starts(s: Pool, e: Event, j: JobId) {
    e.Deliver? && e.worker in s.links && s.links[e.worker].responses != [] && s.links[e.worker].responses[0] == Started(j)
  }

  /** The host reads the answer to this job. */
  predicate Answers(s: Pool, e: Event, j: JobId) {
    e.Deliver? && e.worker in s.links && s.links[e.worker].responses != [] &&
    !s.links[e.worker].responses[0].Started? && s.links[e.worker].responses[0].job == j
  }

  /** The worker that was lost with this job has terminated. */
  predicate Loses(s: Pool, e: Event, j: JobId) {
    e.Retired? && e.worker in s.retiring && s.retiring[e.worker] == Some(j)
  }

  /** What the event makes of a job that it does not end. */
  ghost function Changed(s: Pool, e: Event, j: JobId): Job
    requires j in s.pending
  {
    var job := s.pending[j];
    job.(priority := if Promotes(s, e, j) then Required else job.priority,
         aborted := job.aborted || Aborts(s, e, j),
         started := job.started || Starts(s, e, j))
  }

  /** What ends a job before any dispatch. */
  predicate Ends(s: Pool, e: Event, j: JobId)
    requires j in s.pending
  {
    || Answers(s, e, j)
    || Loses(s, e, j)
    || (Aborts(s, e, j) && !s.pending[j].aborted && s.pending[j].worker.None?)
  }

  /** The jobs after `e`, but for what a dispatch then does. */
  ghost predicate Affected(s: Pool, e: Event, t: Pool) {
    && (t.closed <==> s.closed || e.Close?)
    && (forall j :: j in s.pending ==> (j in t.pending <==> !Ends(s, e, j)))
    && (forall j :: j in s.pending && j in t.pending ==> t.pending[j] == Changed(s, e, j))
    && (forall j :: j in t.pending && j !in s.pending ==>
          e.Execute? && !s.closed && j == s.nextJob && t.pending[j] == Job(e.program, e.callback, e.priority, None, false, false))
    && (e.Execute? && !s.closed ==> s.nextJob in t.pending)
  }

  lemma FinishJobs(s: Pool, j: JobId)
    requires j in s.pending
    ensures Finish(s, j).pending == s.pending - {j} && Finish(s, j).closed == s.closed
  {
  }

  lemma AbortJobs(s: Pool, j: JobId, sendFails: bool)
    ensures var t := AbortJob(s, j, sendFails);
            && t.closed == s.closed && t.nextJob == s.nextJob
            && t.pending == if j !in s.pending || s.pending[j].aborted then s.pending
                            else if s.pending[j].worker.None? then s.pending - {j}
                            else s.pending[j := s.pending[j].(aborted := true)]
  {
    hide Finish;
    if j in s.pending {
      var t := s.(pending := s.pending[j := s.pending[j].(aborted := true)]);
      FinishJobs(t, j);
    }
  }

  lemma {:induction false} AbortFromJobs(s: Pool, j: JobId, failing: JobId -> bool)
    requires j <= s.nextJob
    ensures var t := AbortFrom(s, j, failing);
            && t.closed == s.closed
            && (forall i :: i in t.pending ==> i in s.pending && t.pending[i] == s.pending[i].(aborted := t.pending[i].aborted))
            && (forall i :: i in s.pending ==>
                  (i in t.pending <==> i < j || i >= s.nextJob || s.pending[i].aborted || s.pending[i].worker.Some?))
            && (forall i :: i in t.pending ==> (t.pending[i].aborted <==> s.pending[i].aborted || j <= i < s.nextJob))
    decreases s.nextJob - j
  {
    hide AbortJob;
    if j < s.nextJob {
      AbortJobs(s, j, failing(j));
      AbortFromJobs(AbortJob(s, j, failing(j)), j + 1, failing);
    }
  }

  lemma NothingHappens(s: Pool, e: Event, t: Pool)
    requires t.pending == s.pending && (t.closed <==> s.closed || e.Close?)
    requires e.Execute? ==> s.closed
    requires forall j :: j in s.pending ==> !Ends(s, e, j) && Changed(s, e, j) == s.pending[j]
    ensures Affected(s, e, t)
  {
  }

  /** What an abort or a close means for a job. */
  lemma AbortMeans(s: Pool, e: Event, j: JobId)
    requires j in s.pending && (e.Abort? || (e.Close? && !s.closed))
    ensures var hit := e.Close? || e.job == j;
            && (Ends(s, e, j) <==> hit && !s.pending[j].aborted && s.pending[j].worker.None?)
            && Changed(s, e, j) == s.pending[j].(aborted := s.pending[j].aborted || hit)
  {
  }

  lemma AbortAffects(s: Pool, e: Event)
    requires e.Abort?
    ensures Affected(s, e, Effect(s, e))
  {
    hide AbortJob, Ends, Changed;
    AbortJobs(s, e.job, e.sendFails);
    var t := Effect(s, e);
    forall j | j in s.pending
      ensures (j in t.pending <==> !Ends(s, e, j)) && (j in t.pending ==> t.pending[j] == Changed(s, e, j))
    {
      AbortMeans(s, e, j);
    }
  }

  lemma CloseAffects(s: Pool, e: Event)
    requires HostOk(s) && e.Close? && !s.closed
    ensures Affected(s, e, Effect(s, e))
  {
    hide AbortFrom, HostOk, Ends, Changed;
    NewIsLast(s);
    AbortFromJobs(s.(closed := true), 0, e.failing);
    var t := Effect(s, e);
    forall j | j in s.pending
      ensures (j in t.pending <==> !Ends(s, e, j)) && (j in t.pending ==> t.pending[j] == Changed(s, e, j))
    {
      AbortMeans(s, e, j);
    }
  }

  /** The one job that the event can promote is the front of its callback's queue. */
  lemma PromotesFront(s: Pool, e: Event)
    requires HostOk(s) && e.Promote? && Ascending(CallbackQueue(s, e.callback))
    ensures var queue := CallbackQueue(s, e.callback);
            && (queue != [] ==> queue[0] in s.pending)
            && forall j :: Promotes(s, e, j) <==> queue != [] && j == queue[0] && s.pending[j].priority == Speculative
  {
    hide HostOk, CallbackQueue, Ascending;
    var queue := CallbackQueue(s, e.callback);
    OnlyTheFront(s, e.callback);
    if queue != [] { FrontIsOldest(s, e.callback, queue[0]); }
  }

  lemma PromoteAffects(s: Pool, e: Event)
    requires HostOk(s) && e.Promote? && Ascending(CallbackQueue(s, e.callback))
    ensures Affected(s, e, Effect(s, e))
  {
    hide HostOk, CallbackQueue, Ascending, Promotes, Without, Ends, Changed;
    PromotesFront(s, e);
    var t := Effect(s, e);
    forall j | j in s.pending
      ensures (j in t.pending <==> !Ends(s, e, j)) && (j in t.pending ==> t.pending[j] == Changed(s, e, j))
    {
      PromoteMeans(s, e, j);
    }
  }

  lemma PromoteMeans(s: Pool, e: Event, j: JobId)
    requires j in s.pending && e.Promote?
    ensures !Ends(s, e, j) && Changed(s, e, j) == if Promotes(s, e, j) then s.pending[j].(priority := Required) else s.pending[j]
  {
    hide Promotes;
  }

  lemma DeliverAffects(s: Pool, e: Event)
    requires Core(s, None) && e.Deliver? && e.worker in s.links && s.links[e.worker].responses != []
    ensures Affected(s, e, Effect(s, e))
  {
    hide Core, HostOk, LinkOk, Finish;
    var l := s.links[e.worker];
    LinkHere(s, e.worker);
    TakenLink(l, e.worker, s.pending, s.nextJob);
    var t := SetLink(s, e.worker, l.(responses := l.responses[1..]));
    FinishJobs(t, l.responses[0].job);
  }

  lemma EffectAffects(s: Pool, e: Event)
    requires Core(s, None) && (e.Promote? ==> Ascending(CallbackQueue(s, e.callback)))
    ensures Affected(s, e, Effect(s, e))
  {
    hide Effect, LinksOk, UnstartedOk, QueuesOk, WorkersOk, CallbacksOk, CountsOk, CallbackQueue, Ascending, Affected;
    match e
    case Execute(_, _, _, _) => ExecuteAffects(s, e);
    case Promote(_, _) => PromoteAffects(s, e);
    case Abort(_, _, _) => AbortAffects(s, e);
    case Deliver(w, _) =>
      if w in s.links && s.links[w].responses != [] { DeliverAffects(s, e); } else { QuietAffects(s, e); }
    case Close(failing) => if !s.closed { CloseAffects(s, e); } else { QuietAffects(s, e); }
    case Retired(w) => RetiredAffects(s, e);
    case _ => QuietAffects(s, e);
  }

  /** Events that do nothing to any job. */
  predicate Quiet(s: Pool, e: Event) {
    && !e.Execute? && !e.Promote? && !e.Abort? && !e.Retired? && (e.Close? ==> s.closed)
    && (e.Deliver? ==> e.worker !in s.links || s.links[e.worker].responses == [])
  }

  lemma QuietAffects(s: Pool, e: Event)
    requires Quiet(s, e)
    ensures Affected(s, e, Effect(s, e))
  {
    hide *;
    QuietEffect(s, e);
    forall j | j in s.pending ensures !Ends(s, e, j) && Changed(s, e, j) == s.pending[j] {
      QuietMeans(s, e, j);
    }
    NothingHappens(s, e, Effect(s, e));
  }

  lemma QuietEffect(s: Pool, e: Event)
    requires Quiet(s, e)
    ensures Effect(s, e).pending == s.pending && (Effect(s, e).closed <==> s.closed || e.Close?) && !e.Execute?
  {
    hide Apply, IsAnswer, Without;
  }

  lemma QuietMeans(s: Pool, e: Event, j: JobId)
    requires Quiet(s, e) && j in s.pending
    ensures !Ends(s, e, j) && Changed(s, e, j) == s.pending[j]
  {
    hide IsOldest;
  }

  lemma ExecuteAffects(s: Pool, e: Event)
    requires HostOk(s) && e.Execute?
    ensures Affected(s, e, Effect(s, e))
  {
    hide HostOk, CallbackQueue;
    NewIsLast(s);
  }

  lemma RetiredAffects(s: Pool, e: Event)
    requires WorkersOk(s) && e.Retired?
    ensures Affected(s, e, Effect(s, e))
  {
    hide Finish, SlotsOk, IdleOk, Affected;
    if e.worker in s.retiring && s.retiring[e.worker].Some? {
      var j := s.retiring[e.worker].value;
      assert Holds(s.links, s.retiring, e.worker, j);
      FinishJobs(s, j);
      OneEnds(s, e, j, Effect(s, e));
    } else {
      NothingHappens(s, e, Effect(s, e));
    }
  }

  lemma OneEnds(s: Pool, e: Event, j: JobId, t: Pool)
    requires e.Retired? && Loses(s, e, j) && j in s.pending
    requires t.pending == s.pending - {j} && t.closed == s.closed
    ensures Affected(s, e, t)
  {
  }

  /* ---------- over whole runs ---------- */

  lemma ReachedNext(size: nat, events: seq<Event>, e: Event)
    requires size >= 1
    ensures Dispatchable(Effect(Reached(size, events), e))
    ensures Reached(size, events + [e]) == Step(Reached(size, events), e)
    ensures forall p :: Arrived(size, events + [e], p) == Arrived(size, events, p) + Joining(Reached(size, events), e, p)
  {
    hide Step, Effect, Inv;
    assert (events + [e])[..|events|] == events;
    StepInv(Reached(size, events), e);
  }

  /** No worker could be created for this job. */
  predicate Unserved(s: Pool, e: Event, j: JobId) {
    Redispatches(s, e).Some? && Redispatches(s, e).value(j) == NoWorker
  }

  lemma StepAffects(size: nat, events: seq<Event>, e: Event)
    requires size >= 1
    ensures var s := Reached(size, events);
            && Affected(s, e, Effect(s, e)) && Core(Effect(s, e), None)
            && Ordered(Effect(s, e), Arrived(size, events + [e], Required), Arrived(size, events + [e], Speculative))
  {
    hide Effect, Affected, Joining, HostOk;
    var s := Reached(size, events);
    RunOrdered(size, events);
    OrderedEffect(s, e, Arrived(size, events, Required), Arrived(size, events, Speculative));
    EffectCore(s, e);
    EffectAffects(s, e);
    ReachedNext(size, events, e);
  }

  /** What any event does to any job: a submission alone creates one, its program and callback never
      change, nor does its worker once it has one; it becomes required by promotion alone, aborted by
      its cancellation or the closing of the pool, and started by its worker's word. It ends exactly
      when its answer is read, its lost worker has terminated, it is cancelled while it waits, or no
      worker can be created for it. */
  lemma JobsChangeOnlySo(size: nat, events: seq<Event>, e: Event, j: JobId)
    requires size >= 1
    ensures var s, t := Reached(size, events), Reached(size, events + [e]);
            && (j in s.pending && Ends(s, e, j) ==> j !in t.pending)
            && (j in s.pending && j !in t.pending ==> Ends(s, e, j) || (s.pending[j].worker.None? && Unserved(s, e, j)))
            && (j in s.pending && j in t.pending ==>
                  && t.pending[j] == Changed(s, e, j).(worker := t.pending[j].worker)
                  && (s.pending[j].worker.Some? ==> t.pending[j].worker == s.pending[j].worker))
            && (j in t.pending && j !in s.pending ==>
                  && e.Execute? && !s.closed && j == s.nextJob
                  && t.pending[j] == Job(e.program, e.callback, e.priority, t.pending[j].worker, false, false))
            && (t.closed <==> s.closed || e.Close?)
  {
    hide Effect, Core, Dispatch, Reached, Ends, Promotes, Aborts, Starts;
    var s := Reached(size, events);
    ReachedNext(size, events, e);
    StepAffects(size, events, e);
    if Redispatches(s, e).Some? { DispatchOnlyServes(Effect(s, e), Redispatches(s, e).value); }
  }

  /** Service is in order of arrival, over any run: when an event gives a worker to a required job,
      every required job that still waits arrived later; when it gives one to a speculative job, no
      required job is left waiting and every speculative job that still waits arrived later. */
  lemma ServedInOrder(size: nat, events: seq<Event>, e: Event, j: JobId, i: JobId)
    requires size >= 1 && HasWorker(Reached(size, events + [e]), j) && !HasWorker(Reached(size, events), j)
    ensures var t := Reached(size, events + [e]);
            && (t.pending[j].priority == Required && i in t.required ==> Precedes(Arrived(size, events + [e], Required), j, i))
            && (t.pending[j].priority == Speculative ==> t.required == [])
            && (t.pending[j].priority == Speculative && i in t.speculative ==> Precedes(Arrived(size, events + [e], Speculative), j, i))
  {
    hide Effect, Core, Dispatch, Reached, Ends, Promotes, Aborts, Starts, DispatchStep, Arrived, Ordered;
    var s, t := Reached(size, events), Reached(size, events + [e]);
    var u := Effect(s, e);
    ReachedNext(size, events, e);
    StepAffects(size, events, e);
    CoreQueues(u);
    match Redispatches(s, e)
    case None =>
    case Some(fates) =>
      DispatchOnlyServes(u, fates);
      DispatchServes(u, fates, j);
      DispatchFewer(u, fates);
      PrecedesInHistory(u, Arrived(size, events + [e], Required), Arrived(size, events + [e], Speculative), j, i);
  }

  lemma CoreQueues(s: Pool)
    requires Core(s, None)
    ensures QueuesOk(s)
  {
  }

  lemma PrecedesInHistory(s: Pool, required: seq<JobId>, speculative: seq<JobId>, j: JobId, i: JobId)
    requires Ordered(s, required, speculative)
    ensures Precedes(s.required, j, i) ==> Precedes(required, j, i)
    ensures Precedes(s.speculative, j, i) ==> Precedes(speculative, j, i)
  {
    if Precedes(s.required, j, i) { KeptPrecedes(required, SetOf(s.required), j, i); }
    if Precedes(s.speculative, j, i) { KeptPrecedes(speculative, SetOf(s.speculative), j, i); }
  }

  /** A closed pool starts nothing: nothing waits any more, every job that is left runs and has been
      cancelled, and no event gives any job a worker or accepts a new one. */
  lemma ClosedPoolsOnlyEnd(size: nat, events: seq<Event>, e: Event, j: JobId)
    requires size >= 1 && Reached(size, events).closed
    ensures var s, t := Reached(size, events), Reached(size, events + [e]);
            && s.required == [] && s.speculative == []
            && (j in s.pending ==> s.pending[j].worker.Some? && s.pending[j].aborted)
            && (j in t.pending ==> j in s.pending && t.pending[j].worker == s.pending[j].worker)
  {
    hide Inv;
    ClosedPools(size, events);
    JobsChangeOnlySo(size, events, e, j);
  }

  /** A cancelled job that is still pending runs, and all jobs of a closed pool are cancelled. */
  lemma {:induction false} CancelledJobsRun(size: nat, events: seq<Event>, j: JobId)
    requires size >= 1 && j in Reached(size, events).pending
    ensures var s := Reached(size, events);
            && (s.pending[j].aborted ==> s.pending[j].worker.Some?)
            && (s.closed ==> s.pending[j].aborted)
    decreases |events|
  {
    hide Inv, Promotes, Starts, Answers, Loses;
    if events != [] {
      var before, e := events[..|events| - 1], events[|events| - 1];
      assert events == before + [e];
      JobsChangeOnlySo(size, before, e, j);
      if j in Reached(size, before).pending {
        CancelledJobsRun(size, before, j);
      }
    }
  }

  lemma ClosedPools(size: nat, events: seq<Event>)
    requires size >= 1 && Reached(size, events).closed
    ensures var s := Reached(size, events);
            && s.required == [] && s.speculative == []
            && forall j :: j in s.pending ==> s.pending[j].worker.Some? && s.pending[j].aborted
  {
    hide Reached, WorkersOk, CallbacksOk, CountsOk, LinksOk;
    var s := Reached(size, events);
    forall j | j in s.pending ensures s.pending[j].worker.Some? && s.pending[j].aborted {
      CancelledJobsRun(size, events, j);
    }
    assert QueuesOk(s);
    NoneWaits(s);
  }

  lemma NoneWaits(s: Pool)
    requires QueuesOk(s) && forall j :: j in s.pending ==> s.pending[j].worker.Some?
    ensures s.required == [] && s.speculative == []
  {
    NoElements(s.required);
    NoElements(s.speculative);
  }

  lemma NoElements(q: seq<nat>)
    ensures (forall j :: j !in q) ==> q == []
  {
    if q != [] { assert q[0] in q; }
  }

  /* ---------- which worker serves ---------- */

  /** Idle workers have only been lost, or one more is idle, at the end. */
  ghost predicate IdleMoves(s: Pool, t: Pool) {
    Lost(s.idle, t.idle) || (t.idle != [] && t.idle[|t.idle| - 1] !in s.idle && Lost(s.idle, t.idle[..|t.idle| - 1]))
  }

  lemma FinishIdle(s: Pool, j: JobId)
    requires j in s.pending && (s.pending[j].worker.Some? ==> s.pending[j].worker.value !in s.idle)
    ensures IdleMoves(s, Finish(s, j))
  {
    hide Lost, Without;
    LostNone(s.idle);
    if s.pending[j].worker.Some? && s.pending[j].worker.value in s.links {
      assert (s.idle + [s.pending[j].worker.value])[..|s.idle|] == s.idle;
    }
  }

  lemma DropIdle(s: Pool, w: WorkerId)
    ensures Lost(s.idle, Drop(s, w).idle)
  {
    hide Lost, Without;
    LostNone(s.idle);
    LostOne(s.idle, w);
  }

  lemma BusyAreNotIdle(s: Pool)
    requires Core(s, None)
    ensures NoDuplicates(s.idle)
    ensures forall j :: j in s.pending && s.pending[j].worker.Some? ==> s.pending[j].worker.value !in s.idle
  {
    hide LinkOk, QueuesOk, CallbacksOk, CountsOk;
    forall j | j in s.pending && s.pending[j].worker.Some? ensures s.pending[j].worker.value !in s.idle {
      assert Holds(s.links, s.retiring, s.pending[j].worker.value, j);
    }
  }

  lemma {:induction false} AbortFromIdle(s: Pool, j: JobId, failing: JobId -> bool)
    requires j <= s.nextJob
    ensures Lost(s.idle, AbortFrom(s, j, failing).idle)
    decreases s.nextJob - j
  {
    hide AbortJob, Lost;
    LostNone(s.idle);
    if j < s.nextJob {
      var t := AbortJob(s, j, failing(j));
      AbortIdle(s, j, failing(j));
      AbortFromIdle(t, j + 1, failing);
      LostMore(s.idle, t.idle, AbortFrom(s, j, failing).idle);
    }
  }

  lemma AbortIdle(s: Pool, j: JobId, sendFails: bool)
    ensures Lost(s.idle, AbortJob(s, j, sendFails).idle)
  {
    hide Lost, Drop, Without;
    LostNone(s.idle);
    if j in s.pending && s.pending[j].worker.Some? {
      DropIdle(s.(pending := s.pending[j := s.pending[j].(aborted := true)]), s.pending[j].worker.value);
    }
  }

  lemma EffectIdle(s: Pool, e: Event)
    requires Core(s, None)
    ensures IdleMoves(s, Effect(s, e))
  {
    hide Core, Lost, Finish, Drop, AbortJob, AbortFrom, Take, Apply, IsAnswer, CallbackQueue;
    BusyAreNotIdle(s);
    LostNone(s.idle);
    match e
    case Abort(j, sendFails, _) => AbortIdle(s, j, sendFails);
    case Deliver(w, _) => if w in s.links && s.links[w].responses != [] { TakeIdle(s, w); }
    case Fault(w, _) => DropIdle(s, w);
    case Retired(w) =>
      if w in s.retiring && s.retiring[w].Some? && s.retiring[w].value in s.pending { FinishIdle(s, s.retiring[w].value); }
    case Close(failing) => if !s.closed { AbortFromIdle(s.(closed := true), 0, failing); }
    case Terminate => assert Kept(s.idle, SetOf([])) == [] by { KeptNone(s.idle); }  LostAll(s.idle);
    case WorkerReceives(w, _) => DropIdle(s, w);
    case _ =>
  }

  lemma {:induction false} KeptNone(q: seq<nat>)
    ensures Kept(q, SetOf([])) == []
  {
    if q != [] { KeptNone(q[..|q| - 1]); }
  }

  lemma LostAll(q: seq<nat>)
    ensures Lost(q, [])
  {
    KeptNone(q);
  }

  lemma TakeIdle(s: Pool, w: WorkerId)
    requires Core(s, None) && w in s.links && s.links[w].responses != []
    ensures IdleMoves(s, Take(s, w))
  {
    hide Core, Lost, Finish, Drop;
    var l := s.links[w];
    var t := SetLink(s, w, l.(responses := l.responses[1..]));
    BusyAreNotIdle(s);
    LostNone(s.idle);
    DropIdle(t, w);
    if Judge(l.job, s.pending, l.responses[0]) == Complete { FinishIdle(t, l.responses[0].job); }
  }

  /** A dispatch takes idle workers from the front. */
  lemma {:induction false} DispatchIdle(s: Pool, fates: Fates)
    requires Dispatchable(s)
    ensures |Dispatch(s, fates).idle| <= |s.idle| && Dispatch(s, fates).idle == s.idle[|s.idle| - |Dispatch(s, fates).idle|..]
    decreases Queued(s)
  {
    hide DispatchStep;
    if !s.closed && DispatchStep(s, fates).Some? {
      var t := DispatchStep(s, fates).value;
      DispatchStepShrinks(s, fates);
      TurnIdle(s, fates);
      DispatchIdle(t, fates);
    }
  }

  lemma TurnIdle(s: Pool, fates: Fates)
    requires Dispatchable(s) && DispatchStep(s, fates).Some?
    ensures DispatchStep(s, fates).value.idle == if s.idle == [] then [] else s.idle[1..]
  {
    hide Without, Touched, Preparation, Queued;
    TurnEnds(s, fates);
    if s.idle != [] { NoDuplicatesTail(s.idle); }
    NewIsNotIdle(s);
  }

  lemma NewIsNotIdle(s: Pool)
    ensures s.idle == [] ==> WithNewWorker(s).idle == []
  {
  }

  lemma SuffixKeepsOrder(a: seq<nat>, k: nat, x: nat, y: nat)
    requires NoDuplicates(a) && k <= |a| && y in a[k..]
    ensures x in a[k..] ==> (Precedes(a[k..], x, y) <==> Precedes(a, x, y))
    ensures x in a && x !in a[k..] ==> Precedes(a, x, y)
  {
    var b := a[k..];
    var j :| 0 <= j < |b| && b[j] == y;
    assert a[k + j] == y;
    if x in a && x !in b {
      assert a == a[..k] + b;
      var i :| 0 <= i < k && a[..k][i] == x;
      assert a[i] == x;
    }
    if x in b {
      var i :| 0 <= i < |b| && b[i] == x;
      assert a[k + i] == x;
    }
  }

  /** Workers take turns, over any run: of two that stay idle the order stays, a worker that becomes idle
      stands behind all that were, and one that was idle and is not any more, by an event other than its
      own loss or the end of the pool, stood before all that still are: the one idle longest serves. */
  lemma IdleWorkersTakeTurns(size: nat, events: seq<Event>, e: Event, v: WorkerId, w: WorkerId)
    requires size >= 1
    requires v in Reached(size, events).idle && w in Reached(size, events + [e]).idle
    ensures var s, t := Reached(size, events), Reached(size, events + [e]);
            && (v in t.idle && w in s.idle ==> (Precedes(t.idle, v, w) <==> Precedes(s.idle, v, w)))
            && (v in t.idle && w !in s.idle ==> Precedes(t.idle, v, w))
            && (v !in t.idle && w in s.idle && v in Effect(s, e).idle ==> Precedes(s.idle, v, w))
  {
    hide Effect, Core, Dispatch, Reached, Lost, Precedes, Joining;
    var s, t := Reached(size, events), Reached(size, events + [e]);
    var u := Effect(s, e);
    ReachedNext(size, events, e);
    EffectCore(s, e);
    EffectIdle(s, e);
    BusyAreNotIdle(s);
    BusyAreNotIdle(u);
    if Redispatches(s, e).Some? { DispatchIdle(u, Redispatches(s, e).value); }
    var k := |u.idle| - |t.idle|;
    assert t.idle == u.idle[k..];
    SuffixKeepsOrder(u.idle, k, v, w);
    assert w in u.idle;
    if v in u.idle { IdleOrder(s, u, v, w); }
  }

  lemma IdleOrder(s: Pool, u: Pool, v: WorkerId, w: WorkerId)
    requires IdleMoves(s, u) && NoDuplicates(s.idle) && NoDuplicates(u.idle) && v in s.idle && v in u.idle && w in u.idle
    ensures w in s.idle ==> (Precedes(u.idle, v, w) <==> Precedes(s.idle, v, w))
    ensures w !in s.idle ==> Precedes(u.idle, v, w)
  {
    hide Precedes;
    if Lost(s.idle, u.idle) {
      SameOrder(s.idle, u.idle, v, w);
    } else {
      var front, last := u.idle[..|u.idle| - 1], u.idle[|u.idle| - 1];
      assert u.idle == front + [last];
      SameOrder(s.idle, front, v, w);
      LastStands(front, last, v, w);
    }
  }

  lemma LastStands(front: seq<nat>, last: nat, v: nat, w: nat)
    requires NoDuplicates(front + [last]) && v in front
    ensures Precedes(front + [last], v, last)
    ensures w in front ==> (Precedes(front + [last], v, w) <==> Precedes(front, v, w))
  {
    var all := front + [last];
    var i :| 0 <= i < |front| && front[i] == v;
    assert all[i] == v && all[|front|] == last;
    if Precedes(front, v, w) {
      var x, y :| 0 <= x < y < |front| && front[x] == v && front[y] == w;
      assert all[x] == v && all[y] == w;
    }
    if w in front && Precedes(all, v, w) {
      var x, y :| 0 <= x < y < |all| && all[x] == v && all[y] == w;
      var z :| 0 <= z < |front| && front[z] == w;
      assert all[z] == w;
      assert front[x] == v && front[y] == w;
    }
  }
}
