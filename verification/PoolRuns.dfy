/** The pool over whole runs: any interleaving of submissions, promotions, aborts, deliveries,
    worker steps, worker losses and closing. */
module PoolRuns {
  import opened PoolProtocol
  import opened PoolInvariant

  lemma CoreDispatchable(s: Pool)
    requires Core(s, None)
    ensures Dispatchable(s)
  {
  }

  lemma FinishCore(s: Pool, j: JobId, taken: Option<WorkerId>)
    requires Core(s, taken) && j in s.pending
    requires s.pending[j].worker.Some? && s.pending[j].worker.value in s.links ==> taken == s.pending[j].worker
    requires taken.Some? ==> taken == s.pending[j].worker
    ensures Core(Finish(s, j), None)
  {
    hide HostOk, LinkOk, Without;
    FinishHost(s, j);
    var t := Finish(s, j);
    forall v | v in t.links ensures LinkOk(t.links[v], v, t.pending, t.nextJob, None) {
      assert LinkOk(s.links[v], v, s.pending, s.nextJob, taken);
      if taken == Some(v) {
        FreedLink(s.links[v], v, j, s.pending, s.nextJob, t.pending);
      } else {
        UntakenLink(s.links[v], v, s.pending, s.nextJob, taken);
        OtherJob(s, v, j);
        LinkLater(s.links[v], v, s.pending, s.nextJob, t.pending, t.nextJob, None);
      }
    }
  }

  lemma FreedLink(l: Link, w: WorkerId, j: JobId, pending: map<JobId, Job>, nextJob: nat, pending': map<JobId, Job>)
    requires LinkOk(l, w, pending, nextJob, Some(w)) && pending' == pending - {j}
    ensures LinkOk(l.(job := None), w, pending', nextJob, None)
  {
    hide RunsIn, Accepted, ProgramsAfter, NoDuplicates;
  }

  lemma UntakenLink(l: Link, w: WorkerId, pending: map<JobId, Job>, nextJob: nat, taken: Option<WorkerId>)
    requires LinkOk(l, w, pending, nextJob, taken) && taken != Some(w)
    ensures LinkOk(l, w, pending, nextJob, None)
  {
    hide InStep, RunsIn;
  }

  lemma OtherJob(s: Pool, w: WorkerId, j: JobId)
    requires HostOk(s) && j in s.pending && w in s.links && s.pending[j].worker != Some(w)
    ensures s.links[w].job != Some(j)
    ensures s.links[w].job.Some? ==> s.links[w].job.value in s.pending
  {
    if s.links[w].job.Some? {
      assert Holds(s.links, s.retiring, w, s.links[w].job.value);
    }
  }

  lemma DropCore(s: Pool, w: WorkerId)
    requires Core(s, None)
    ensures Core(Drop(s, w), None)
  {
    hide HostOk, LinkOk, Without;
    DropHost(s, w);
  }

  lemma AssignedLinks(s: Pool, j: JobId)
    requires Core(s, None) && j in s.pending && s.pending[j].worker.None? && s.idle != [] && s.idle[0] in s.links
    ensures var t := Assign(s.(idle := s.idle[1..]), j, s.idle[0]);
            && UnstartedOk(t.pending)
            && forall v :: v in t.links && v != s.idle[0] ==> LinkOk(t.links[v], v, t.pending, t.nextJob, None)
  {
    hide HostOk, LinkOk, Without;
    var t := Assign(s.(idle := s.idle[1..]), j, s.idle[0]);
    forall v | v in t.links && v != s.idle[0] ensures LinkOk(t.links[v], v, t.pending, t.nextJob, None) {
      assert LinkOk(s.links[v], v, s.pending, s.nextJob, None);
      OtherJob(s, v, j);
      LinkLater(s.links[v], v, s.pending, s.nextJob, t.pending, t.nextJob, None);
    }
  }

  lemma LaunchCore(s: Pool, j: JobId, fate: Fate)
    requires Core(s, None) && j in s.pending && s.pending[j].worker.None? && s.idle != [] && s.idle[0] in s.links
    requires s.links[s.idle[0]].job.None?
    requires s.pending[j].priority == Speculative ==> s.activeSpeculative < s.size - 1
    ensures Core(AssignAndLaunch(s.(idle := s.idle[1..]), j, s.idle[0], fate), None)
  {
    hide HostOk, LinkOk, Without, Launch, SameTables, UnstartedOk;
    var w := s.idle[0];
    var t := Assign(s.(idle := s.idle[1..]), j, w);
    AssignHost(s, j);
    AssignedLinks(s, j);
    if fate == SendFails {
      DropHost(t, w);
    } else {
      SentLink(s, j);
      LaunchTables(t, j, w);
      SameTablesHost(t, Launch(t, j, w));
    }
  }

  lemma LaunchTables(s: Pool, j: JobId, w: WorkerId)
    requires j in s.pending && w in s.links
    ensures SameTables(s, Launch(s, j, w)) && Launch(s, j, w).pending == s.pending && Launch(s, j, w).nextJob == s.nextJob
    ensures Launch(s, j, w).links.Keys == s.links.Keys
    ensures forall v :: v in s.links && v != w ==> Launch(s, j, w).links[v] == s.links[v]
  {
    hide Touched, Preparation;
  }

  lemma SentLink(s: Pool, j: JobId)
    requires Core(s, None) && j in s.pending && s.pending[j].worker.None? && s.idle != [] && s.idle[0] in s.links
    requires s.links[s.idle[0]].job.None?
    ensures var t := Assign(s.(idle := s.idle[1..]), j, s.idle[0]);
            LinkOk(Launch(t, j, s.idle[0]).links[s.idle[0]], s.idle[0], t.pending, t.nextJob, None)
  {
    hide HostOk, LinkOk, Without, Touched, Preparation;
    var w, p := s.idle[0], s.pending[j].program;
    var t := Assign(s.(idle := s.idle[1..]), j, w);
    assert LinkOk(s.links[w], w, s.pending, s.nextJob, None);
    IdleLink(s.links[w], w, s.pending, s.nextJob, t.pending);
    LaunchedLink(s.links[w], w, j, p, t.pending, t.nextJob);
    assert Launch(t, j, w).links[w] == s.links[w].(job := Some(j), installed := Touched(s.links[w].installed, p),
      requests := s.links[w].requests + Preparation(s.links[w].installed, p) + [Run(j, p)]);
  }

  lemma IdleLink(l: Link, w: WorkerId, pending: map<JobId, Job>, nextJob: nat, pending': map<JobId, Job>)
    requires LinkOk(l, w, pending, nextJob, None) && l.job.None?
    requires forall k :: k in pending' ==> k in pending && pending'[k].aborted == pending[k].aborted
    ensures InStep(l) && Quiet(l) && CancelsOk(l.requests, pending', nextJob)
  {
    hide InStep, RunsIn;
  }

  lemma NewWorkerCore(s: Pool)
    requires Core(s, None) && |s.links| < s.size && s.idle == []
    ensures Core(WithNewWorker(s).(idle := [s.nextWorker]), None)
  {
    hide HostOk, LinkOk;
    NewWorkerHost(s);
    FreshLink(s.nextWorker, s.pending, s.nextJob);
  }

  lemma FreshLink(w: WorkerId, pending: map<JobId, Job>, nextJob: nat)
    ensures LinkOk(FRESH_LINK, w, pending, nextJob, None)
  {
  }

  lemma CandidateOk(s: Pool)
    requires Core(s, None) && Candidate(s).Some?
    ensures var j := Candidate(s).value;
            && j in s.pending && s.pending[j].worker.None?
            && (s.pending[j].priority == Speculative ==> s.activeSpeculative < s.size - 1)
    ensures s.idle != [] ==> s.idle[0] in s.links && s.links[s.idle[0]].job.None?
  {
    assert Candidate(s).value in s.required || Candidate(s).value in s.speculative;
    assert s.idle != [] ==> s.idle[0] in s.idle;
  }

  lemma DispatchStepCore(s: Pool, fates: Fates)
    requires Core(s, None) && Dispatchable(s)
    ensures DispatchStep(s, fates).Some? ==>
              Core(DispatchStep(s, fates).value, None) && DispatchStep(s, fates).value.closed == s.closed
    ensures DispatchStep(s, fates).None? ==> s.required == [] || (s.idle == [] && |s.links| == s.size)
  {
    hide Core, AssignAndLaunch, Finish;
    if Candidate(s).Some? {
      CandidateOk(s);
      var j := Candidate(s).value;
      if s.idle != [] {
        LaunchCore(s, j, fates(j));
        LaunchClosed(s.(idle := s.idle[1..]), j, s.idle[0], fates(j));
      } else if |s.links| != s.size {
        if fates(j) == NoWorker {
          FinishCore(s, j, None);
        } else {
          LinksFit(s);
          NewWorkerCore(s);
          var t := WithNewWorker(s).(idle := [s.nextWorker]);
          LaunchCore(t, j, fates(j));
          assert t.(idle := t.idle[1..]) == WithNewWorker(s);
          LaunchClosed(WithNewWorker(s), j, s.nextWorker, fates(j));
        }
      }
    }
  }

  lemma LinksFit(s: Pool)
    requires Core(s, None)
    ensures |s.links| <= s.size
  {
  }

  lemma LaunchClosed(s: Pool, j: JobId, w: WorkerId, fate: Fate)
    requires j in s.pending && w in s.links
    ensures AssignAndLaunch(s, j, w, fate).closed == s.closed
  {
  }

  /** The dispatch loop ends with no required job queued, or with every slot busy. */
  lemma {:induction false} DispatchInv(s: Pool, fates: Fates)
    requires Core(s, None) && Dispatchable(s)
    ensures Inv(Dispatch(s, fates)) && Dispatch(s, fates).closed == s.closed
    decreases Queued(s)
  {
    hide Core, DispatchStep;
    if !s.closed {
      DispatchStepCore(s, fates);
      if DispatchStep(s, fates).Some? {
        DispatchStepShrinks(s, fates);
        DispatchInv(DispatchStep(s, fates).value, fates);
      }
    }
  }

  /* ---------- events ---------- */

  lemma EnqueueCore(s: Pool, job: Job)
    requires Core(s, None) && job.worker.None? && !job.started
    ensures Core(Enqueue(s, job), None)
  {
    hide HostOk, LinkOk, Enqueue;
    EnqueueShape(s, job);
    EnqueueHost(s, job);
    var t := Enqueue(s, job);
    forall v | v in t.links ensures LinkOk(t.links[v], v, t.pending, t.nextJob, None) {
      assert LinkOk(s.links[v], v, s.pending, s.nextJob, None);
      if s.links[v].job.Some? { LinkedJob(s, v); }
      LinkLater(s.links[v], v, s.pending, s.nextJob, t.pending, t.nextJob, None);
    }
  }

  lemma LinkedJob(s: Pool, w: WorkerId)
    requires HostOk(s) && w in s.links && s.links[w].job.Some?
    ensures var j := s.links[w].job.value; j in s.pending && j < s.nextJob && s.pending[j].worker == Some(w)
  {
    assert Holds(s.links, s.retiring, w, s.links[w].job.value);
  }

  lemma RaiseCore(s: Pool, j: JobId)
    requires Core(s, None) && j in s.pending && s.pending[j].priority == Speculative
    ensures Core(Raise(s, j), None)
  {
    hide HostOk, LinkOk, Without;
    RaiseHost(s, j);
    var t := Raise(s, j);
    forall v | v in t.links ensures LinkOk(t.links[v], v, t.pending, t.nextJob, None) {
      assert LinkOk(s.links[v], v, s.pending, s.nextJob, None);
      if s.links[v].job.Some? { LinkedJob(s, v); }
      LinkLater(s.links[v], v, s.pending, s.nextJob, t.pending, t.nextJob, None);
    }
  }

  lemma MarkAbortedCore(s: Pool, j: JobId)
    requires Core(s, None) && j in s.pending
    ensures Core(s.(pending := s.pending[j := s.pending[j].(aborted := true)]), None)
  {
    hide HostOk, LinkOk;
    var t := s.(pending := s.pending[j := s.pending[j].(aborted := true)]);
    SameTablesHost(s, t);
    forall v | v in t.links ensures LinkOk(t.links[v], v, t.pending, t.nextJob, None) {
      assert LinkOk(s.links[v], v, s.pending, s.nextJob, None);
      if s.links[v].job.Some? { LinkedJob(s, v); }
      LinkLater(s.links[v], v, s.pending, s.nextJob, t.pending, t.nextJob, None);
    }
  }

  /** Replacing one link by another that is fine for the same job. */
  lemma SetLinkCore(s: Pool, w: WorkerId, l: Link)
    requires Core(s, None) && w in s.links && l.job == s.links[w].job && LinkOk(l, w, s.pending, s.nextJob, None)
    ensures Core(SetLink(s, w, l), None)
  {
    hide HostOk, LinkOk;
    assert SameTables(s, SetLink(s, w, l));
    SameTablesHost(s, SetLink(s, w, l));
  }

  lemma AbortCore(s: Pool, j: JobId, sendFails: bool)
    requires Core(s, None)
    ensures Core(AbortJob(s, j, sendFails), None)
    ensures AbortJob(s, j, sendFails).closed == s.closed && AbortJob(s, j, sendFails).nextJob == s.nextJob
  {
    hide Core, HostOk, LinkOk, Finish;
    if j in s.pending && !s.pending[j].aborted {
      var t := s.(pending := s.pending[j := s.pending[j].(aborted := true)]);
      MarkAbortedCore(s, j);
      match s.pending[j].worker
      case None =>
        FinishCore(t, j, None);
      case Some(w) =>
        if w in t.links {
          if sendFails {
            DropCore(t, w);
          } else {
            LinkIn(t, w, j);
            CancelledLink(t.links[w], w, j, t.pending, t.nextJob);
            SetLinkCore(t, w, t.links[w].(requests := t.links[w].requests + [Cancel(j)]));
          }
        }
    }
  }

  lemma LinkIn(s: Pool, w: WorkerId, j: JobId)
    requires Core(s, None) && w in s.links && j in s.pending
    ensures LinkOk(s.links[w], w, s.pending, s.nextJob, None) && j < s.nextJob
  {
  }

  lemma {:induction false} AbortFromCore(s: Pool, j: JobId, failing: JobId -> bool)
    requires Core(s, None) && j <= s.nextJob
    ensures Core(AbortFrom(s, j, failing), None) && AbortFrom(s, j, failing).closed == s.closed
    decreases s.nextJob - j
  {
    hide Core, AbortJob;
    if j < s.nextJob {
      AbortCore(s, j, failing(j));
      AbortFromCore(AbortJob(s, j, failing(j)), j + 1, failing);
    }
  }

  lemma TakeCore(s: Pool, w: WorkerId)
    requires Core(s, None) && w in s.links && s.links[w].responses != []
    ensures Judge(s.links[w].job, s.pending, s.links[w].responses[0]) != Refuse
    ensures Core(Take(s, w), None)
  {
    hide HostOk, LinkOk, Finish, Core;
    LinkHere(s, w);
    TakenLink(s.links[w], w, s.pending, s.nextJob);
    if Judge(s.links[w].job, s.pending, s.links[w].responses[0]) == Complete {
      CompleteCore(s, w);
    } else {
      NoteCore(s, w);
    }
  }

  lemma PoppedTables(s: Pool, w: WorkerId)
    requires HostOk(s) && w in s.links && s.links[w].responses != []
    ensures HostOk(SetLink(s, w, s.links[w].(responses := s.links[w].responses[1..])))
  {
    hide HostOk;
    var t := SetLink(s, w, s.links[w].(responses := s.links[w].responses[1..]));
    assert SameTables(s, t);
    SameTablesHost(s, t);
  }

  lemma CompleteCore(s: Pool, w: WorkerId)
    requires Core(s, None) && w in s.links && s.links[w].responses != []
    requires Judge(s.links[w].job, s.pending, s.links[w].responses[0]) == Complete
    ensures Core(Take(s, w), None)
  {
    hide HostOk, LinkOk, Finish;
    var l := s.links[w];
    var t := SetLink(s, w, l.(responses := l.responses[1..]));
    assert LinkOk(l, w, s.pending, s.nextJob, None);
    TakenLink(l, w, s.pending, s.nextJob);
    PoppedTables(s, w);
    LinkedJob(s, w);
    forall v | v in t.links ensures LinkOk(t.links[v], v, t.pending, t.nextJob, Some(w)) {
      if v != w {
        assert LinkOk(s.links[v], v, s.pending, s.nextJob, None);
        TakenElsewhere(s.links[v], v, s.pending, s.nextJob, w);
      }
    }
    FinishCore(t, l.responses[0].job, Some(w));
  }

  lemma NoteCore(s: Pool, w: WorkerId)
    requires Core(s, None) && w in s.links && s.links[w].responses != []
    requires Judge(s.links[w].job, s.pending, s.links[w].responses[0]) == Note
    ensures Core(Take(s, w), None)
  {
    hide HostOk, LinkOk, Finish;
    var l := s.links[w];
    var m := l.responses[0];
    var t := SetLink(s, w, l.(responses := l.responses[1..]));
    var u := t.(pending := t.pending[m.job := t.pending[m.job].(started := true)]);
    assert LinkOk(l, w, s.pending, s.nextJob, None);
    TakenLink(l, w, s.pending, s.nextJob);
    PoppedTables(s, w);
    LinkedJob(s, w);
    assert SameTables(t, u);
    SameTablesHost(t, u);
    forall v | v in u.links ensures LinkOk(u.links[v], v, u.pending, u.nextJob, None) {
      if v != w {
        assert LinkOk(s.links[v], v, s.pending, s.nextJob, None);
        OtherJob(s, v, m.job);
        if s.links[v].job.Some? { LinkedJob(s, v); }
        LinkLater(s.links[v], v, s.pending, s.nextJob, u.pending, u.nextJob, None);
      }
    }
  }

  lemma TakenElsewhere(l: Link, v: WorkerId, pending: map<JobId, Job>, nextJob: nat, w: WorkerId)
    requires LinkOk(l, v, pending, nextJob, None) && v != w
    ensures LinkOk(l, v, pending, nextJob, Some(w))
  {
    hide InStep, RunsIn;
  }

  lemma RetiredCore(s: Pool, w: WorkerId)
    requires Core(s, None) && w in s.retiring
    ensures s.retiring[w].Some? ==>
              && s.retiring[w].value in s.pending && s.pending[s.retiring[w].value].worker == Some(w) && w !in s.links
    ensures Core(Effect(s, Retired(w)), None)
  {
    hide LinkOk, Finish;
    if s.retiring[w].Some? {
      var j := s.retiring[w].value;
      assert Holds(s.links, s.retiring, w, j);
      FinishCore(s, j, None);
      FinishRetires(s, j, w);
      ForgetRetired(Finish(s, j), w);
    } else {
      ForgetRetired(s, w);
    }
  }

  lemma FinishRetires(s: Pool, j: JobId, w: WorkerId)
    requires j in s.pending && s.pending[j].worker == Some(w) && w in s.retiring && w !in s.links
    ensures w in Finish(s, j).retiring && Finish(s, j).retiring[w] == None
  {
  }

  lemma ForgetRetired(s: Pool, w: WorkerId)
    requires Core(s, None) && w in s.retiring && s.retiring[w] == None
    ensures Core(s.(retiring := s.retiring - {w}), None)
  {
    hide LinkOk, NoDuplicates, QueueOk, CallbackOk, HistoryOk, SpeculationOk, IdleOk;
    var t := s.(retiring := s.retiring - {w});
    forall v: WorkerId, j: JobId ensures Holds(t.links, t.retiring, v, j) <==> Holds(s.links, s.retiring, v, j) {
    }
    forall c ensures CallbackQueue(t, c) == CallbackQueue(s, c) {
    }
  }

  lemma TerminateCore(s: Pool)
    requires Core(s, None) && s.closed && s.pending == map[]
    ensures Core(s.(links := map[], idle := []), None)
  {
    hide LinkOk, QueueOk, CallbackOk, HistoryOk, SpeculationOk;
    var t := s.(links := map[], idle := []);
    forall v: WorkerId, j: JobId | Holds(t.links, t.retiring, v, j) ensures Holds(s.links, s.retiring, v, j) {
    }
    forall c ensures CallbackQueue(t, c) == CallbackQueue(s, c) {
    }
  }

  lemma EffectCore(s: Pool, e: Event)
    requires Core(s, None)
    ensures Core(Effect(s, e), None)
  {
    hide Core, HostOk, LinkOk, Enqueue, Raise, AbortJob, AbortFrom, Take, Drop, Apply, Finish;
    match e
    case Execute(p, c, priority, _) => EnqueueCore(s, Job(p, c, priority, None, false, false));
    case Promote(c, _) =>
      var queue := CallbackQueue(s, c);
      if queue != [] && queue[0] in s.pending && s.pending[queue[0]].priority == Speculative { RaiseCore(s, queue[0]); }
    case Abort(j, sendFails, _) => AbortCore(s, j, sendFails);
    case Deliver(w, _) => if w in s.links && s.links[w].responses != [] { TakeCore(s, w); }
    case Fault(w, _) => DropCore(s, w);
    case Retired(w) => if w in s.retiring { RetiredCore(s, w); }
    case Close(failing) => if !s.closed { CloseCore(s, failing); }
    case Terminate => if s.closed && s.pending == map[] { TerminateCore(s); }
    case WorkerReceives(w, _) =>
      if w in s.links && s.links[w].requests != [] {
        LinkHere(s, w);
        ReceivedLink(s.links[w], w, s.pending, s.nextJob);
        var l := s.links[w];
        SetLinkCore(s, w, l.(requests := l.requests[1..], remote := Apply(l.remote, l.requests[0]).value));
      }
    case WorkerAnnounces(w, j) =>
      if w in s.links && j in s.links[w].remote.running && !s.links[w].remote.running[j].announced {
        LinkHere(s, w);
        AnnouncedLink(s.links[w], w, j, s.pending, s.nextJob);
        var l := s.links[w];
        var r := l.remote.(running := l.remote.running[j := l.remote.running[j].(announced := true)]);
        SetLinkCore(s, w, l.(remote := r, responses := l.responses + [Started(j)]));
      }
    case WorkerAnswers(w, m) =>
      if w in s.links && m.job in s.links[w].remote.running && IsAnswer(m, s.links[w].remote.running[m.job]) {
        LinkHere(s, w);
        AnsweredLink(s.links[w], w, m, s.pending, s.nextJob);
        var l := s.links[w];
        var r := l.remote.(running := l.remote.running - {m.job});
        SetLinkCore(s, w, l.(remote := r, responses := l.responses + [m]));
      }
  }

  lemma CloseCore(s: Pool, failing: JobId -> bool)
    requires Core(s, None)
    ensures Core(AbortFrom(s.(closed := true), 0, failing), None) && AbortFrom(s.(closed := true), 0, failing).closed
  {
    hide HostOk, LinkOk;
    ClosedCore(s);
    AbortFromCore(s.(closed := true), 0, failing);
  }

  lemma ClosedCore(s: Pool)
    requires Core(s, None)
    ensures Core(s.(closed := true), None)
  {
    hide LinkOk;
    assert SameTables(s, s.(closed := true));
    SameTablesHost(s, s.(closed := true));
  }

  lemma LinkHere(s: Pool, w: WorkerId)
    requires Core(s, None) && w in s.links
    ensures LinkOk(s.links[w], w, s.pending, s.nextJob, None)
  {
  }

  /** The events after which nothing is dispatched make no room for a queued required job. */
  lemma QuietEvents(s: Pool, e: Event)
    requires Inv(s) && Redispatches(s, e).None?
    ensures Saturated(Effect(s, e))
  {
    hide HostOk, LinkOk, LinksOk, Apply, UnstartedOk, Without;
    match e
    case Abort(j, sendFails, _) =>
      if j in s.pending && !s.pending[j].aborted && s.pending[j].worker.None? { QueueShrinks(s.required, j); }
    case Retired(w) =>
      if w in s.retiring {
        RetiredCore(s, w);
        if s.retiring[w].Some? { QueueShrinks(s.required, s.retiring[w].value); }
      }
    case Close(failing) => if !s.closed { CloseCore(s, failing); }
    case _ =>
  }

  lemma QueueShrinks(queue: seq<JobId>, j: JobId)
    ensures queue == [] ==> Without(queue, j) == []
  {
  }

  lemma StepInv(s: Pool, e: Event)
    requires Inv(s)
    ensures Dispatchable(Effect(s, e)) && Inv(Step(s, e))
  {
    hide Core, Saturated, Effect;
    EffectCore(s, e);
    CoreDispatchable(Effect(s, e));
    match Redispatches(s, e)
    case None => QuietEvents(s, e);
    case Some(fates) => DispatchInv(Effect(s, e), fates);
  }

  lemma InitInv(size: nat)
    requires size >= 1
    ensures Inv(Init(size))
  {
  }

  lemma EffectSize(s: Pool, e: Event)
    ensures Effect(s, e).size == s.size
  {
    hide Apply, Without, Judge, IsAnswer, Finish, Drop, AbortJob, AbortFrom, Take, CallbackQueue;
  }

  lemma StepSize(s: Pool, e: Event)
    requires Dispatchable(Effect(s, e))
    ensures Step(s, e).size == s.size
  {
    hide Dispatch, Dispatchable, Redispatches, Apply, Without, Judge, IsAnswer, Finish, Drop, AbortJob, AbortFrom, Take, Effect;
    EffectSize(s, e);
  }

  /** A whole run from a fresh pool. */
  ghost function Reached(size: nat, events: seq<Event>): (s: Pool)
    requires size >= 1
    ensures Inv(s) && s.size == size
    decreases |events|
  {
    if events == [] then InitInv(size); Init(size)
    else
      var s := Reached(size, events[..|events| - 1]);
      var e := events[|events| - 1];
      StepInv(s, e);
      StepSize(s, e);
      Step(s, e)
  }

  /* ---------- what holds in every reachable state ---------- */

  /** Host and worker never get out of step: over any run, the worker accepts its next request,
      the host accepts its next response, what the host believes installed (at most 16 programs)
      is what the worker holds once the requests in flight have arrived, and a worker never
      runs more than one job. */
  lemma NoRefusals(size: nat, events: seq<Event>, w: WorkerId)
    requires size >= 1 && w in Reached(size, events).links
    ensures var s := Reached(size, events);
            var l := s.links[w];
            && (l.requests != [] ==> Apply(l.remote, l.requests[0]).Some?)
            && (l.responses != [] ==> Judge(l.job, s.pending, l.responses[0]) != Refuse)
            && ProgramsAfter(l.remote.programs, l.requests) == SetOf(l.installed)
            && NoDuplicates(l.installed) && |l.installed| <= PROGRAM_CACHE
            && |l.remote.running| <= 1
            && (forall j :: j in l.remote.running ==> l.job == Some(j) && l.remote.running[j].program in l.remote.programs)
  {
    var s := Reached(size, events);
    var l := s.links[w];
    LinkHere(s, w);
    if l.requests != [] { ReceivedLink(l, w, s.pending, s.nextJob); }
    if l.responses != [] { TakenLink(l, w, s.pending, s.nextJob); }
    OneRunning(l, w, s.pending, s.nextJob);
  }

  lemma OneRunning(l: Link, w: WorkerId, pending: map<JobId, Job>, nextJob: nat)
    requires LinkOk(l, w, pending, nextJob, None)
    ensures |l.remote.running| <= 1
    ensures forall j :: j in l.remote.running ==>
              && l.job == Some(j) && l.remote.running[j].program in l.remote.programs
              && j in pending && (l.remote.running[j].aborted ==> pending[j].aborted)
  {
    hide InStep, RunsIn;
    if l.remote.running != map[] {
      var j := l.job.value;
      assert l.remote.running.Keys == {j};
      SameSize(l.remote.running, map[j := 0]);
    }
  }

  /** A cancellation reaches only the job that it names: whatever the worker runs as cancelled,
      the host has aborted, however late the message came. */
  lemma CancelsHitTheirJob(size: nat, events: seq<Event>, w: WorkerId, j: JobId)
    requires size >= 1 && w in Reached(size, events).links
    requires j in Reached(size, events).links[w].remote.running && Reached(size, events).links[w].remote.running[j].aborted
    ensures var s := Reached(size, events); j in s.pending && s.pending[j].aborted && s.pending[j].worker == Some(w)
  {
    var s := Reached(size, events);
    LinkHere(s, w);
    OneRunning(s.links[w], w, s.pending, s.nextJob);
    LinkedJob(s, w);
  }

  /** Every submitted job is, at any time, in exactly one place: a queue, a live worker, a
      retiring worker, or the completed list, where it occurs once. */
  lemma JobsAreConserved(size: nat, events: seq<Event>, j: JobId)
    requires size >= 1
    ensures var s := Reached(size, events);
            && s.nextJob - 1 == |s.pending| + |s.completed| && NoDuplicates(s.completed)
            && (0 < j < s.nextJob <==> j in s.pending || j in s.completed)
            && !(j in s.pending && j in s.completed)
            && (j in s.pending <==>
                  j in s.required || j in s.speculative || exists w: WorkerId :: Holds(s.links, s.retiring, w, j))
            && !(j in s.required && j in s.speculative)
            && (forall w: WorkerId :: Holds(s.links, s.retiring, w, j) ==>
                  j !in s.required && j !in s.speculative && s.pending[j].worker == Some(w))
  {
    var s := Reached(size, events);
    if j in s.pending && s.pending[j].worker.Some? {
      assert Holds(s.links, s.retiring, s.pending[j].worker.value, j);
    }
  }

  /** The speculative counter is exact and always leaves one worker for required work. While the
      pool is open, required work waits only when all `size` slots hold busy workers. */
  lemma RequiredWorkIsServed(size: nat, events: seq<Event>)
    requires size >= 1
    ensures var s := Reached(size, events);
            && s.activeSpeculative == |ActiveSpeculative(s.pending)| <= size - 1
            && (!s.closed && s.required != [] ==>
                  |s.links| == size && forall w :: w in s.links ==> s.links[w].job.Some?)
  {
    var s := Reached(size, events);
    if !s.closed && s.required != [] {
      forall w | w in s.links ensures s.links[w].job.Some? {
        assert w !in s.idle;
      }
    }
  }
}
