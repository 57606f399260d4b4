/** Every reachable state of the worker pool satisfies the protocol invariant. */
module PoolInvariant {
  import opened PoolProtocol

  /* ---------- the host's tables ---------- */

  lemma RemoveSmaller<K, V>(m: map<K, V>, k: K)
    requires k in m
    ensures |m - {k}| == |m| - 1
  {
    assert (m - {k}).Keys == m.Keys - {k};
    assert |m.Keys - {k}| == |m.Keys| - 1;
    assert |(m - {k}).Keys| == |m - {k}|;
  }

  lemma QueueRemoves(queue: seq<JobId>, pending: map<JobId, Job>, priority: Priority, j: JobId, pending': map<JobId, Job>)
    requires QueueOk(queue, pending, priority)
    requires forall k :: k != j ==> (k in pending' <==> k in pending) && (k in pending ==> pending'[k] == pending[k])
    requires j !in pending' || pending'[j].worker.Some? || pending'[j].priority != priority
    ensures QueueOk(Without(queue, j), pending', priority)
  {
    hide NoDuplicates;
    WithoutKeepsOrder(queue, j);
  }

  lemma QueueAdds(queue: seq<JobId>, pending: map<JobId, Job>, priority: Priority, j: JobId, pending': map<JobId, Job>)
    requires QueueOk(queue, pending, priority)
    requires forall k :: k != j ==> (k in pending' <==> k in pending) && (k in pending ==> pending'[k] == pending[k])
    requires j !in queue && j in pending' && pending'[j].worker.None? && pending'[j].priority == priority
    ensures QueueOk(queue + [j], pending', priority)
  {
    hide NoDuplicates;
    NoDuplicatesSnoc(queue, j);
  }

  lemma FinishQueues(s: Pool, j: JobId)
    requires QueuesOk(s) && j in s.pending
    ensures QueuesOk(Finish(s, j))
  {
    hide QueueOk, Without;
    QueueRemoves(s.required, s.pending, Required, j, s.pending - {j});
    QueueRemoves(s.speculative, s.pending, Speculative, j, s.pending - {j});
  }

  lemma CallbackSame(queue: seq<JobId>, pending: map<JobId, Job>, c: CallbackId, pending': map<JobId, Job>)
    requires CallbackOk(queue, pending, c)
    requires forall k :: k in pending' && pending'[k].callback == c <==> k in pending && pending[k].callback == c
    ensures CallbackOk(queue, pending', c)
  {
    hide NoDuplicates;
  }

  lemma CallbackRemoves(queue: seq<JobId>, pending: map<JobId, Job>, c: CallbackId, j: JobId)
    requires CallbackOk(queue, pending, c)
    ensures CallbackOk(Without(queue, j), pending - {j}, c)
  {
    hide NoDuplicates;
    WithoutKeepsOrder(queue, j);
  }

  lemma CallbackAdds(queue: seq<JobId>, pending: map<JobId, Job>, c: CallbackId, j: JobId, job: Job)
    requires CallbackOk(queue, pending, c) && j !in pending && job.callback == c
    ensures CallbackOk(queue + [j], pending[j := job], c)
  {
    hide NoDuplicates;
    NoDuplicatesSnoc(queue, j);
  }

  lemma FinishCallbacks(s: Pool, j: JobId)
    requires CallbacksOk(s) && j in s.pending
    ensures CallbacksOk(Finish(s, j))
  {
    hide CallbackOk, Without;
    var t, c := Finish(s, j), s.pending[j].callback;
    forall d ensures CallbackOk(CallbackQueue(t, d), t.pending, d) {
      assert CallbackOk(CallbackQueue(s, d), s.pending, d);
      if d == c {
        CallbackRemoves(CallbackQueue(s, c), s.pending, c, j);
      } else {
        CallbackSame(CallbackQueue(s, d), s.pending, d, t.pending);
      }
    }
  }

  /* ---------- workers ---------- */

  lemma IdleSame(idle: seq<WorkerId>, links: map<WorkerId, Link>, links': map<WorkerId, Link>)
    requires IdleOk(idle, links)
    requires links'.Keys == links.Keys && forall w :: w in links ==> links'[w].job == links[w].job
    ensures IdleOk(idle, links')
  {
    hide NoDuplicates;
  }

  lemma IdleFreed(idle: seq<WorkerId>, links: map<WorkerId, Link>, w: WorkerId)
    requires IdleOk(idle, links) && w in links && links[w].job.Some?
    ensures IdleOk(idle + [w], links[w := links[w].(job := None)])
  {
    hide NoDuplicates;
    NoDuplicatesSnoc(idle, w);
  }

  lemma IdleTaken(idle: seq<WorkerId>, links: map<WorkerId, Link>, j: JobId)
    requires IdleOk(idle, links) && idle != []
    ensures idle[0] in links && links[idle[0]].job.None?
    ensures IdleOk(idle[1..], links[idle[0] := links[idle[0]].(job := Some(j))])
  {
    hide NoDuplicates;
    assert idle[0] in idle;
    NoDuplicatesTail(idle);
    var w, rest := idle[0], idle[1..];
    assert idle == [w] + rest;
    var links' := links[w := links[w].(job := Some(j))];
    forall v ensures v in rest <==> v in links' && links'[v].job.None? {
      assert v in idle <==> v == w || v in rest;
    }
  }

  lemma IdleDropped(idle: seq<WorkerId>, links: map<WorkerId, Link>, w: WorkerId)
    requires IdleOk(idle, links)
    ensures IdleOk(Without(idle, w), links - {w})
  {
    hide NoDuplicates;
    WithoutKeepsOrder(idle, w);
  }

  lemma SameSize<K, V, W>(a: map<K, V>, b: map<K, W>)
    requires a.Keys == b.Keys
    ensures |a| == |b|
  {
    assert |a| == |a.Keys| && |b| == |b.Keys|;
  }

  lemma AddedSize<K, V>(m: map<K, V>, k: K, v: V)
    requires k !in m
    ensures |m[k := v]| == |m| + 1
  {
    assert m[k := v].Keys == m.Keys + {k};
    assert |m[k := v]| == |m[k := v].Keys| && |m| == |m.Keys|;
  }

  lemma AssignedDrops(links: map<WorkerId, Link>, retiring: map<WorkerId, Option<JobId>>, pending: map<JobId, Job>, j: JobId)
    requires AssignedOk(links, retiring, pending) && j in pending && links.Keys !! retiring.Keys
    ensures AssignedOk(FreedLinks(links, pending[j].worker), FreedRetiring(retiring, pending[j].worker), pending - {j})
  {
    var links', retiring' := FreedLinks(links, pending[j].worker), FreedRetiring(retiring, pending[j].worker);
    forall w: WorkerId, k: JobId | Holds(links', retiring', w, k)
      ensures Holds(links, retiring, w, k) && k != j
    {
      assert Holds(links, retiring, w, k);
      assert k == j ==> pending[j].worker == Some(w);
    }
    forall k | k in pending && k != j && pending[k].worker.Some?
      ensures Holds(links', retiring', pending[k].worker.value, k)
    {
      assert Holds(links, retiring, pending[k].worker.value, k);
    }
  }

  lemma FinishWorkers(s: Pool, j: JobId)
    requires WorkersOk(s) && j in s.pending
    ensures WorkersOk(Finish(s, j))
  {
    hide IdleOk, AssignedOk;
    AssignedDrops(s.links, s.retiring, s.pending, j);
    var worker := s.pending[j].worker;
    assert FreedLinks(s.links, worker).Keys == s.links.Keys;
    SameSize(FreedLinks(s.links, worker), s.links);
    if worker.Some? && worker.value in s.links {
      AssignedBack(s, j);
      IdleFreed(s.idle, s.links, worker.value);
    }
  }

  lemma AssignedBack(s: Pool, j: JobId)
    requires WorkersOk(s) && j in s.pending && s.pending[j].worker.Some?
    ensures var w := s.pending[j].worker.value;
            && (w in s.links || w in s.retiring)
            && (w in s.links ==> s.links[w].job == Some(j))
            && (w in s.retiring ==> s.retiring[w] == Some(j))
  {
    assert Holds(s.links, s.retiring, s.pending[j].worker.value, j);
  }

  /* ---------- counts ---------- */

  lemma FinishCounts(s: Pool, j: JobId)
    requires CountsOk(s) && j in s.pending
    ensures CountsOk(Finish(s, j))
  {
    hide NoDuplicates, Without;
    HistoryFinishes(s.pending, s.completed, s.nextJob, j);
    SpeculationDrops(s.pending, j);
    SpeculationPositive(s.pending, j);
  }

  lemma HistoryFinishes(pending: map<JobId, Job>, completed: seq<JobId>, nextJob: nat, j: JobId)
    requires HistoryOk(pending, completed, nextJob) && j in pending
    ensures HistoryOk(pending - {j}, completed + [j], nextJob)
  {
    hide NoDuplicates;
    RemoveSmaller(pending, j);
    NoDuplicatesSnoc(completed, j);
    assert 0 < j < nextJob;
  }

  lemma SpeculationDrops(pending: map<JobId, Job>, j: JobId)
    requires j in pending
    ensures ActiveSpeculative(pending - {j}) == ActiveSpeculative(pending) - {j}
    ensures |ActiveSpeculative(pending - {j})| ==
            |ActiveSpeculative(pending)| - (if j in ActiveSpeculative(pending) then 1 else 0)
  {
    assert ActiveSpeculative(pending - {j}) == ActiveSpeculative(pending) - {j};
  }

  lemma SpeculationPositive(pending: map<JobId, Job>, j: JobId)
    requires j in pending
    ensures j in ActiveSpeculative(pending) <==> pending[j].worker.Some? && pending[j].priority == Speculative
  {
  }

  /** Only the speculative standing of job `j` may differ. */
  lemma SpeculationMoves(pending: map<JobId, Job>, j: JobId, job: Job)
    ensures ActiveSpeculative(pending[j := job]) ==
            if job.worker.Some? && job.priority == Speculative
            then ActiveSpeculative(pending) + {j} else ActiveSpeculative(pending) - {j}
    ensures |ActiveSpeculative(pending[j := job])| == |ActiveSpeculative(pending)|
              + (if job.worker.Some? && job.priority == Speculative then 1 else 0)
              - (if j in ActiveSpeculative(pending) then 1 else 0)
  {
    var before, after := ActiveSpeculative(pending), ActiveSpeculative(pending[j := job]);
    SetSizes(before, j);
    if job.worker.Some? && job.priority == Speculative {
      assert after == before + {j};
    } else {
      assert after == before - {j};
    }
  }

  lemma SetSizes(s: set<JobId>, j: JobId)
    ensures |s + {j}| == |s| + (if j in s then 0 else 1)
    ensures |s - {j}| == |s| - (if j in s then 1 else 0)
  {
    if j in s {
      assert s + {j} == s;
    } else {
      assert s - {j} == s;
    }
  }

  /* ---------- the host operations ---------- */

  lemma FinishHost(s: Pool, j: JobId)
    requires HostOk(s) && j in s.pending
    ensures HostOk(Finish(s, j))
  {
    FinishQueues(s, j);
    FinishCallbacks(s, j);
    FinishWorkers(s, j);
    FinishCounts(s, j);
  }

  lemma DropHost(s: Pool, w: WorkerId)
    requires HostOk(s)
    ensures HostOk(Drop(s, w))
  {
    hide NoDuplicates, Without, QueueOk, CallbackOk, IdleOk, HistoryOk, SpeculationOk;
    if w in s.links {
      var t := Drop(s, w);
      IdleDropped(s.idle, s.links, w);
      RemoveSmaller(s.links, w);
      forall v: WorkerId, j: JobId ensures Holds(t.links, t.retiring, v, j) <==> Holds(s.links, s.retiring, v, j) {
      }
      forall c ensures CallbackQueue(t, c) == CallbackQueue(s, c) {
      }
    }
  }

  /** A change of one job that keeps its callback keeps the callback queues. */
  lemma CallbacksKeep(s: Pool, t: Pool)
    requires CallbacksOk(s) && t.callbacks == s.callbacks && t.pending.Keys == s.pending.Keys
    requires forall j :: j in s.pending ==> t.pending[j].callback == s.pending[j].callback
    ensures CallbacksOk(t)
  {
    hide CallbackOk;
    forall c ensures CallbackOk(CallbackQueue(t, c), t.pending, c) {
      assert CallbackOk(CallbackQueue(s, c), s.pending, c);
      CallbackSame(CallbackQueue(s, c), s.pending, c, t.pending);
    }
  }

  lemma HistoryKeeps(pending: map<JobId, Job>, completed: seq<JobId>, nextJob: nat, pending': map<JobId, Job>)
    requires HistoryOk(pending, completed, nextJob) && pending'.Keys == pending.Keys
    ensures HistoryOk(pending', completed, nextJob)
  {
    hide NoDuplicates;
    SameSize(pending, pending');
  }

  lemma AssignHost(s: Pool, j: JobId)
    requires HostOk(s) && j in s.pending && s.pending[j].worker.None? && s.idle != [] && s.idle[0] in s.links
    requires s.pending[j].priority == Speculative ==> s.activeSpeculative < s.size - 1
    ensures HostOk(Assign(s.(idle := s.idle[1..]), j, s.idle[0]))
  {
    hide NoDuplicates, Without, QueueOk, CallbackOk, CallbacksOk, IdleOk, HistoryOk, ActiveSpeculative, AssignedOk;
    var w := s.idle[0];
    var t := Assign(s.(idle := s.idle[1..]), j, w);
    QueueRemoves(s.required, s.pending, Required, j, t.pending);
    QueueRemoves(s.speculative, s.pending, Speculative, j, t.pending);
    CallbacksKeep(s, t);
    IdleTaken(s.idle, s.links, j);
    assert t.links.Keys == s.links.Keys;
    SameSize(t.links, s.links);
    HistoryKeeps(s.pending, s.completed, s.nextJob, t.pending);
    SpeculationMoves(s.pending, j, t.pending[j]);
    SpeculationPositive(s.pending, j);
    AssignedGains(s.links, s.retiring, s.pending, w, j);
  }

  lemma AssignedGains(links: map<WorkerId, Link>, retiring: map<WorkerId, Option<JobId>>, pending: map<JobId, Job>, w: WorkerId, j: JobId)
    requires AssignedOk(links, retiring, pending) && links.Keys !! retiring.Keys
    requires w in links && links[w].job.None? && j in pending && pending[j].worker.None?
    ensures AssignedOk(links[w := links[w].(job := Some(j))], retiring, pending[j := pending[j].(worker := Some(w))])
  {
    var links', pending' := links[w := links[w].(job := Some(j))], pending[j := pending[j].(worker := Some(w))];
    forall v: WorkerId, k: JobId | Holds(links', retiring, v, k) ensures k in pending' && pending'[k].worker == Some(v) {
      if v != w || k != j {
        assert Holds(links, retiring, v, k);
      }
    }
    forall k | k in pending' && pending'[k].worker.Some? ensures Holds(links', retiring, pending'[k].worker.value, k) {
      if k != j {
        assert Holds(links, retiring, pending[k].worker.value, k);
      }
    }
  }

  lemma EnqueueHost(s: Pool, job: Job)
    requires HostOk(s) && job.worker.None?
    ensures HostOk(Enqueue(s, job))
  {
    hide NoDuplicates, Without, QueueOk, QueuesOk, CallbackOk, CallbacksOk, IdleOk, AssignedOk, ActiveSpeculative, HistoryOk, Enqueue;
    var t, j := Enqueue(s, job), s.nextJob;
    EnqueueShape(s, job);
    HistoryAdds(s.pending, s.completed, s.nextJob, job);
    QueueAddsNew(s, job);
    CallbackAddsNew(s, job);
    AssignedKeeps(s.links, s.retiring, s.pending, t.pending);
    SpeculationMoves(s.pending, j, job);
    SpeculationMember(s.pending, j);
  }

  lemma EnqueueShape(s: Pool, job: Job)
    ensures var t := Enqueue(s, job);
            && t.pending == s.pending[s.nextJob := job] && t.nextJob == s.nextJob + 1
            && t.links == s.links && t.retiring == s.retiring && t.idle == s.idle && t.size == s.size
            && t.nextWorker == s.nextWorker && t.completed == s.completed && t.activeSpeculative == s.activeSpeculative
            && t.closed == s.closed
  {
  }

  lemma SpeculationMember(pending: map<JobId, Job>, j: JobId)
    requires j !in pending
    ensures j !in ActiveSpeculative(pending)
  {
  }

  lemma AssignedKeeps(links: map<WorkerId, Link>, retiring: map<WorkerId, Option<JobId>>,
                      pending: map<JobId, Job>, pending': map<JobId, Job>)
    requires AssignedOk(links, retiring, pending) && pending.Keys <= pending'.Keys
    requires forall j :: j in pending' ==> pending'[j].worker == if j in pending then pending[j].worker else None
    ensures AssignedOk(links, retiring, pending')
  {
  }

  lemma CallbackAddsNew(s: Pool, job: Job)
    requires CallbacksOk(s) && s.nextJob !in s.pending
    ensures CallbacksOk(Enqueue(s, job))
  {
    hide CallbackOk;
    var t, j := Enqueue(s, job), s.nextJob;
    forall c ensures CallbackOk(CallbackQueue(t, c), t.pending, c) {
      assert CallbackOk(CallbackQueue(s, c), s.pending, c);
      if c == job.callback {
        CallbackAdds(CallbackQueue(s, c), s.pending, c, j, job);
      } else {
        CallbackSame(CallbackQueue(s, c), s.pending, c, t.pending);
      }
    }
  }

  lemma QueueAddsNew(s: Pool, job: Job)
    requires QueuesOk(s) && s.nextJob !in s.pending && job.worker.None?
    ensures QueuesOk(Enqueue(s, job))
  {
    hide NoDuplicates;
    var t, j := Enqueue(s, job), s.nextJob;
    if job.priority == Required {
      QueueAdds(s.required, s.pending, Required, j, t.pending);
    } else {
      QueueAdds(s.speculative, s.pending, Speculative, j, t.pending);
    }
  }

  lemma HistoryAdds(pending: map<JobId, Job>, completed: seq<JobId>, nextJob: nat, job: Job)
    requires HistoryOk(pending, completed, nextJob)
    ensures nextJob !in pending
    ensures HistoryOk(pending[nextJob := job], completed, nextJob + 1)
  {
    hide NoDuplicates;
    AddedSize(pending, nextJob, job);
  }

  lemma RaiseHost(s: Pool, j: JobId)
    requires HostOk(s) && j in s.pending && s.pending[j].priority == Speculative
    ensures HostOk(Raise(s, j))
  {
    hide NoDuplicates, Without, CallbackOk, CallbacksOk, IdleOk, HistoryOk, ActiveSpeculative, AssignedOk, SlotsOk;
    var t := Raise(s, j);
    assert t.pending.Keys == s.pending.Keys;
    AssignedKeeps(s.links, s.retiring, s.pending, t.pending);
    CallbacksKeep(s, t);
    HistoryKeeps(s.pending, s.completed, s.nextJob, t.pending);
    SpeculationMoves(s.pending, j, t.pending[j]);
    SpeculationPositive(s.pending, j);
    if s.pending[j].worker.None? {
      QueueAdds(s.required, s.pending, Required, j, t.pending);
      QueueRemoves(s.speculative, s.pending, Speculative, j, t.pending);
    }
  }

  /** Changing a job's flags or the channels and remote states leaves the host's tables alone. */
  ghost predicate SameTables(s: Pool, t: Pool) {
    && t.size == s.size && t.retiring == s.retiring && t.required == s.required && t.speculative == s.speculative
    && t.idle == s.idle && t.callbacks == s.callbacks && t.activeSpeculative == s.activeSpeculative
    && t.nextJob == s.nextJob && t.nextWorker == s.nextWorker && t.completed == s.completed
    && t.links.Keys == s.links.Keys && (forall w :: w in s.links ==> t.links[w].job == s.links[w].job)
    && t.pending.Keys == s.pending.Keys
    && forall j :: j in s.pending ==>
         && t.pending[j].worker == s.pending[j].worker && t.pending[j].priority == s.pending[j].priority
         && t.pending[j].callback == s.pending[j].callback
  }

  lemma SameTablesHost(s: Pool, t: Pool)
    requires HostOk(s) && SameTables(s, t)
    ensures HostOk(t)
  {
    hide NoDuplicates, CallbackOk, CallbacksOk, IdleOk, HistoryOk, SpeculationOk, AssignedOk;
    SameSpeculation(s, t);
    CallbacksKeep(s, t);
    HistoryKeeps(s.pending, s.completed, s.nextJob, t.pending);
    IdleSame(s.idle, s.links, t.links);
    SameSize(t.links, s.links);
    SameAssigned(s, t);
  }

  lemma SameAssigned(s: Pool, t: Pool)
    requires AssignedOk(s.links, s.retiring, s.pending) && SameTables(s, t)
    ensures AssignedOk(t.links, t.retiring, t.pending)
  {
    forall w: WorkerId, j: JobId ensures Holds(t.links, t.retiring, w, j) <==> Holds(s.links, s.retiring, w, j) {
    }
  }

  lemma SameSpeculation(s: Pool, t: Pool)
    requires SpeculationOk(s.pending, s.activeSpeculative, s.size) && SameTables(s, t)
    ensures SpeculationOk(t.pending, t.activeSpeculative, t.size)
  {
    assert ActiveSpeculative(t.pending) == ActiveSpeculative(s.pending);
  }

  lemma NewWorkerHost(s: Pool)
    requires HostOk(s) && |s.links| < s.size && s.idle == []
    ensures HostOk(WithNewWorker(s).(idle := [s.nextWorker]))
  {
    hide NoDuplicates, QueueOk, CallbackOk, HistoryOk, SpeculationOk, IdleOk;
    var w := s.nextWorker;
    var t := WithNewWorker(s).(idle := [w]);
    AddedSize(s.links, w, FRESH_LINK);
    IdleNew(s.links, w);
    forall v: WorkerId, j: JobId ensures Holds(t.links, t.retiring, v, j) <==> Holds(s.links, s.retiring, v, j) {
    }
    forall c ensures CallbackQueue(t, c) == CallbackQueue(s, c) {
    }
  }

  lemma IdleNew(links: map<WorkerId, Link>, w: WorkerId)
    requires IdleOk([], links) && w !in links
    ensures IdleOk([w], links[w := FRESH_LINK])
  {
  }

  /* ---------- the messages in flight ---------- */

  lemma {:induction false} AcceptedAppend(programs: set<ProgramId>, busy: bool, a: seq<Request>, b: seq<Request>)
    requires Accepted(programs, busy, a)
    requires Accepted(ProgramsAfter(programs, a), busy || RunsIn(a) != [], b)
    ensures Accepted(programs, busy, a + b)
    decreases |a|
  {
    if a == [] {
      assert a + b == b;
    } else {
      assert (a + b)[1..] == a[1..] + b;
      match a[0]
      case Install(p) => AcceptedAppend(programs + {p}, busy, a[1..], b);
      case Uninstall(p) => AcceptedAppend(programs - {p}, busy, a[1..], b);
      case Run(_, _) => AcceptedAppend(programs, true, a[1..], b);
      case Cancel(_) => AcceptedAppend(programs, busy, a[1..], b);
    }
  }

  lemma {:induction false} AfterAppend(programs: set<ProgramId>, a: seq<Request>, b: seq<Request>)
    ensures ProgramsAfter(programs, a + b) == ProgramsAfter(ProgramsAfter(programs, a), b)
    decreases |a|
  {
    if a == [] {
      assert a + b == b;
    } else {
      assert (a + b)[1..] == a[1..] + b;
      match a[0]
      case Install(p) => AfterAppend(programs + {p}, a[1..], b);
      case Uninstall(p) => AfterAppend(programs - {p}, a[1..], b);
      case _ => AfterAppend(programs, a[1..], b);
    }
  }

  lemma {:induction false} RunsAppend(a: seq<Request>, b: seq<Request>)
    ensures RunsIn(a + b) == RunsIn(a) + RunsIn(b)
  {
    if a == [] {
      assert a + b == b;
    } else {
      assert (a + b)[1..] == a[1..] + b;
      RunsAppend(a[1..], b);
    }
  }

  /** A worker that becomes free still accepts what it accepted while busy. */
  lemma {:induction false} AcceptedWhenFree(programs: set<ProgramId>, requests: seq<Request>)
    requires Accepted(programs, true, requests)
    ensures Accepted(programs, false, requests) && RunsIn(requests) == []
    decreases |requests|
  {
    if requests != [] {
      match requests[0]
      case Install(p) => AcceptedWhenFree(programs + {p}, requests[1..]);
      case Uninstall(p) =>
      case Run(_, _) =>
      case Cancel(_) => AcceptedWhenFree(programs, requests[1..]);
    }
  }

  lemma SetOfSnoc(s: seq<nat>, x: nat)
    ensures SetOf(s + [x]) == SetOf(s) + {x}
  {
  }

  /** The prepared programs are what the host believes, without repeats and at most 16. */
  lemma TouchedOk(installed: seq<ProgramId>, p: ProgramId)
    requires NoDuplicates(installed) && |installed| <= PROGRAM_CACHE
    ensures NoDuplicates(Touched(installed, p)) && |Touched(installed, p)| <= PROGRAM_CACHE
    ensures SetOf(Touched(installed, p)) == ProgramsAfter(SetOf(installed), Preparation(installed, p))
    ensures Accepted(SetOf(installed), false, Preparation(installed, p))
    ensures p in SetOf(Touched(installed, p)) && RunsIn(Preparation(installed, p)) == []
  {
    var programs := SetOf(installed);
    if p in installed {
      WithoutKeepsOrder(installed, p);
      WithoutSize(installed, p);
      NoDuplicatesSnoc(Without(installed, p), p);
      SetOfSnoc(Without(installed, p), p);
    } else if |installed| >= PROGRAM_CACHE {
      var oldest := installed[0];
      NoDuplicatesTail(installed);
      assert installed == [oldest] + installed[1..];
      assert SetOf(installed[1..]) == programs - {oldest};
      NoDuplicatesSnoc(installed[1..], p);
      SetOfSnoc(installed[1..], p);
      var prepared := [Uninstall(oldest), Install(p)];
      assert prepared[1..] == [Install(p)] && prepared[1..][1..] == [];
      assert RunsIn([Install(p)]) == [] && RunsIn(prepared) == RunsIn([Install(p)]);
      assert oldest in installed;
      assert p !in programs - {oldest};
      assert Accepted(programs - {oldest}, false, [Install(p)]);
      assert ProgramsAfter(programs - {oldest}, [Install(p)]) == programs - {oldest} + {p};
    } else {
      NoDuplicatesSnoc(installed, p);
      SetOfSnoc(installed, p);
      assert [Install(p)][1..] == [];
      assert ProgramsAfter(programs, [Install(p)]) == programs + {p};
    }
  }

  lemma {:induction false} WithoutSize(s: seq<nat>, x: nat)
    requires NoDuplicates(s) && x in s
    ensures |Without(s, x)| == |s| - 1
  {
    NoDuplicatesTail(s);
    if s[0] != x {
      assert s == [s[0]] + s[1..];
      WithoutSize(s[1..], x);
    }
  }

  /* ---------- one link ---------- */

  lemma LaunchedLink(l: Link, w: WorkerId, j: JobId, p: ProgramId, pending: map<JobId, Job>, nextJob: nat)
    requires InStep(l) && Quiet(l) && CancelsOk(l.requests, pending, nextJob)
    requires j in pending && pending[j].worker == Some(w) && !pending[j].started
    ensures var sent := l.(job := Some(j), installed := Touched(l.installed, p),
                           requests := l.requests + Preparation(l.installed, p) + [Run(j, p)]);
            LinkOk(sent, w, pending, nextJob, None)
  {
    var prepared := Preparation(l.installed, p);
    var believed := SetOf(l.installed);
    TouchedOk(l.installed, p);
    AcceptedAppend(l.remote.programs, false, l.requests, prepared);
    AfterAppend(l.remote.programs, l.requests, prepared);
    RunsAppend(l.requests, prepared);
    var first := l.requests + prepared;
    assert [Run(j, p)][1..] == [];
    AcceptedAppend(l.remote.programs, false, first, [Run(j, p)]);
    AfterAppend(l.remote.programs, first, [Run(j, p)]);
    RunsAppend(first, [Run(j, p)]);
  }

  lemma CancelledLink(l: Link, w: WorkerId, j: JobId, pending: map<JobId, Job>, nextJob: nat)
    requires LinkOk(l, w, pending, nextJob, None) && j < nextJob && (j in pending ==> pending[j].aborted)
    ensures LinkOk(l.(requests := l.requests + [Cancel(j)]), w, pending, nextJob, None)
  {
    assert [Cancel(j)][1..] == [];
    AcceptedAppend(l.remote.programs, l.remote.running != map[], l.requests, [Cancel(j)]);
    AfterAppend(l.remote.programs, l.requests, [Cancel(j)]);
    RunsAppend(l.requests, [Cancel(j)]);
  }

  /** The worker never refuses a request, and taking it keeps host and worker in step. A cancel
      that comes late changes nothing, for the running job is never the one it names. */
  lemma ReceivedLink(l: Link, w: WorkerId, pending: map<JobId, Job>, nextJob: nat)
    requires LinkOk(l, w, pending, nextJob, None) && l.requests != []
    ensures Apply(l.remote, l.requests[0]).Some?
    ensures LinkOk(l.(requests := l.requests[1..], remote := Apply(l.remote, l.requests[0]).value), w, pending, nextJob, None)
  {
    var m, rest := l.requests[0], l.requests[1..];
    assert l.requests == [m] + rest;
    assert m in l.requests;
    assert forall k :: k in rest ==> k in l.requests;
    match m
    case Install(p) =>
    case Uninstall(p) =>
    case Run(j, p) =>
      RunSoon(l, w, pending, nextJob);
      AcceptedWhenFree(l.remote.programs, rest);
      assert l.remote.running[j := Task(p, false, false)].Keys == {j};
      assert Working(l.(requests := rest, remote := Apply(l.remote, m).value), j, pending[j]);
    case Cancel(j) =>
      CancelTaken(l, w, pending, nextJob);
  }

  lemma RunSoon(l: Link, w: WorkerId, pending: map<JobId, Job>, nextJob: nat)
    requires LinkOk(l, w, pending, nextJob, None) && l.requests != [] && l.requests[0].Run?
    ensures l.job == Some(l.requests[0].job) && Waiting(l, l.requests[0].job, pending[l.requests[0].job])
    ensures RunsIn(l.requests[1..]) == []
  {
    var j := l.requests[0].job;
    assert RunsIn(l.requests) == [j] + RunsIn(l.requests[1..]);
    assert RunsIn(l.requests)[0] == j && |RunsIn(l.requests)| == 1 + |RunsIn(l.requests[1..])|;
  }

  lemma CancelTaken(l: Link, w: WorkerId, pending: map<JobId, Job>, nextJob: nat)
    requires LinkOk(l, w, pending, nextJob, None) && l.requests != [] && l.requests[0].Cancel?
    ensures LinkOk(l.(requests := l.requests[1..], remote := Apply(l.remote, l.requests[0]).value), w, pending, nextJob, None)
  {
    var m, rest := l.requests[0], l.requests[1..];
    var r := Apply(l.remote, m).value;
    assert m in l.requests;
    assert RunsIn(l.requests) == RunsIn(rest);
    assert r.running.Keys == l.remote.running.Keys;
    assert r.running == map[] <==> l.remote.running == map[];
    if l.job.Some? && Working(l, l.job.value, pending[l.job.value]) {
      assert Working(l.(requests := rest, remote := r), l.job.value, pending[l.job.value]);
    }
  }

  lemma AnnouncedLink(l: Link, w: WorkerId, j: JobId, pending: map<JobId, Job>, nextJob: nat)
    requires LinkOk(l, w, pending, nextJob, None) && j in l.remote.running && !l.remote.running[j].announced
    ensures var r := l.remote.(running := l.remote.running[j := l.remote.running[j].(announced := true)]);
            LinkOk(l.(remote := r, responses := l.responses + [Started(j)]), w, pending, nextJob, None)
  {
    var r := l.remote.(running := l.remote.running[j := l.remote.running[j].(announced := true)]);
    assert l.job == Some(j) && Working(l, j, pending[j]);
    assert r.running.Keys == l.remote.running.Keys;
    assert r.running != map[];
    assert Working(l.(remote := r, responses := l.responses + [Started(j)]), j, pending[j]);
  }

  lemma AnsweredLink(l: Link, w: WorkerId, m: Response, pending: map<JobId, Job>, nextJob: nat)
    requires LinkOk(l, w, pending, nextJob, None)
    requires m.job in l.remote.running && IsAnswer(m, l.remote.running[m.job])
    ensures var r := l.remote.(running := l.remote.running - {m.job});
            LinkOk(l.(remote := r, responses := l.responses + [m]), w, pending, nextJob, None)
  {
    var j := m.job;
    var r := l.remote.(running := l.remote.running - {j});
    assert l.job == Some(j) && Working(l, j, pending[j]);
    assert r.running == map[];
    AcceptedWhenFree(l.remote.programs, l.requests);
    assert Answered(l.(remote := r, responses := l.responses + [m]), j, pending[j]);
  }

  /** The host never refuses a response: it is current, starts once, and is a cancellation only
      on request. What it takes leaves the link ready for the next response or the next job. */
  lemma TakenLink(l: Link, w: WorkerId, pending: map<JobId, Job>, nextJob: nat)
    requires LinkOk(l, w, pending, nextJob, None) && l.responses != []
    ensures Judge(l.job, pending, l.responses[0]) != Refuse
    ensures Judge(l.job, pending, l.responses[0]) == Complete ==>
              LinkOk(l.(responses := l.responses[1..]), w, pending, nextJob, Some(w))
    ensures Judge(l.job, pending, l.responses[0]) == Note ==>
              var j := l.responses[0].job;
              && j in pending && l.job == Some(j)
              && LinkOk(l.(responses := l.responses[1..]), w, pending[j := pending[j].(started := true)], nextJob, None)
  {
    var j := l.job.value;
    assert Working(l, j, pending[j]) || Answered(l, j, pending[j]);
    assert |l.responses| == 2 ==> l.responses[1..] == [l.responses[1]];
    assert |l.responses| == 1 ==> l.responses[1..] == [];
  }

  /* ---------- all links ---------- */

  /** Later tables never forget an abort and reuse no job id. */
  ghost predicate Later(pending: map<JobId, Job>, nextJob: nat, pending': map<JobId, Job>, nextJob': nat) {
    && nextJob <= nextJob'
    && forall k :: k in pending' && k < nextJob ==> k in pending && (pending[k].aborted ==> pending'[k].aborted)
  }

  lemma LinkLater(l: Link, w: WorkerId, pending: map<JobId, Job>, nextJob: nat, pending': map<JobId, Job>, nextJob': nat, taken: Option<WorkerId>)
    requires LinkOk(l, w, pending, nextJob, taken) && Later(pending, nextJob, pending', nextJob')
    requires l.job.Some? ==>
               var j := l.job.value;
               j in pending' && pending'[j].worker == pending[j].worker && pending'[j].started == pending[j].started
               && (pending[j].aborted ==> pending'[j].aborted)
    ensures LinkOk(l, w, pending', nextJob', taken)
  {
    hide InStep, RunsIn;
    if l.job.Some? {
      var j := l.job.value;
      assert taken != Some(w) ==> Waiting(l, j, pending[j]) || Working(l, j, pending[j]) || Answered(l, j, pending[j]);
    }
  }
}
