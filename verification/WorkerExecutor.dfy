/** The host's reusable worker pool and the worker at the other end of a connection. Every
    method is the step of `PoolProtocol` that it names. */
module WorkerExecutors {
  import opened PoolProtocol
  import opened PoolInvariant
  import opened PoolRuns

  /** The loop ends where another turn would change nothing. */
  lemma {:induction false} DispatchSettles(s: Pool, fates: Fates)
    requires Core(s, None) && Dispatchable(s)
    ensures Dispatchable(Dispatch(s, fates)) && Dispatch(Dispatch(s, fates), fates) == Dispatch(s, fates)
    ensures Queued(Dispatch(s, fates)) <= Queued(s)
    decreases Queued(s)
  {
    hide Core, DispatchStep;
    if !s.closed {
      var next := DispatchStep(s, fates);
      if next.Some? {
        DispatchStepCore(s, fates);
        DispatchStepShrinks(s, fates);
        DispatchSettles(next.value, fates);
      }
    }
  }

  lemma TouchedSteps(installed: seq<ProgramId>, p: ProgramId)
    ensures p !in installed ==> Without(installed + [p], p) == installed
  {
    if p !in installed {
      WithoutLast(installed, p);
    }
  }

  lemma {:induction false} WithoutLast(s: seq<nat>, x: nat)
    requires x !in s
    ensures Without(s + [x], x) == s
  {
    if s != [] {
      assert (s + [x])[1..] == s[1..] + [x];
      WithoutLast(s[1..], x);
    } else {
      assert [x][1..] == [];
      assert Without([x], x) == Without([], x);
    }
  }

  /** The type of what a callback captured, as far as it matters here. */
  datatype Captured =
    | Value
    | Resource
    | Callback
    | Record(fields: seq<Captured>)
    | Array(element: Captured)
    | Variant(payloads: seq<Captured>)
    | Sealed(inner: Captured)

  /** No resource and no callback anywhere inside. */
  predicate Private(t: Captured) {
    match t
    case Value => true
    case Resource => false
    case Callback => false
    case Record(fields) => forall f :: f in fields ==> Private(f)
    case Array(element) => Private(element)
    case Variant(payloads) => forall p :: p in payloads ==> Private(p)
    case Sealed(inner) => Private(inner)
  }

  method RequirePrivateCaptures(t: Captured) returns (ok: bool)
    ensures ok <==> Private(t)
    decreases t, 1
  {
    match t
    case Value => ok := true;
    case Resource => ok := false;
    case Callback => ok := false;
    case Record(fields) => ok := AllPrivate(t, fields);
    case Array(element) => ok := RequirePrivateCaptures(element);
    case Variant(payloads) => ok := AllPrivate(t, payloads);
    case Sealed(inner) => ok := RequirePrivateCaptures(inner);
  }

  method AllPrivate(ghost whole: Captured, parts: seq<Captured>) returns (ok: bool)
    requires forall p :: p in parts ==> p < whole
    ensures ok <==> forall p :: p in parts ==> Private(p)
    decreases whole, 0
  {
    for i := 0 to |parts|
      invariant forall p :: p in parts[..i] ==> Private(p)
    {
      assert parts[i] in parts;
      var private := RequirePrivateCaptures(parts[i]);
      if !private { return false; }
      assert parts[..i + 1] == parts[..i] + [parts[i]];
    }
    assert parts[..|parts|] == parts;
    ok := true;
  }

  datatype Submission = Submitted(job: JobId) | PoolClosed | SignalAborted | NotPrivate | SpeculativeShared

  class WorkerExecutor {
    const size: nat
    // the live workers, each with its connection
    var workers: map<WorkerId, Link>
    var retiring: map<WorkerId, Option<JobId>>
    var pending: map<JobId, Job>
    var required: seq<JobId>
    var speculative: seq<JobId>
    var idle: seq<WorkerId>
    var callbacks: map<CallbackId, seq<JobId>>
    var activeSpeculative: int
    var nextJob: nat
    var nextWorker: nat
    var completed: seq<JobId>
    var closed: bool

    ghost function View(): Pool
      reads this
    {
      Pool(size, workers, retiring, pending, required, speculative, idle, callbacks,
           activeSpeculative, nextJob, nextWorker, completed, closed)
    }

    ghost predicate Valid()
      reads this
    {
      Inv(View())
    }

    constructor (size: nat)
      requires size >= 1
      ensures Valid() && View() == Init(size)
    {
      this.size := size;
      workers, retiring, pending := map[], map[], map[];
      required, speculative, idle, callbacks := [], [], [], map[];
      activeSpeculative, nextJob, nextWorker, completed, closed := 0, 1, 0, [], false;
      new;
      InitInv(size);
    }

    method Finish(j: JobId)
      requires j in pending && QueuesOk(View())
      requires pending[j].worker.Some? ==> !(pending[j].worker.value in workers && pending[j].worker.value in retiring)
      modifies this
      ensures View() == PoolProtocol.Finish(old(View()), j)
    {
      hide QueuesOk, Without, PoolProtocol.Finish;
      ghost var s := View();
      var job := pending[j];
      Unlink(j);
      completed := completed + [j];
      if job.worker.Some? {
        Free(job.worker.value, job.priority);
      }
      FinishShape(s, j, View());
    }

    /** The job leaves the pending jobs, its priority queue and its callback queue. */
    method Unlink(j: JobId)
      requires j in pending && QueuesOk(View())
      modifies `pending, `required, `speculative, `callbacks
      ensures pending == old(pending) - {j}
      ensures required == Without(old(required), j) && speculative == Without(old(speculative), j)
      ensures var c := old(pending)[j].callback;
              callbacks == old(callbacks)[c := Without(CallbackQueue(old(View()), c), j)]
    {
      hide QueuesOk, Without;
      Unlinks(View(), j);
      var job := pending[j];
      pending := pending - {j};
      if job.worker.None? {
        if job.priority == Required { required := Without(required, j); } else { speculative := Without(speculative, j); }
      }
      callbacks := callbacks[job.callback := Without(if job.callback in callbacks then callbacks[job.callback] else [], j)];
    }

    /** The worker of a finished job has no job; it is idle if it was not lost. */
    method Free(worker: WorkerId, priority: Priority)
      requires !(worker in workers && worker in retiring)
      modifies `workers, `retiring, `idle, `activeSpeculative
      ensures workers == FreedLinks(old(workers), Some(worker)) && retiring == FreedRetiring(old(retiring), Some(worker))
      ensures idle == (if worker in old(workers) then old(idle) + [worker] else old(idle))
      ensures activeSpeculative == old(activeSpeculative) - (if priority == Speculative then 1 else 0)
    {
      if priority == Speculative { activeSpeculative := activeSpeculative - 1; }
      if worker in workers {
        workers := workers[worker := workers[worker].(job := None)];
        idle := idle + [worker];
      } else if worker in retiring {
        retiring := retiring[worker := None];
      }
    }

    /** `Finish` field by field. */
    lemma FinishShape(s: Pool, j: JobId, t: Pool)
      requires j in s.pending
      requires t.required == Without(s.required, j) && t.speculative == Without(s.speculative, j)
      requires var job := s.pending[j];
               && t.callbacks == s.callbacks[job.callback := Without(CallbackQueue(s, job.callback), j)]
               && t.links == FreedLinks(s.links, job.worker) && t.retiring == FreedRetiring(s.retiring, job.worker)
               && t.idle == (if job.worker.Some? && job.worker.value in s.links then s.idle + [job.worker.value] else s.idle)
               && t.activeSpeculative ==
                  s.activeSpeculative - (if job.worker.Some? && job.priority == Speculative then 1 else 0)
      requires t.pending == s.pending - {j} && t.completed == s.completed + [j]
      requires t.size == s.size && t.nextJob == s.nextJob && t.nextWorker == s.nextWorker && t.closed == s.closed
      ensures t == PoolProtocol.Finish(s, j)
    {
      hide Without;
    }

    /** Unlinking touches only the queue that the job is in, if any. */
    lemma Unlinks(s: Pool, j: JobId)
      requires QueuesOk(s) && j in s.pending
      ensures var job := s.pending[j];
              && ((job.worker.None? && job.priority == Required) || Without(s.required, j) == s.required)
              && ((job.worker.None? && job.priority == Speculative) || Without(s.speculative, j) == s.speculative)
    {
    }

    /** Forgets a worker; its job is finished only when the worker has terminated. */
    method Lose(worker: WorkerId, fates: Fates)
      requires Core(Drop(View(), worker), None)
      modifies this
      ensures worker !in old(workers) ==> View() == old(View())
      ensures worker in old(workers) ==>
                && Dispatchable(Drop(old(View()), worker))
                && View() == PoolProtocol.Dispatch(Drop(old(View()), worker), fates)
      ensures Core(View(), None)
      decreases Queued(View()), 3
    {
      hide Core, PoolProtocol.Dispatch, Dispatchable;
      if worker !in workers { return; }
      var job := workers[worker].job;
      workers := workers - {worker};
      idle := Without(idle, worker);
      retiring := retiring[worker := job];
      CoreDispatchable(View());
      Dispatch(fates);
    }

    method Dispatch(fates: Fates)
      requires Core(View(), None) && Dispatchable(View())
      modifies this
      ensures View() == PoolProtocol.Dispatch(old(View()), fates)
      ensures Core(View(), None)
      decreases Queued(View()), 2
    {
      hide Core, PoolProtocol.Dispatch, Dispatchable;
      ghost var start := View();
      DispatchClosed(start, fates);
      if closed { return; }
      var more := true;
      while more
        invariant Core(View(), None) && Dispatchable(View()) && !closed
        invariant PoolProtocol.Dispatch(View(), fates) == PoolProtocol.Dispatch(start, fates)
        invariant more || PoolProtocol.Dispatch(View(), fates) == View()
        invariant Queued(View()) <= Queued(start)
        decreases more, Queued(View())
      {
        more := Turn(fates);
      }
    }

    /** One turn of the dispatch loop. */
    method Turn(fates: Fates) returns (more: bool)
      requires Core(View(), None) && Dispatchable(View()) && !closed
      modifies this
      ensures Core(View(), None) && Dispatchable(View()) && !closed
      ensures PoolProtocol.Dispatch(View(), fates) == PoolProtocol.Dispatch(old(View()), fates)
      ensures if more then Queued(View()) < Queued(old(View()))
              else View() == old(View()) && PoolProtocol.Dispatch(View(), fates) == View()
      decreases Queued(View()), 1
    {
      hide Core, PoolProtocol.Dispatch, AssignAndLaunch, Drop, PoolProtocol.Finish, Dispatchable, QueuesOk, DispatchStep, Candidate;
      ghost var s := View();
      DispatchTurn(s, fates);
      CandidateIs(s);
      TurnIs(s, fates);
      var job: JobId;
      if required != [] {
        job := required[0];
      } else {
        // Keep one worker available for required work even if a spark diverges.
        if activeSpeculative >= size - 1 { return false; }
        if speculative == [] { return false; }
        job := speculative[0];
      }
      CandidateOk(s);
      CandidateQueued(s);
      var worker: WorkerId;
      if idle != [] {
        worker, idle := idle[0], idle[1..];
      } else {
        if |workers| == size { return false; }
        if fates(job) == NoWorker {
          Finish(job);
          assert DispatchStep(s, fates) == Some(View());
          return true;
        }
        worker, nextWorker := nextWorker, nextWorker + 1;
        workers := workers[worker := FRESH_LINK];
      }
      ghost var t := View();
      assert DispatchStep(s, fates) == Some(AssignAndLaunch(t, job, worker, fates(job)));
      SameQueues(s, t);
      LaunchOn(job, worker, fates);
      DispatchSettles(AssignAndLaunch(t, job, worker, fates(job)), fates);
      more := true;
    }

    lemma SameQueues(s: Pool, t: Pool)
      requires QueuesOk(s) && t.required == s.required && t.speculative == s.speculative && t.pending == s.pending
      ensures QueuesOk(t)
    {
    }

    lemma CandidateIs(s: Pool)
      ensures s.required != [] ==> Candidate(s) == Some(s.required[0])
      ensures s.required == [] && (s.activeSpeculative >= s.size - 1 || s.speculative == []) ==> Candidate(s) == None
      ensures s.required == [] && s.activeSpeculative < s.size - 1 && s.speculative != [] ==> Candidate(s) == Some(s.speculative[0])
    {
    }

    lemma TurnIs(s: Pool, fates: Fates)
      requires Candidate(s).Some? ==> Candidate(s).value in s.pending
      requires forall w :: w in s.idle ==> w in s.links
      ensures Candidate(s).None? ==> DispatchStep(s, fates) == None
      ensures Candidate(s).Some? && s.idle != [] ==>
                DispatchStep(s, fates) == Some(AssignAndLaunch(s.(idle := s.idle[1..]), Candidate(s).value, s.idle[0], fates(Candidate(s).value)))
      ensures Candidate(s).Some? && s.idle == [] && |s.links| == s.size ==> DispatchStep(s, fates) == None
      ensures Candidate(s).Some? && s.idle == [] && |s.links| != s.size ==>
                DispatchStep(s, fates) ==
                if fates(Candidate(s).value) == NoWorker then Some(PoolProtocol.Finish(s, Candidate(s).value))
                else Some(AssignAndLaunch(WithNewWorker(s), Candidate(s).value, s.nextWorker, fates(Candidate(s).value)))
    {
      hide AssignAndLaunch, PoolProtocol.Finish;
    }

    lemma CandidateQueued(s: Pool)
      ensures Candidate(s).Some? ==> Candidate(s).value in s.required || Candidate(s).value in s.speculative
    {
    }

    /** Gives the job to the worker and posts its messages; a failing post loses the worker. */
    method LaunchOn(job: JobId, worker: WorkerId, fates: Fates)
      requires job in pending && worker in workers && QueuesOk(View())
      requires job in required || job in speculative
      requires Core(AssignAndLaunch(View(), job, worker, fates(job)), None)
      modifies this
      ensures fates(job) != SendFails ==> View() == AssignAndLaunch(old(View()), job, worker, fates(job))
      ensures fates(job) == SendFails ==>
                && Dispatchable(AssignAndLaunch(old(View()), job, worker, SendFails))
                && View() == PoolProtocol.Dispatch(AssignAndLaunch(old(View()), job, worker, SendFails), fates)
      ensures Core(View(), None)
      decreases Queued(View()), 0
    {
      hide Core, PoolProtocol.Dispatch, AssignAndLaunch, Drop, Dispatchable, Assign, Without, Launch, QueuesOk;
      ghost var t := View();
      AssignShape(t, t, job, worker, fates(job));
      if pending[job].priority == Required {
        required := Without(required, job);
      } else {
        speculative := Without(speculative, job);
        activeSpeculative := activeSpeculative + 1;
      }
      workers := workers[worker := workers[worker].(job := Some(job))];
      pending := pending[job := pending[job].(worker := Some(worker))];
      assert View() == Assign(t, job, worker);
      if fates(job) == SendFails {
        Lose(worker, fates);
        return;
      }
      var program, installed, requests := pending[job].program, workers[worker].installed, workers[worker].requests;
      if program !in installed {
        if |installed| >= PROGRAM_CACHE {
          requests := requests + [Uninstall(installed[0])];
          installed := installed[1..];
        }
        requests := requests + [Install(program)];
        installed := installed + [program];
      }
      installed := Without(installed, program) + [program];
      requests := requests + [Run(job, program)];
      LaunchShape(Assign(t, job, worker), job, worker, installed, requests);
      workers := workers[worker := workers[worker].(installed := installed, requests := requests)];
    }

    lemma DispatchClosed(s: Pool, fates: Fates)
      requires Core(s, None) && Dispatchable(s)
      ensures s.closed ==> PoolProtocol.Dispatch(s, fates) == s
      ensures Core(PoolProtocol.Dispatch(s, fates), None)
    {
      DispatchInv(s, fates);
    }

    lemma DispatchTurn(s: Pool, fates: Fates)
      requires Core(s, None) && Dispatchable(s) && !s.closed
      ensures QueuesOk(s) && s.links.Keys !! s.retiring.Keys
      ensures forall w :: w in s.idle ==> w in s.links
      ensures Candidate(s).Some? ==> Candidate(s).value in s.pending
      ensures DispatchStep(s, fates).None? ==> PoolProtocol.Dispatch(s, fates) == s
      ensures DispatchStep(s, fates).Some? ==>
                var next := DispatchStep(s, fates).value;
                && Core(next, None) && Dispatchable(next) && !next.closed && Queued(next) < Queued(s)
                && PoolProtocol.Dispatch(s, fates) == PoolProtocol.Dispatch(next, fates)
    {
      hide AssignAndLaunch, PoolProtocol.Finish;
      DispatchStepCore(s, fates);
      if DispatchStep(s, fates).Some? {
        DispatchStepShrinks(s, fates);
      }
    }

    lemma AssignShape(s: Pool, t: Pool, j: JobId, w: WorkerId, fate: Fate)
      requires QueuesOk(s) && t.required == s.required && t.speculative == s.speculative && t.pending == s.pending
      requires j in t.pending && w in t.links
      ensures AssignAndLaunch(t, j, w, fate) ==
              if fate == SendFails then Drop(Assign(t, j, w), w) else Launch(Assign(t, j, w), j, w)
      ensures Assign(t, j, w) ==
              t.(required := if t.pending[j].priority == Required then Without(t.required, j) else t.required,
                 speculative := if t.pending[j].priority == Speculative then Without(t.speculative, j) else t.speculative,
                 pending := t.pending[j := t.pending[j].(worker := Some(w))],
                 activeSpeculative := if t.pending[j].priority == Speculative then t.activeSpeculative + 1 else t.activeSpeculative,
                 links := t.links[w := t.links[w].(job := Some(j))])
      ensures Queued(Assign(t, j, w)) <= Queued(s)
      ensures j in s.required || j in s.speculative ==> Queued(Assign(t, j, w)) < Queued(s)
    {
    }

    lemma LaunchShape(s: Pool, j: JobId, w: WorkerId, installed: seq<ProgramId>, requests: seq<Request>)
      requires j in s.pending && w in s.links
      requires var l, p := s.links[w], s.pending[j].program;
               if p in l.installed then
                 installed == Without(l.installed, p) + [p] && requests == l.requests + [Run(j, p)]
               else if |l.installed| >= PROGRAM_CACHE then
                 && installed == Without(l.installed[1..] + [p], p) + [p]
                 && requests == l.requests + [Uninstall(l.installed[0])] + [Install(p)] + [Run(j, p)]
               else
                 installed == Without(l.installed + [p], p) + [p] && requests == l.requests + [Install(p)] + [Run(j, p)]
      ensures Launch(s, j, w) == SetLink(s, w, s.links[w].(installed := installed, requests := requests))
    {
      hide Without;
      var l, p := s.links[w], s.pending[j].program;
      if p in l.installed {
        assert l.requests + [] + [Run(j, p)] == requests;
      } else if |l.installed| >= PROGRAM_CACHE {
        TouchedSteps(l.installed[1..], p);
        assert l.requests + [Uninstall(l.installed[0]), Install(p)] + [Run(j, p)] == requests;
      } else {
        TouchedSteps(l.installed, p);
      }
    }

    /* ---------- what callers and workers trigger ---------- */

    /** Refuses in the order of the checks; what is refused leaves the pool as it is. */
    method Execute(program: ProgramId, callback: CallbackId, priority: Priority, aborted: bool, environment: Captured, shared: bool, fates: Fates)
      returns (r: Submission)
      requires Valid()
      modifies this
      ensures Valid() && Dispatchable(Effect(old(View()), PoolProtocol.Execute(program, callback, priority, fates)))
      ensures r.Submitted? <==> !old(closed) && !aborted && Private(environment) && !(shared && priority == Speculative)
      ensures r.Submitted? ==> r.job == old(nextJob) && View() == Step(old(View()), PoolProtocol.Execute(program, callback, priority, fates))
      ensures !r.Submitted? ==> View() == old(View())
      ensures r.PoolClosed? <==> old(closed)
      ensures r.SignalAborted? <==> !old(closed) && aborted
      ensures r.NotPrivate? <==> !old(closed) && !aborted && !Private(environment)
    {
      hide Inv, PoolProtocol.Dispatch, Dispatchable, Step, Effect;
      ExecuteDispatches(View(), program, callback, priority, fates);
      if closed { return PoolClosed; }
      if aborted { return SignalAborted; }
      var private := RequirePrivateCaptures(environment);
      if !private { return NotPrivate; }
      if shared && priority == Speculative { return SpeculativeShared; }
      var job := Submit(program, callback, priority, fates);
      r := Submitted(job);
    }

    lemma ExecuteDispatches(s: Pool, program: ProgramId, callback: CallbackId, priority: Priority, fates: Fates)
      requires Inv(s)
      ensures Dispatchable(Effect(s, PoolProtocol.Execute(program, callback, priority, fates)))
    {
      hide Core, Saturated, PoolProtocol.Dispatch, Dispatchable;
      StepInv(s, PoolProtocol.Execute(program, callback, priority, fates));
      EffectCore(s, PoolProtocol.Execute(program, callback, priority, fates));
    }

    /** A job that nothing refuses joins the pending jobs, its priority queue and its callback's queue. */
    method Submit(program: ProgramId, callback: CallbackId, priority: Priority, fates: Fates) returns (job: JobId)
      requires Valid() && !closed
      modifies this
      ensures Valid() && Dispatchable(Effect(old(View()), PoolProtocol.Execute(program, callback, priority, fates)))
      ensures View() == Step(old(View()), PoolProtocol.Execute(program, callback, priority, fates)) && job == old(nextJob)
    {
      hide Core, Saturated, PoolProtocol.Dispatch, Dispatchable;
      StepInv(View(), PoolProtocol.Execute(program, callback, priority, fates));
      EffectCore(View(), PoolProtocol.Execute(program, callback, priority, fates));
      job := nextJob;
      nextJob := nextJob + 1;
      pending := pending[job := Job(program, callback, priority, None, false, false)];
      callbacks := callbacks[callback := (if callback in callbacks then callbacks[callback] else []) + [job]];
      if priority == Required { required := required + [job]; } else { speculative := speculative + [job]; }
      Dispatch(fates);
    }

    /** The oldest pending job of the callback becomes required work. */
    method Promote(callback: CallbackId, fates: Fates)
      requires Valid()
      modifies this
      ensures Valid() && Dispatchable(Effect(old(View()), PoolProtocol.Promote(callback, fates)))
      ensures View() == Step(old(View()), PoolProtocol.Promote(callback, fates))
    {
      hide Core, Saturated, PoolProtocol.Dispatch, Dispatchable, Without;
      StepInv(View(), PoolProtocol.Promote(callback, fates));
      EffectCore(View(), PoolProtocol.Promote(callback, fates));
      CallbackPending(View(), callback);
      var queue := if callback in callbacks then callbacks[callback] else [];
      if queue == [] || pending[queue[0]].priority == Required { return; }
      var job := queue[0];
      pending := pending[job := pending[job].(priority := Required)];
      if pending[job].worker.None? {
        speculative := Without(speculative, job);
        required := required + [job];
      } else {
        activeSpeculative := activeSpeculative - 1;
      }
      Dispatch(fates);
    }

    lemma CallbackPending(s: Pool, c: CallbackId)
      requires Inv(s)
      ensures CallbackQueue(s, c) != [] ==> CallbackQueue(s, c)[0] in s.pending
    {
      var queue := CallbackQueue(s, c);
      assert CallbackOk(queue, s.pending, c);
      if queue != [] {
        assert queue[0] in queue;
      }
    }

    /** The abort listener of one job. */
    method Abort(job: JobId, sendFails: bool, fates: Fates)
      requires Valid()
      modifies this
      ensures Valid() && Dispatchable(Effect(old(View()), PoolProtocol.Abort(job, sendFails, fates)))
      ensures View() == Step(old(View()), PoolProtocol.Abort(job, sendFails, fates))
    {
      hide Core, Saturated, PoolProtocol.Dispatch, Dispatchable, Without, PoolProtocol.Finish;
      StepInv(View(), PoolProtocol.Abort(job, sendFails, fates));
      EffectCore(View(), PoolProtocol.Abort(job, sendFails, fates));
      if job !in pending || pending[job].aborted { return; }
      MarkAbortedCore(View(), job);
      pending := pending[job := pending[job].(aborted := true)];
      if pending[job].worker.None? {
        FinishReady(View());
        Finish(job);
      } else if pending[job].worker.value in workers {
        var worker := pending[job].worker.value;
        if sendFails {
          Lose(worker, fates);
        } else {
          workers := workers[worker := workers[worker].(requests := workers[worker].requests + [Cancel(job)])];
        }
      }
    }

    lemma FinishReady(s: Pool)
      requires Core(s, None)
      ensures QueuesOk(s) && s.links.Keys !! s.retiring.Keys
    {
    }

    /** The message handler of a live worker. */
    method OnMessage(worker: WorkerId, fates: Fates)
      requires Valid() && worker in workers && workers[worker].responses != []
      modifies this
      ensures Valid() && Dispatchable(Effect(old(View()), Deliver(worker, fates)))
      ensures View() == Step(old(View()), Deliver(worker, fates))
    {
      hide Core, Saturated, PoolProtocol.Dispatch, Dispatchable, Without, PoolProtocol.Finish;
      ghost var s := View();
      StepInv(s, Deliver(worker, fates));
      EffectCore(s, Deliver(worker, fates));
      FinishReady(s);
      var response := workers[worker].responses[0];
      var job := workers[worker].job;
      workers := workers[worker := workers[worker].(responses := workers[worker].responses[1..])];
      DropAgrees(s, worker, View());
      if job != Some(response.job) || response.job !in pending {
        Lose(worker, fates);
        return;
      }
      if response.Started? {
        if pending[response.job].started {
          Lose(worker, fates);
          return;
        }
        pending := pending[response.job := pending[response.job].(started := true)];
        return;
      }
      if !pending[response.job].aborted && response.Cancelled? {
        Lose(worker, fates);
        return;
      }
      Finish(response.job);
      Dispatch(fates);
    }

    lemma DropAgrees(s: Pool, w: WorkerId, t: Pool)
      requires Core(s, None) && w in s.links && s.links[w].responses != []
      requires t == SetLink(s, w, s.links[w].(responses := s.links[w].responses[1..]))
      ensures Core(Drop(t, w), None)
      ensures QueuesOk(t) && t.links.Keys !! t.retiring.Keys
    {
      hide HostOk, LinkOk, Without;
      DropCore(s, w);
      assert Drop(t, w) == Drop(s, w);
      FinishReady(s);
    }

    method OnError(worker: WorkerId, fates: Fates)
      requires Valid()
      modifies this
      ensures Valid() && Dispatchable(Effect(old(View()), Fault(worker, fates)))
      ensures View() == Step(old(View()), Fault(worker, fates))
    {
      hide Core, Saturated, PoolProtocol.Dispatch, Dispatchable, Drop;
      StepInv(View(), Fault(worker, fates));
      EffectCore(View(), Fault(worker, fates));
      DropAbsent(View(), worker);
      Lose(worker, fates);
    }

    lemma DropAbsent(s: Pool, w: WorkerId)
      ensures w !in s.links ==> Drop(s, w) == s
    {
    }

    /** A lost worker has terminated: its job fails now. */
    method OnRetired(worker: WorkerId)
      requires Valid() && worker in retiring
      modifies this
      ensures Valid() && Dispatchable(Effect(old(View()), Retired(worker)))
      ensures View() == Step(old(View()), Retired(worker))
    {
      hide Core, Saturated, PoolProtocol.Dispatch, Dispatchable, Without, PoolProtocol.Finish;
      StepInv(View(), Retired(worker));
      FinishReady(View());
      RetiredCore(View(), worker);
      if retiring[worker].Some? {
        Finish(retiring[worker].value);
      }
      retiring := retiring - {worker};
    }

    /** Aborts every pending job in submission order; nothing is dispatched any more. */
    method Close(failing: JobId -> bool)
      requires Valid()
      modifies this
      ensures Valid() && Dispatchable(Effect(old(View()), PoolProtocol.Close(failing)))
      ensures View() == Step(old(View()), PoolProtocol.Close(failing))
    {
      hide Core, Saturated, PoolProtocol.Dispatch, Dispatchable, Without, PoolProtocol.Finish;
      StepInv(View(), PoolProtocol.Close(failing));
      if closed { return; }
      ClosedCore(View());
      closed := true;
      ghost var start := View();
      var job := 0;
      while job < nextJob
        invariant job <= nextJob && closed && size == start.size
        invariant Core(View(), None)
        invariant AbortFrom(View(), job, failing) == AbortFrom(start, 0, failing)
      {
        AbortOne(job, failing(job));
        job := job + 1;
      }
    }

    method AbortOne(job: JobId, sendFails: bool)
      requires closed && Core(View(), None)
      modifies this
      ensures View() == AbortJob(old(View()), job, sendFails) && closed
      ensures Core(View(), None)
    {
      hide Core, PoolProtocol.Dispatch, Without, PoolProtocol.Finish, Drop;
      AbortCore(View(), job, sendFails);
      if job !in pending || pending[job].aborted { return; }
      MarkAbortedCore(View(), job);
      pending := pending[job := pending[job].(aborted := true)];
      if pending[job].worker.None? {
        FinishReady(View());
        Finish(job);
      } else if pending[job].worker.value in workers {
        var worker := pending[job].worker.value;
        if sendFails {
          ghost var marked := View();
          DropCore(marked, worker);
          CoreDispatchable(Drop(marked, worker));
          Lose(worker, _ => Works);
          DispatchClosed(Drop(marked, worker), _ => Works);
        } else {
          workers := workers[worker := workers[worker].(requests := workers[worker].requests + [Cancel(job)])];
        }
      }
    }

    /** Once every job is done, a closed pool drops its workers. */
    method Terminate()
      requires Valid() && closed && pending == map[]
      modifies this
      ensures Valid() && Dispatchable(Effect(old(View()), PoolProtocol.Terminate))
      ensures View() == Step(old(View()), PoolProtocol.Terminate)
    {
      hide Core, Saturated, Dispatchable;
      StepInv(View(), PoolProtocol.Terminate);
      workers, idle := map[], [];
    }
  }

  /** `serveWorker`: the programs and the one running job of a worker. */
  class WorkerRuntime {
    var programs: set<ProgramId>
    var running: map<JobId, Task>

    ghost function View(): Remote
      reads this
    {
      Remote(programs, running)
    }

    constructor ()
      ensures View() == FRESH_LINK.remote
    {
      programs, running := {}, map[];
    }

    /** Handles one request; a refusal is the exception that ends the worker. */
    method OnMessage(request: Request) returns (accepted: bool)
      modifies this
      ensures accepted <==> Apply(old(View()), request).Some?
      ensures View() == if accepted then Apply(old(View()), request).value else old(View())
    {
      accepted := true;
      if request.Install? {
        if request.program in programs { return false; }
        programs := programs + {request.program};
        return;
      }
      if request.Uninstall? {
        if |running| > 0 { return false; }
        if request.program !in programs { return false; }
        programs := programs - {request.program};
        return;
      }
      if request.Cancel? {
        if request.job in running {
          running := running[request.job := running[request.job].(aborted := true)];
        }
        return;
      }
      if |running| > 0 { return false; }
      running := running[request.job := Task(request.program, false, false)];
    }

    /** The end of a job: the response is posted before any further request is handled. */
    method Answer(job: JobId, failed: bool) returns (response: Response)
      requires job in running
      modifies this`running
      ensures response.job == job && IsAnswer(response, old(running)[job])
      ensures !failed <==> response.Returned?
      ensures running == old(running) - {job}
    {
      response := if !failed then Returned(job) else if running[job].aborted then Cancelled(job) else FailedJob(job);
      running := running - {job};
    }
  }
}
