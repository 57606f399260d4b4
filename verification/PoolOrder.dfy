/** The order of service: jobs wait in the order in which they joined their queue, required work goes
    first, and a closed pool starts nothing. */
module PoolOrders {
  import opened PoolProtocol
  import opened PoolInvariant
  import opened PoolRuns

  /* ---------- what removal leaves ---------- */

  /** The elements of `q` that are in `s`, in their order. */
  function Kept(q: seq<nat>, s: set<nat>): (r: seq<nat>)
    ensures forall x {:trigger x in r} :: x in r <==> x in q && x in s
  {
    if q == [] then []
    else
      var last := q[|q| - 1];
      assert q == q[..|q| - 1] + [last];
      Kept(q[..|q| - 1], s) + if last in s then [last] else []
  }

  /** `q` has only lost elements. */
  ghost predicate Lost(q: seq<nat>, r: seq<nat>) {
    r == Kept(q, SetOf(r)) && forall x :: x in r ==> x in q
  }

  lemma {:induction false} KeptAll(q: seq<nat>, s: set<nat>)
    requires forall x :: x in q ==> x in s
    ensures Kept(q, s) == q
  {
    if q != [] {
      var front := q[..|q| - 1];
      assert q == front + [q[|q| - 1]];
      assert forall x :: x in front ==> x in q;
      KeptAll(front, s);
    }
  }

  lemma KeptMore(q: seq<nat>, x: nat, s: set<nat>)
    ensures Kept(q + [x], s) == Kept(q, s) + if x in s then [x] else []
  {
    assert (q + [x])[..|q|] == q;
  }

  lemma {:induction false} KeptTwice(q: seq<nat>, s: set<nat>, t: set<nat>)
    requires t <= s
    ensures Kept(Kept(q, s), t) == Kept(q, t)
  {
    if q != [] {
      var front, last := q[..|q| - 1], q[|q| - 1];
      KeptTwice(front, s, t);
      assert q == front + [last];
      KeptMore(front, last, s);
      KeptMore(front, last, t);
      if last in s {
        KeptMore(Kept(front, s), last, t);
      } else {
        assert Kept(q, s) == Kept(front, s);
        assert Kept(q, t) == Kept(front, t);
      }
    }
  }

  lemma {:induction false} KeptSame(q: seq<nat>, s: set<nat>, t: set<nat>)
    requires forall x :: x in q ==> (x in s <==> x in t)
    ensures Kept(q, s) == Kept(q, t)
  {
    if q != [] {
      var front := q[..|q| - 1];
      assert q == front + [q[|q| - 1]];
      assert forall x :: x in front ==> x in q;
      KeptSame(front, s, t);
    }
  }

  lemma LostNone(q: seq<nat>)
    ensures Lost(q, q)
  {
    KeptAll(q, SetOf(q));
  }

  lemma LostMore(a: seq<nat>, b: seq<nat>, c: seq<nat>)
    requires Lost(a, b) && Lost(b, c)
    ensures Lost(a, c)
  {
    KeptTwice(a, SetOf(b), SetOf(c));
  }

  lemma LostOne(q: seq<nat>, x: nat)
    ensures Lost(q, Without(q, x))
  {
    WithoutIsKept(q, x);
    KeptSame(q, SetOf(q) - {x}, SetOf(Without(q, x)));
  }

  lemma {:induction false} WithoutIsKept(q: seq<nat>, x: nat)
    ensures Without(q, x) == Kept(q, SetOf(q) - {x})
  {
    if q != [] {
      var rest := q[1..];
      assert q == [q[0]] + rest;
      WithoutIsKept(rest, x);
      KeptCons(q[0], rest, SetOf(q) - {x});
      assert forall y :: y in rest ==> y in q;
      KeptSame(rest, SetOf(rest) - {x}, SetOf(q) - {x});
    }
  }

  lemma {:induction false} KeptCons(x: nat, q: seq<nat>, s: set<nat>)
    ensures Kept([x] + q, s) == (if x in s then [x] else []) + Kept(q, s)
  {
    if q == [] {
      assert [x] + q == [x] && [x][..0] == [];
    } else {
      var front := q[..|q| - 1];
      assert ([x] + q)[..|q|] == [x] + front;
      KeptCons(x, front, s);
    }
  }

  /** `a` stands before `b`. */
  ghost predicate Precedes(q: seq<nat>, a: nat, b: nat) {
    exists i, j :: 0 <= i < j < |q| && q[i] == a && q[j] == b
  }

  lemma {:induction false} KeptPrecedes(q: seq<nat>, s: set<nat>, a: nat, b: nat)
    requires Precedes(Kept(q, s), a, b)
    ensures Precedes(q, a, b)
  {
    var r := Kept(q, s);
    var i, j :| 0 <= i < j < |r| && r[i] == a && r[j] == b;
    var front, last := q[..|q| - 1], q[|q| - 1];
    if j < |Kept(front, s)| {
      assert Precedes(Kept(front, s), a, b);
      KeptPrecedes(front, s, a, b);
      var x, y :| 0 <= x < y < |front| && front[x] == a && front[y] == b;
      assert q[x] == a && q[y] == b;
    } else {
      assert a in Kept(front, s);
      var x :| 0 <= x < |front| && front[x] == a;
      assert q[x] == a && q[|q| - 1] == b;
    }
  }

  /* ---------- which operations only remove ---------- */

  /** Queues have only lost jobs. */
  ghost predicate Fewer(s: Pool, t: Pool) {
    && t.nextJob == s.nextJob && Lost(s.required, t.required) && Lost(s.speculative, t.speculative)
    && forall c {:trigger CallbackQueue(t, c)} :: Lost(CallbackQueue(s, c), CallbackQueue(t, c))
  }

  lemma SameFewer(s: Pool, t: Pool)
    requires t.nextJob == s.nextJob && t.required == s.required && t.speculative == s.speculative && t.callbacks == s.callbacks
    ensures Fewer(s, t)
  {
    hide Lost;
    LostNone(s.required);
    LostNone(s.speculative);
    forall c ensures Lost(CallbackQueue(s, c), CallbackQueue(t, c)) {
      LostNone(CallbackQueue(s, c));
    }
  }

  lemma FewerMore(s: Pool, t: Pool, u: Pool)
    requires Fewer(s, t) && Fewer(t, u)
    ensures Fewer(s, u)
  {
    hide Lost;
    LostMore(s.required, t.required, u.required);
    LostMore(s.speculative, t.speculative, u.speculative);
    forall c ensures Lost(CallbackQueue(s, c), CallbackQueue(u, c)) {
      assert Lost(CallbackQueue(s, c), CallbackQueue(t, c)) && Lost(CallbackQueue(t, c), CallbackQueue(u, c));
      LostMore(CallbackQueue(s, c), CallbackQueue(t, c), CallbackQueue(u, c));
    }
  }

  lemma FinishFewer(s: Pool, j: JobId)
    requires j in s.pending
    ensures Fewer(s, Finish(s, j))
  {
    hide Lost, Without;
    LostOne(s.required, j);
    LostOne(s.speculative, j);
    forall c ensures Lost(CallbackQueue(s, c), CallbackQueue(Finish(s, j), c)) {
      LostNone(CallbackQueue(s, c));
      LostOne(CallbackQueue(s, c), j);
    }
  }

  lemma DropFewer(s: Pool, w: WorkerId)
    ensures Fewer(s, Drop(s, w)) && Drop(s, w).pending == s.pending
  {
    SameFewer(s, Drop(s, w));
  }

  lemma AssignFewer(s: Pool, j: JobId, w: WorkerId, fate: Fate)
    requires j in s.pending && w in s.links
    ensures Fewer(s, AssignAndLaunch(s, j, w, fate)) && AssignAndLaunch(s, j, w, fate).closed == s.closed
    ensures AssignAndLaunch(s, j, w, fate).pending == s.pending[j := s.pending[j].(worker := Some(w))]
    ensures AssignAndLaunch(s, j, w, fate).required == Without(s.required, j)
    ensures AssignAndLaunch(s, j, w, fate).speculative == Without(s.speculative, j)
  {
    hide Lost, Without, Touched, Preparation;
    var t := Assign(s, j, w);
    LostOne(s.required, j);
    LostOne(s.speculative, j);
    forall c ensures Lost(CallbackQueue(s, c), CallbackQueue(t, c)) {
      LostNone(CallbackQueue(s, c));
    }
    assert Fewer(s, t);
    var u := AssignAndLaunch(s, j, w, fate);
    SameFewer(t, u);
    FewerMore(s, t, u);
  }

  /** One turn of the loop takes the candidate from its queue, and gives it a worker or ends it. */
  lemma TurnFewer(s: Pool, fates: Fates)
    requires Dispatchable(s) && DispatchStep(s, fates).Some?
    ensures Candidate(s).Some?
    ensures var t, j := DispatchStep(s, fates).value, Candidate(s).value;
            && Fewer(s, t) && t.closed == s.closed && t.required == Without(s.required, j) && t.speculative == Without(s.speculative, j)
            && j in s.pending
            && (forall i :: i in t.pending ==> i in s.pending && (i != j ==> t.pending[i] == s.pending[i]))
            && (forall i :: i in s.pending && i != j ==> i in t.pending)
            && (j in t.pending ==> t.pending[j].worker.Some? && t.pending[j] == s.pending[j].(worker := t.pending[j].worker))
  {
    hide AssignAndLaunch, Finish, Without, Fewer;
    var j := Candidate(s).value;
    if s.idle != [] {
      var u := s.(idle := s.idle[1..]);
      SameFewer(s, u);
      AssignFewer(u, j, s.idle[0], fates(j));
      FewerMore(s, u, DispatchStep(s, fates).value);
    } else if fates(j) == NoWorker {
      FinishFewer(s, j);
      FinishParts(s, j);
    } else {
      var u := WithNewWorker(s);
      SameFewer(s, u);
      AssignFewer(u, j, s.nextWorker, fates(j));
      FewerMore(s, u, DispatchStep(s, fates).value);
    }
  }

  lemma FinishParts(s: Pool, j: JobId)
    requires j in s.pending
    ensures Finish(s, j).required == Without(s.required, j) && Finish(s, j).speculative == Without(s.speculative, j)
    ensures Finish(s, j).pending == s.pending - {j}
  {
  }

  lemma {:induction false} DispatchFewer(s: Pool, fates: Fates)
    requires Dispatchable(s)
    ensures Fewer(s, Dispatch(s, fates))
    decreases Queued(s)
  {
    hide DispatchStep, Fewer;
    SameFewer(s, s);
    if !s.closed && DispatchStep(s, fates).Some? {
      var t := DispatchStep(s, fates).value;
      DispatchStepShrinks(s, fates);
      TurnFewer(s, fates);
      DispatchFewer(t, fates);
      FewerMore(s, t, Dispatch(s, fates));
    }
  }

  /* ---------- who is served ---------- */

  ghost predicate HasWorker(s: Pool, j: JobId) {
    j in s.pending && s.pending[j].worker.Some?
  }

  /** What a dispatch gives workers to: the foremost jobs, and speculative ones only when no required
      job is left. */
  ghost predicate Served(s: Pool, t: Pool, j: JobId) {
    && (j in s.required ==> forall i :: i in t.required ==> Precedes(s.required, j, i))
    && (j in s.speculative ==> t.required == [] && forall i :: i in t.speculative ==> Precedes(s.speculative, j, i))
    && (j in s.required || j in s.speculative)
  }

  lemma {:induction false} DispatchServes(s: Pool, fates: Fates, j: JobId)
    requires Dispatchable(s) && QueuesOk(s) && j in s.pending && s.pending[j].worker.None?
    ensures HasWorker(Dispatch(s, fates), j) ==> Served(s, Dispatch(s, fates), j)
    decreases Queued(s)
  {
    hide DispatchStep, Fewer, QueuesOk;
    var t := Dispatch(s, fates);
    if HasWorker(t, j) && !s.closed && DispatchStep(s, fates).Some? {
      var u := DispatchStep(s, fates).value;
      DispatchStepShrinks(s, fates);
      TurnFewer(s, fates);
      DispatchFewer(u, fates);
      StillQueued(s, u, Candidate(s).value);
      if j == Candidate(s).value {
        FirstServed(s, u, t, j);
      } else if j in u.pending {
        DispatchServes(u, fates, j);
        LaterServed(s, u, t, j);
      } else {
        NeverBack(u, fates, j);
      }
    }
  }

  lemma {:induction false} NeverBack(s: Pool, fates: Fates, j: JobId)
    requires Dispatchable(s) && j !in s.pending
    ensures j !in Dispatch(s, fates).pending
    decreases Queued(s)
  {
    hide DispatchStep, Fewer;
    if !s.closed && DispatchStep(s, fates).Some? {
      DispatchStepShrinks(s, fates);
      TurnFewer(s, fates);
      NeverBack(DispatchStep(s, fates).value, fates, j);
    }
  }

  lemma StillQueued(s: Pool, t: Pool, j: JobId)
    requires QueuesOk(s) && t.required == Without(s.required, j) && t.speculative == Without(s.speculative, j)
    requires forall i :: i in t.pending ==> i in s.pending && (i != j ==> t.pending[i] == s.pending[i])
    requires forall i :: i in s.pending && i != j ==> i in t.pending
    requires j in t.pending ==> t.pending[j].worker.Some?
    ensures QueuesOk(t)
  {
    StillQueue(s.required, s.pending, Required, j, t.pending);
    StillQueue(s.speculative, s.pending, Speculative, j, t.pending);
  }

  lemma StillQueue(queue: seq<JobId>, pending: map<JobId, Job>, priority: Priority, j: JobId, pending': map<JobId, Job>)
    requires QueueOk(queue, pending, priority)
    requires forall i :: i in pending' ==> i in pending && (i != j ==> pending'[i] == pending[i])
    requires forall i :: i in pending && i != j ==> i in pending'
    requires j in pending' ==> pending'[j].worker.Some?
    ensures QueueOk(Without(queue, j), pending', priority)
  {
    hide NoDuplicates;
    WithoutKeepsOrder(queue, j);
  }

  lemma FirstServed(s: Pool, u: Pool, t: Pool, j: JobId)
    requires QueuesOk(s) && Candidate(s) == Some(j) && Fewer(u, t)
    requires u.required == Without(s.required, j) && u.speculative == Without(s.speculative, j)
    ensures Served(s, t, j)
  {
    if s.required != [] {
      forall i | i in t.required ensures Precedes(s.required, j, i) {
        assert i in s.required && i != j;
        var k :| 0 <= k < |s.required| && s.required[k] == i;
        assert s.required[0] == j;
      }
      assert j in s.required && j in s.pending && s.pending[j].priority == Required;
    } else {
      assert u.required == [] && t.required == [];
      forall i | i in t.speculative ensures Precedes(s.speculative, j, i) {
        assert i in s.speculative && i != j;
        var k :| 0 <= k < |s.speculative| && s.speculative[k] == i;
        assert s.speculative[0] == j;
      }
    }
  }

  lemma LaterServed(s: Pool, u: Pool, t: Pool, j: JobId)
    requires Fewer(s, u) && Served(u, t, j)
    ensures QueuesOk(s) && QueuesOk(u) && j in s.pending && j in u.pending && s.pending[j] == u.pending[j] ==> Served(s, t, j)
  {
    if QueuesOk(s) && QueuesOk(u) && j in s.pending && j in u.pending && s.pending[j] == u.pending[j] {
      forall i | i in t.required && j in s.required ensures Precedes(s.required, j, i) {
        assert j in u.required;
        KeptPrecedes(s.required, SetOf(u.required), j, i);
      }
      forall i | i in t.speculative && j in s.speculative ensures Precedes(s.speculative, j, i) {
        assert j in u.speculative;
        KeptPrecedes(s.speculative, SetOf(u.speculative), j, i);
      }
    }
  }

  /* ---------- what the events do to the queues ---------- */

  lemma AbortFewer(s: Pool, j: JobId, sendFails: bool)
    ensures Fewer(s, AbortJob(s, j, sendFails))
  {
    hide Finish, Lost;
    SameFewer(s, s);
    if j in s.pending && !s.pending[j].aborted {
      var t := s.(pending := s.pending[j := s.pending[j].(aborted := true)]);
      SameFewer(s, t);
      if s.pending[j].worker.None? {
        FinishFewer(t, j);
        FewerMore(s, t, Finish(t, j));
      } else {
        SameFewer(s, AbortJob(s, j, sendFails));
      }
    }
  }

  lemma {:induction false} AbortFromFewer(s: Pool, j: JobId, failing: JobId -> bool)
    requires j <= s.nextJob
    ensures Fewer(s, AbortFrom(s, j, failing))
    decreases s.nextJob - j
  {
    hide AbortJob, Fewer;
    SameFewer(s, s);
    if j < s.nextJob {
      var t := AbortJob(s, j, failing(j));
      AbortFewer(s, j, failing(j));
      AbortFromFewer(t, j + 1, failing);
      FewerMore(s, t, AbortFrom(s, j, failing));
    }
  }

  lemma TakeFewer(s: Pool, w: WorkerId)
    requires w in s.links && s.links[w].responses != []
    ensures Fewer(s, Take(s, w))
  {
    hide Finish, Lost, Drop;
    var l := s.links[w];
    var t := SetLink(s, w, l.(responses := l.responses[1..]));
    SameFewer(s, t);
    match Judge(l.job, s.pending, l.responses[0])
    case Note => SameFewer(s, Take(s, w));
    case Complete =>
      FinishFewer(t, l.responses[0].job);
      FewerMore(s, t, Take(s, w));
    case Refuse =>
      DropFewer(t, w);
      FewerMore(s, t, Take(s, w));
  }

  lemma EffectFewer(s: Pool, e: Event)
    requires !e.Execute? && !e.Promote?
    ensures Fewer(s, Effect(s, e))
  {
    hide Finish, Lost, Drop, AbortJob, AbortFrom, Take, Apply, IsAnswer, Fewer;
    SameFewer(s, s);
    match e
    case Abort(j, sendFails, _) => AbortFewer(s, j, sendFails);
    case Deliver(w, _) => if w in s.links && s.links[w].responses != [] { TakeFewer(s, w); }
    case Fault(w, _) => DropFewer(s, w);
    case Retired(w) =>
      if w in s.retiring && s.retiring[w].Some? && s.retiring[w].value in s.pending {
        var t := Finish(s, s.retiring[w].value);
        FinishFewer(s, s.retiring[w].value);
        SameFewer(t, t.(retiring := t.retiring - {w}));
        FewerMore(s, t, Effect(s, e));
      } else {
        SameFewer(s, Effect(s, e));
      }
    case Close(failing) =>
      if !s.closed {
        SameFewer(s, s.(closed := true));
        AbortFromFewer(s.(closed := true), 0, failing);
        FewerMore(s, s.(closed := true), Effect(s, e));
      }
    case WorkerReceives(w, _) =>
      DropFewer(s, w);
      if w in s.links && s.links[w].requests != [] && Apply(s.links[w].remote, s.links[w].requests[0]).Some? {
        SameFewer(s, Effect(s, e));
      }
    case _ => SameFewer(s, Effect(s, e));
  }

  /* ---------- the order in which jobs join a queue ---------- */

  /** The pending job of this callback that was submitted first. */
  ghost predicate IsOldest(s: Pool, c: CallbackId, j: JobId) {
    j in s.pending && s.pending[j].callback == c && forall i :: i in s.pending && s.pending[i].callback == c ==> j <= i
  }

  /** The job, if any, that the event makes wait for a worker as `priority` work: a new submission,
      or the waiting speculative job whose value has become required. */
  ghost predicate Joins(s: Pool, e: Event, priority: Priority, j: JobId) {
    match e
    case Execute(_, _, p, _) => !s.closed && p == priority && j == s.nextJob
    case Promote(c, _) => priority == Required && IsOldest(s, c, j) && s.pending[j].priority == Speculative && s.pending[j].worker.None?
    case _ => false
  }

  ghost function Joining(s: Pool, e: Event, priority: Priority): seq<JobId> {
    if exists j :: Joins(s, e, priority, j) then
      var j :| Joins(s, e, priority, j);
      [j]
    else []
  }

  /** All the jobs that joined the queue of `priority` over the run, in order of joining. */
  ghost function Arrived(size: nat, events: seq<Event>, priority: Priority): seq<JobId>
    requires size >= 1
    decreases |events|
  {
    if events == [] then []
    else
      var before, e := events[..|events| - 1], events[|events| - 1];
      Arrived(size, before, priority) + Joining(Reached(size, before), e, priority)
  }

  ghost predicate Ascending(q: seq<nat>) {
    forall i, j :: 0 <= i < j < |q| ==> q[i] < q[j]
  }

  ghost predicate Ordered(s: Pool, required: seq<JobId>, speculative: seq<JobId>) {
    && NoDuplicates(required) && NoDuplicates(speculative)
    && (forall j :: j in required ==> j < s.nextJob && j !in s.speculative)
    && (forall j :: j in speculative ==> j < s.nextJob)
    && Lost(required, s.required) && Lost(speculative, s.speculative)
    && forall c {:trigger CallbackQueue(s, c)} :: Ascending(CallbackQueue(s, c))
  }

  lemma {:induction false} KeptAscending(q: seq<nat>, s: set<nat>)
    requires Ascending(q)
    ensures Ascending(Kept(q, s))
  {
    if q != [] {
      var front := q[..|q| - 1];
      KeptAscending(front, s);
      forall x | x in Kept(front, s) ensures x < q[|q| - 1] {
        var i :| 0 <= i < |front| && front[i] == x;
        assert q[i] == x;
      }
      AscendingGains(Kept(front, s), q[|q| - 1]);
    }
  }

  lemma LostGains(a: seq<nat>, r: seq<nat>, x: nat)
    requires Lost(a, r) && x !in a
    ensures Lost(a + [x], r + [x])
  {
    KeptMore(a, x, SetOf(r + [x]));
    KeptSame(a, SetOf(r), SetOf(r + [x]));
  }

  lemma OrderedFewer(s: Pool, t: Pool, required: seq<JobId>, speculative: seq<JobId>)
    requires Ordered(s, required, speculative) && Fewer(s, t)
    ensures Ordered(t, required, speculative)
  {
    LostMore(required, s.required, t.required);
    LostMore(speculative, s.speculative, t.speculative);
    forall c ensures Ascending(CallbackQueue(t, c)) {
      assert Lost(CallbackQueue(s, c), CallbackQueue(t, c)) && Ascending(CallbackQueue(s, c));
      KeptAscending(CallbackQueue(s, c), SetOf(CallbackQueue(t, c)));
    }
  }

  lemma EnqueueOrdered(s: Pool, job: Job, required: seq<JobId>, speculative: seq<JobId>)
    requires Ordered(s, required, speculative) && HostOk(s)
    ensures Ordered(Enqueue(s, job),
              if job.priority == Required then required + [s.nextJob] else required,
              if job.priority == Speculative then speculative + [s.nextJob] else speculative)
  {
    hide Lost, HostOk, Ascending, CallbackQueue, NoDuplicates;
    NewIsLast(s);
    EnqueueCallbacks(s, job);
    if job.priority == Required {
      LostGains(required, s.required, s.nextJob);
      NoDuplicatesSnoc(required, s.nextJob);
    } else {
      LostGains(speculative, s.speculative, s.nextJob);
      NoDuplicatesSnoc(speculative, s.nextJob);
    }
  }

  lemma EnqueueCallbacks(s: Pool, job: Job)
    requires HostOk(s) && forall c :: Ascending(CallbackQueue(s, c))
    ensures forall c :: Ascending(CallbackQueue(Enqueue(s, job), c))
  {
    hide HostOk, Ascending;
    NewIsLast(s);
    forall c ensures Ascending(CallbackQueue(Enqueue(s, job), c)) {
      assert Ascending(CallbackQueue(s, c));
      AscendingGains(CallbackQueue(s, c), s.nextJob);
    }
  }

  lemma AscendingGains(q: seq<nat>, x: nat)
    requires Ascending(q)
    ensures (forall y :: y in q ==> y < x) ==> Ascending(q + [x])
  {
    if forall y :: y in q ==> y < x {
      forall i, j | 0 <= i < j < |q + [x]| ensures (q + [x])[i] < (q + [x])[j] {
        assert q[i] in q;
      }
    }
  }

  lemma NewIsLast(s: Pool)
    requires HostOk(s)
    ensures forall j :: j in s.pending ==> j < s.nextJob
    ensures forall j :: j in s.required || j in s.speculative ==> j < s.nextJob
    ensures forall c, j {:trigger j in CallbackQueue(s, c)} :: j in CallbackQueue(s, c) ==> j < s.nextJob
  {
    forall c, j | j in CallbackQueue(s, c) ensures j < s.nextJob {
      assert CallbackOk(CallbackQueue(s, c), s.pending, c);
    }
  }

  /** The front of a callback's queue is its oldest pending job. */
  lemma FrontIsOldest(s: Pool, c: CallbackId, j: JobId)
    requires HostOk(s) && Ascending(CallbackQueue(s, c))
    ensures IsOldest(s, c, j) <==> CallbackQueue(s, c) != [] && CallbackQueue(s, c)[0] == j
  {
    var q := CallbackQueue(s, c);
    assert CallbackOk(q, s.pending, c);
    if q != [] {
      assert q[0] in q;
      forall i | i in s.pending && s.pending[i].callback == c ensures q[0] <= i {
        assert i in q;
      }
    }
    if IsOldest(s, c, j) { assert j in q; }
  }

  lemma RaiseOrdered(s: Pool, j: JobId, required: seq<JobId>, speculative: seq<JobId>)
    requires Ordered(s, required, speculative) && HostOk(s) && j in s.pending && s.pending[j].priority == Speculative
    ensures Ordered(Raise(s, j), if s.pending[j].worker.None? then required + [j] else required, speculative)
  {
    hide Lost, WorkersOk, CountsOk, Ascending, Without;
    var t := Raise(s, j);
    NewIsLast(s);
    forall c ensures CallbackQueue(t, c) == CallbackQueue(s, c) {
    }
    if s.pending[j].worker.None? {
      assert j in s.speculative;
      LostGains(required, s.required, j);
      LostOne(s.speculative, j);
      LostMore(speculative, s.speculative, t.speculative);
    }
  }

  lemma JoinsAreUnique(s: Pool, e: Event, priority: Priority, j: JobId)
    requires Joins(s, e, priority, j)
    ensures Joining(s, e, priority) == [j]
  {
  }

  lemma OrderedEffect(s: Pool, e: Event, required: seq<JobId>, speculative: seq<JobId>)
    requires Ordered(s, required, speculative) && HostOk(s)
    ensures Ordered(Effect(s, e), required + Joining(s, e, Required), speculative + Joining(s, e, Speculative))
  {
    hide Enqueue, Raise, HostOk, Lost, Joining, CallbackQueue;
    match e
    case Execute(p, c, priority, _) =>
      if s.closed {
        NothingJoins(s, e, required, speculative);
      } else {
        EnqueueOrdered(s, Job(p, c, priority, None, false, false), required, speculative);
        JoinsAreUnique(s, e, priority, s.nextJob);
        NothingJoins(s, e, required, speculative);
      }
    case Promote(c, _) =>
      NothingJoins(s, e, required, speculative);
      var queue := CallbackQueue(s, c);
      if queue != [] {
        FrontIsOldest(s, c, queue[0]);
        OnlyTheFront(s, c);
        if s.pending[queue[0]].priority == Speculative {
          RaiseOrdered(s, queue[0], required, speculative);
          if s.pending[queue[0]].worker.None? { JoinsAreUnique(s, e, Required, queue[0]); }
        }
      } else {
        OnlyTheFront(s, c);
      }
    case _ =>
      EffectFewer(s, e);
      OrderedFewer(s, Effect(s, e), required, speculative);
      NothingJoins(s, e, required, speculative);
  }

  lemma OnlyTheFront(s: Pool, c: CallbackId)
    requires HostOk(s) && Ascending(CallbackQueue(s, c))
    ensures forall j :: IsOldest(s, c, j) ==> CallbackQueue(s, c) != [] && CallbackQueue(s, c)[0] == j
  {
    forall j | IsOldest(s, c, j) ensures CallbackQueue(s, c) != [] && CallbackQueue(s, c)[0] == j {
      FrontIsOldest(s, c, j);
    }
  }

  lemma NothingJoins(s: Pool, e: Event, required: seq<JobId>, speculative: seq<JobId>)
    ensures (forall j :: !Joins(s, e, Required, j)) ==> required + Joining(s, e, Required) == required
    ensures (forall j :: !Joins(s, e, Speculative, j)) ==> speculative + Joining(s, e, Speculative) == speculative
  {
  }

  lemma OrderedStep(s: Pool, e: Event, required: seq<JobId>, speculative: seq<JobId>)
    requires Ordered(s, required, speculative) && Inv(s) && Dispatchable(Effect(s, e))
    ensures Ordered(Step(s, e), required + Joining(s, e, Required), speculative + Joining(s, e, Speculative))
  {
    hide Effect, Ordered, Fewer, HostOk, Redispatches, Joining, Dispatchable;
    OrderedEffect(s, e, required, speculative);
    match Redispatches(s, e)
    case None =>
    case Some(fates) =>
      DispatchFewer(Effect(s, e), fates);
      OrderedFewer(Effect(s, e), Dispatch(Effect(s, e), fates), required + Joining(s, e, Required), speculative + Joining(s, e, Speculative));
  }

  lemma {:induction false} RunOrdered(size: nat, events: seq<Event>)
    requires size >= 1
    ensures Ordered(Reached(size, events), Arrived(size, events, Required), Arrived(size, events, Speculative))
    decreases |events|
  {
    hide Ordered, Step, Joining, Inv;
    if events == [] {
      InitOrdered(size);
    } else {
      var before, e := events[..|events| - 1], events[|events| - 1];
      RunOrdered(size, before);
      StepInv(Reached(size, before), e);
      OrderedStep(Reached(size, before), e, Arrived(size, before, Required), Arrived(size, before, Speculative));
    }
  }

  lemma InitOrdered(size: nat)
    ensures Ordered(Init(size), [], [])
  {
  }

  lemma {:induction false} KeptPlaces(q: seq<nat>, s: set<nat>, a: nat, b: nat)
    requires NoDuplicates(q) && a in s && b in s && Precedes(q, a, b)
    ensures Precedes(Kept(q, s), a, b)
  {
    var front, last := q[..|q| - 1], q[|q| - 1];
    var i, j :| 0 <= i < j < |q| && q[i] == a && q[j] == b;
    if j < |front| {
      assert front[i] == a && front[j] == b;
      KeptPlaces(front, s, a, b);
      var r := Kept(front, s);
      var x, y :| 0 <= x < y < |r| && r[x] == a && r[y] == b;
      assert Kept(q, s)[x] == a && Kept(q, s)[y] == b;
    } else {
      assert front[i] == a && a in Kept(front, s);
      var x :| 0 <= x < |Kept(front, s)| && Kept(front, s)[x] == a;
      assert Kept(q, s)[x] == a && Kept(q, s)[|Kept(front, s)|] == b;
    }
  }

  /** First come, first in the queue: over any run each queue lists jobs that joined it, once each,
      and of two that wait the one that joined first stands first. */
  lemma QueuesKeepArrivalOrder(size: nat, events: seq<Event>, i: JobId, j: JobId)
    requires size >= 1
    ensures var s, required, speculative := Reached(size, events), Arrived(size, events, Required), Arrived(size, events, Speculative);
            && NoDuplicates(required) && NoDuplicates(speculative)
            && (j in s.required ==> j in required) && (j in s.speculative ==> j in speculative)
            && (i in s.required && j in s.required ==> (Precedes(s.required, i, j) <==> Precedes(required, i, j)))
            && (i in s.speculative && j in s.speculative ==> (Precedes(s.speculative, i, j) <==> Precedes(speculative, i, j)))
  {
    var s, required, speculative := Reached(size, events), Arrived(size, events, Required), Arrived(size, events, Speculative);
    RunOrdered(size, events);
    SameOrder(required, s.required, i, j);
    SameOrder(speculative, s.speculative, i, j);
  }

  lemma SameOrder(a: seq<nat>, r: seq<nat>, i: nat, j: nat)
    requires NoDuplicates(a) && Lost(a, r)
    ensures i in r && j in r ==> (Precedes(r, i, j) <==> Precedes(a, i, j))
  {
    if i in r && j in r {
      if Precedes(r, i, j) { KeptPrecedes(a, SetOf(r), i, j); }
      if Precedes(a, i, j) { KeptPlaces(a, SetOf(r), i, j); }
    }
  }
}
