/** The worker pool as a transition system: the host scheduler, the two FIFO channels of every
    worker, and the worker at the other end. `WorkerExecutor` is proved against it. */
module PoolProtocol {
  type JobId = nat
  type WorkerId = nat
  type ProgramId = nat
  type CallbackId = nat

  const PROGRAM_CACHE: nat := 16

  datatype Option<+T> = None | Some(value: T)
  datatype Priority = Required | Speculative

  datatype Job = Job(
    program: ProgramId, callback: CallbackId, priority: Priority,
    worker: Option<WorkerId>, started: bool, aborted: bool)

  datatype Request =
    | Install(program: ProgramId)
    | Uninstall(program: ProgramId)
    | Run(job: JobId, program: ProgramId)
    | Cancel(job: JobId)

  datatype Response =
    | Started(job: JobId)
    | Returned(job: JobId)
    | FailedJob(job: JobId)
    | Cancelled(job: JobId)

  /** One run inside a worker. */
  datatype Task = Task(program: ProgramId, announced: bool, aborted: bool)

  /** The worker's own state. */
  datatype Remote = Remote(programs: set<ProgramId>, running: map<JobId, Task>)

  /** A live worker: the host's record of it, the messages in flight, and the worker itself.
      `installed` is in order of last use. */
  datatype Link = Link(
    installed: seq<ProgramId>, job: Option<JobId>,
    requests: seq<Request>, responses: seq<Response>, remote: Remote)

  datatype Pool = Pool(
    size: nat,
    links: map<WorkerId, Link>,
    retiring: map<WorkerId, Option<JobId>>,
    pending: map<JobId, Job>,
    required: seq<JobId>,
    speculative: seq<JobId>,
    idle: seq<WorkerId>,
    callbacks: map<CallbackId, seq<JobId>>,
    activeSpeculative: int,
    nextJob: nat,
    nextWorker: nat,
    completed: seq<JobId>,
    closed: bool)

  /** What befalls the launch of a job: `createWorker` or `postMessage` may throw. */
  datatype Fate = Works | NoWorker | SendFails
  type Fates = JobId -> Fate

  function Init(size: nat): Pool {
    Pool(size, map[], map[], map[], [], [], [], map[], 0, 1, 0, [], false)
  }

  /* ---------- queues ---------- */

  predicate NoDuplicates<T(==)>(s: seq<T>) {
    forall i, j :: 0 <= i < j < |s| ==> s[i] != s[j]
  }

  function Without(s: seq<nat>, x: nat): (r: seq<nat>)
    ensures forall y {:trigger y in r} :: y in r <==> y in s && y != x
    ensures x !in s ==> r == s
    ensures |r| <= |s|
    ensures x in s ==> |r| < |s|
  {
    if s == [] then []
    else if s[0] == x then Without(s[1..], x)
    else
      assert s == [s[0]] + s[1..];
      [s[0]] + Without(s[1..], x)
  }

  lemma NoDuplicatesTail<T>(s: seq<T>)
    requires NoDuplicates(s) && s != []
    ensures NoDuplicates(s[1..]) && s[0] !in s[1..]
  {
    var rest := s[1..];
    assert forall i :: 0 <= i < |rest| ==> rest[i] == s[i + 1];
  }

  lemma NoDuplicatesCons<T>(x: T, s: seq<T>)
    requires NoDuplicates(s) && x !in s
    ensures NoDuplicates([x] + s)
  {
  }

  lemma NoDuplicatesSnoc<T>(s: seq<T>, x: T)
    requires NoDuplicates(s) && x !in s
    ensures NoDuplicates(s + [x])
  {
  }

  lemma {:induction false} WithoutKeepsOrder(s: seq<nat>, x: nat)
    requires NoDuplicates(s)
    ensures NoDuplicates(Without(s, x))
    ensures s != [] && s[0] == x ==> Without(s, x) == s[1..]
    ensures s != [] && s[0] != x ==> Without(s, x) != [] && Without(s, x)[0] == s[0]
  {
    if s != [] {
      NoDuplicatesTail(s);
      WithoutKeepsOrder(s[1..], x);
      if s[0] != x {
        NoDuplicatesCons(s[0], Without(s[1..], x));
      }
    }
  }

  /* ---------- the host ---------- */

  function SetLink(s: Pool, w: WorkerId, l: Link): (t: Pool)
    ensures w in s.links ==> |t.links| == |s.links|
  {
    assert w in s.links ==> s.links[w := l].Keys == s.links.Keys;
    assert |s.links[w := l]| == |s.links[w := l].Keys| && |s.links| == |s.links.Keys|;
    s.(links := s.links[w := l])
  }

  function CallbackQueue(s: Pool, c: CallbackId): seq<JobId> {
    if c in s.callbacks then s.callbacks[c] else []
  }

  /** The worker of a finished job, if it was not lost, becomes idle. */
  function FreedLinks(links: map<WorkerId, Link>, worker: Option<WorkerId>): map<WorkerId, Link> {
    if worker.Some? && worker.value in links
    then links[worker.value := links[worker.value].(job := None)] else links
  }

  function FreedRetiring(retiring: map<WorkerId, Option<JobId>>, worker: Option<WorkerId>): map<WorkerId, Option<JobId>> {
    if worker.Some? && worker.value in retiring then retiring[worker.value := None] else retiring
  }

  /** `#finish`. */
  function Finish(s: Pool, j: JobId): (t: Pool)
    requires j in s.pending
    ensures t.size == s.size && t.nextJob == s.nextJob && t.closed == s.closed
  {
    var job := s.pending[j];
    s.(pending := s.pending - {j},
       required := Without(s.required, j),
       speculative := Without(s.speculative, j),
       callbacks := s.callbacks[job.callback := Without(CallbackQueue(s, job.callback), j)],
       completed := s.completed + [j],
       activeSpeculative := s.activeSpeculative - (if job.worker.Some? && job.priority == Speculative then 1 else 0),
       links := FreedLinks(s.links, job.worker),
       retiring := FreedRetiring(s.retiring, job.worker),
       idle := if job.worker.Some? && job.worker.value in s.links then s.idle + [job.worker.value] else s.idle)
  }

  /** `#lose`, without the dispatch that follows it. */
  function Drop(s: Pool, w: WorkerId): (t: Pool)
    ensures t.size == s.size && t.nextJob == s.nextJob && t.closed == s.closed
  {
    if w !in s.links then s
    else s.(links := s.links - {w}, retiring := s.retiring[w := s.links[w].job], idle := Without(s.idle, w))
  }

  /** The job that `#dispatch` looks at next: required work first, and speculative work only
      while it leaves a worker for required work. */
  function Candidate(s: Pool): Option<JobId> {
    if s.required != [] then Some(s.required[0])
    else if s.activeSpeculative >= s.size - 1 then None
    else if s.speculative != [] then Some(s.speculative[0])
    else None
  }

  /** Takes the job from its queue and gives it to an existing worker. */
  function Assign(s: Pool, j: JobId, w: WorkerId): Pool
    requires j in s.pending && w in s.links
  {
    var job := s.pending[j];
    s.(required := Without(s.required, j),
       speculative := Without(s.speculative, j),
       pending := s.pending[j := job.(worker := Some(w))],
       activeSpeculative := if job.priority == Speculative then s.activeSpeculative + 1 else s.activeSpeculative,
       links := s.links[w := s.links[w].(job := Some(j))])
  }

  /** The install and uninstall messages that a program needs first. */
  function Preparation(installed: seq<ProgramId>, p: ProgramId): seq<Request> {
    if p in installed then []
    else if |installed| >= PROGRAM_CACHE then [Uninstall(installed[0]), Install(p)]
    else [Install(p)]
  }

  /** The host's program list after a run of `p`: evict the oldest if full, `p` is now newest. */
  function Touched(installed: seq<ProgramId>, p: ProgramId): seq<ProgramId> {
    if p in installed then Without(installed, p) + [p]
    else if |installed| >= PROGRAM_CACHE then installed[1..] + [p]
    else installed + [p]
  }

  /** The messages of one launch. */
  function Launch(s: Pool, j: JobId, w: WorkerId): Pool
    requires j in s.pending && w in s.links
  {
    var p, l := s.pending[j].program, s.links[w];
    SetLink(s, w, l.(installed := Touched(l.installed, p),
                     requests := l.requests + Preparation(l.installed, p) + [Run(j, p)]))
  }

  const FRESH_LINK: Link := Link([], None, [], [], Remote({}, map[]))

  function WithNewWorker(s: Pool): Pool {
    s.(links := s.links[s.nextWorker := FRESH_LINK], nextWorker := s.nextWorker + 1)
  }

  function AssignAndLaunch(s: Pool, j: JobId, w: WorkerId, fate: Fate): Pool
    requires j in s.pending && w in s.links
  {
    var t := Assign(s, j, w);
    if fate == SendFails then Drop(t, w) else Launch(t, j, w)
  }

  /** One turn of the dispatch loop; None when it returns. */
  function DispatchStep(s: Pool, fates: Fates): Option<Pool>
    requires Candidate(s).Some? ==> Candidate(s).value in s.pending
    requires forall w :: w in s.idle ==> w in s.links
  {
    var candidate := Candidate(s);
    if candidate.None? then None
    else
      var j := candidate.value;
      if s.idle != [] then
        Some(AssignAndLaunch(s.(idle := s.idle[1..]), j, s.idle[0], fates(j)))
      else if |s.links| == s.size then None
      else if fates(j) == NoWorker then Some(Finish(s, j))
      else Some(AssignAndLaunch(WithNewWorker(s), j, s.nextWorker, fates(j)))
  }

  predicate Dispatchable(s: Pool) {
    && (forall j :: j in s.required ==> j in s.pending && s.pending[j].worker.None?)
    && (forall j :: j in s.speculative ==> j in s.pending && s.pending[j].worker.None?)
    && (forall w :: w in s.idle ==> w in s.links)
    && NoDuplicates(s.idle)
  }

  function Queued(s: Pool): nat {
    |s.required| + |s.speculative|
  }

  lemma FinishDispatchable(s: Pool, j: JobId)
    requires Dispatchable(s) && j in s.pending && s.pending[j].worker.None?
    ensures Dispatchable(Finish(s, j))
    ensures j in s.required || j in s.speculative ==> Queued(Finish(s, j)) < Queued(s)
  {
  }

  lemma DropDispatchable(s: Pool, w: WorkerId)
    requires Dispatchable(s)
    ensures Dispatchable(Drop(s, w)) && Queued(Drop(s, w)) == Queued(s)
  {
    WithoutKeepsOrder(s.idle, w);
  }

  lemma AssignDispatchable(s: Pool, j: JobId, w: WorkerId, fate: Fate)
    requires Dispatchable(s) && j in s.pending && w in s.links
    ensures Dispatchable(AssignAndLaunch(s, j, w, fate))
    ensures j in s.required || j in s.speculative ==> Queued(AssignAndLaunch(s, j, w, fate)) < Queued(s)
  {
    var t := Assign(s, j, w);
    assert Dispatchable(t);
    DropDispatchable(t, w);
  }

  lemma DispatchStepShrinks(s: Pool, fates: Fates)
    requires Dispatchable(s) && DispatchStep(s, fates).Some?
    ensures Dispatchable(DispatchStep(s, fates).value)
    ensures Queued(DispatchStep(s, fates).value) < Queued(s)
  {
    hide AssignAndLaunch, Finish;
    var j := Candidate(s).value;
    if s.idle != [] {
      NoDuplicatesTail(s.idle);
      AssignDispatchable(s.(idle := s.idle[1..]), j, s.idle[0], fates(j));
    } else if fates(j) == NoWorker {
      FinishDispatchable(s, j);
    } else {
      AssignDispatchable(WithNewWorker(s), j, s.nextWorker, fates(j));
    }
  }

  /** `#dispatch`. */
  function Dispatch(s: Pool, fates: Fates): (t: Pool)
    requires Dispatchable(s)
    ensures t.size == s.size && t.closed == s.closed
    decreases Queued(s)
  {
    if s.closed then s
    else
      var next := DispatchStep(s, fates);
      if next.None? then s
      else
        DispatchStepShrinks(s, fates);
        Dispatch(next.value, fates)
  }

  /* ---------- the worker ---------- */

  /** How a worker takes one request; None when it refuses: a program installed twice, a program
      retired while a job runs or that is not installed, or a second job beside a running one. */
  function Apply(r: Remote, m: Request): Option<Remote> {
    match m
    case Install(p) => if p in r.programs then None else Some(r.(programs := r.programs + {p}))
    case Uninstall(p) =>
      if r.running != map[] || p !in r.programs then None else Some(r.(programs := r.programs - {p}))
    case Cancel(j) =>
      if j in r.running then Some(r.(running := r.running[j := r.running[j].(aborted := true)])) else Some(r)
    case Run(j, p) =>
      if r.running != map[] then None else Some(r.(running := r.running[j := Task(p, false, false)]))
  }

  predicate IsAnswer(m: Response, task: Task) {
    match m
    case Started(_) => false
    case Returned(_) => true
    case FailedJob(_) => !task.aborted
    case Cancelled(_) => task.aborted
  }

  /* ---------- events ---------- */

  datatype Event =
    | Execute(program: ProgramId, callback: CallbackId, priority: Priority, fates: Fates)
    | Promote(callback: CallbackId, fates: Fates)
    | Abort(job: JobId, sendFails: bool, fates: Fates)
    | Deliver(worker: WorkerId, fates: Fates)
    | Fault(worker: WorkerId, fates: Fates)
    | Retired(worker: WorkerId)
    | Close(failing: JobId -> bool)
    | Terminate
    | WorkerReceives(worker: WorkerId, fates: Fates)
    | WorkerAnnounces(worker: WorkerId, job: JobId)
    | WorkerAnswers(worker: WorkerId, answer: Response)

  function Enqueue(s: Pool, job: Job): Pool {
    var j := s.nextJob;
    var t := s.(pending := s.pending[j := job], nextJob := j + 1,
                callbacks := s.callbacks[job.callback := CallbackQueue(s, job.callback) + [j]]);
    if job.priority == Required then t.(required := t.required + [j]) else t.(speculative := t.speculative + [j])
  }

  /** `promote`, without the dispatch that follows it. */
  function Raise(s: Pool, j: JobId): Pool
    requires j in s.pending
  {
    var t := s.(pending := s.pending[j := s.pending[j].(priority := Required)]);
    if s.pending[j].worker.None? then
      t.(speculative := Without(t.speculative, j), required := t.required + [j])
    else t.(activeSpeculative := t.activeSpeculative - 1)
  }

  /** The abort listener of a job, without the dispatch after a lost worker. */
  function AbortJob(s: Pool, j: JobId, sendFails: bool): (t: Pool)
    ensures t.size == s.size && t.nextJob == s.nextJob && t.closed == s.closed
  {
    if j !in s.pending || s.pending[j].aborted then s
    else
      var t := s.(pending := s.pending[j := s.pending[j].(aborted := true)]);
      match s.pending[j].worker
      case None => Finish(t, j)
      case Some(w) =>
        if w !in t.links then t
        else if sendFails then Drop(t, w)
        else SetLink(t, w, t.links[w].(requests := t.links[w].requests + [Cancel(j)]))
  }

  /** All pending jobs are aborted in submission order. */
  function AbortFrom(s: Pool, j: JobId, sendFails: JobId -> bool): (t: Pool)
    requires j <= s.nextJob
    ensures t.size == s.size
    decreases s.nextJob - j
  {
    if j == s.nextJob then s
    else
      var t := AbortJob(s, j, sendFails(j));
      AbortFrom(t, j + 1, sendFails)
  }

  datatype Verdict = Note | Complete | Refuse

  /** What the host makes of a response from the worker that runs `job`. */
  function Judge(current: Option<JobId>, pending: map<JobId, Job>, m: Response): Verdict {
    if current != Some(m.job) || m.job !in pending then Refuse
    else if m.Started? then (if pending[m.job].started then Refuse else Note)
    else if pending[m.job].aborted then Complete
    else if m.Cancelled? then Refuse
    else Complete
  }

  /** The host takes the next response, without the dispatch that follows an answer. */
  function Take(s: Pool, w: WorkerId): (t: Pool)
    requires w in s.links && s.links[w].responses != []
    ensures t.size == s.size && t.closed == s.closed
  {
    var l := s.links[w];
    var m := l.responses[0];
    var t := SetLink(s, w, l.(responses := l.responses[1..]));
    match Judge(l.job, s.pending, m)
    case Note => t.(pending := t.pending[m.job := t.pending[m.job].(started := true)])
    case Complete => Finish(t, m.job)
    case Refuse => Drop(t, w)
  }

  /** What the event does before the dispatch, if any. */
  function Effect(s: Pool, e: Event): Pool {
    match e
    case Execute(p, c, priority, _) =>
      if s.closed then s else Enqueue(s, Job(p, c, priority, None, false, false))
    case Promote(c, _) =>
      var queue := CallbackQueue(s, c);
      if queue == [] || queue[0] !in s.pending || s.pending[queue[0]].priority == Required then s
      else Raise(s, queue[0])
    case Abort(j, sendFails, _) => AbortJob(s, j, sendFails)
    case Deliver(w, _) => if w in s.links && s.links[w].responses != [] then Take(s, w) else s
    case Fault(w, _) => Drop(s, w)
    case Retired(w) =>
      if w !in s.retiring then s
      else
        var t := if s.retiring[w].Some? && s.retiring[w].value in s.pending then Finish(s, s.retiring[w].value) else s;
        t.(retiring := t.retiring - {w})
    case Close(failing) =>
      if s.closed then s else AbortFrom(s.(closed := true), 0, failing)
    case Terminate =>
      if s.closed && s.pending == map[] then s.(links := map[], idle := []) else s
    case WorkerReceives(w, _) =>
      if w !in s.links || s.links[w].requests == [] then s
      else
        var l := s.links[w];
        var next := Apply(l.remote, l.requests[0]);
        if next.None? then Drop(s, w)
        else SetLink(s, w, l.(requests := l.requests[1..], remote := next.value))
    case WorkerAnnounces(w, j) =>
      if w !in s.links || j !in s.links[w].remote.running || s.links[w].remote.running[j].announced then s
      else
        var l := s.links[w];
        SetLink(s, w, l.(remote := l.remote.(running := l.remote.running[j := l.remote.running[j].(announced := true)]),
                         responses := l.responses + [Started(j)]))
    case WorkerAnswers(w, m) =>
      if w !in s.links || m.job !in s.links[w].remote.running || !IsAnswer(m, s.links[w].remote.running[m.job]) then s
      else
        var l := s.links[w];
        SetLink(s, w, l.(remote := l.remote.(running := l.remote.running - {m.job}), responses := l.responses + [m]))
  }

  /** The fates with which the event dispatches, if it does. */
  function Redispatches(s: Pool, e: Event): Option<Fates> {
    match e
    case Execute(_, _, _, fates) => if s.closed then None else Some(fates)
    case Promote(c, fates) =>
      var queue := CallbackQueue(s, c);
      if queue == [] || queue[0] !in s.pending || s.pending[queue[0]].priority == Required then None else Some(fates)
    case Abort(j, sendFails, fates) =>
      if j in s.pending && !s.pending[j].aborted && s.pending[j].worker.Some? && s.pending[j].worker.value in s.links && sendFails
      then Some(fates) else None
    case Deliver(w, fates) =>
      if w in s.links && s.links[w].responses != [] && Judge(s.links[w].job, s.pending, s.links[w].responses[0]) != Note
      then Some(fates) else None
    case Fault(w, fates) => if w in s.links then Some(fates) else None
    case WorkerReceives(w, fates) =>
      if w in s.links && s.links[w].requests != [] && Apply(s.links[w].remote, s.links[w].requests[0]).None?
      then Some(fates) else None
    case _ => None
  }

  function Step(s: Pool, e: Event): Pool
    requires Dispatchable(Effect(s, e))
  {
    match Redispatches(s, e)
    case None => Effect(s, e)
    case Some(fates) => Dispatch(Effect(s, e), fates)
  }

  /* ---------- the invariant ---------- */

  function SetOf<T>(s: seq<T>): set<T> {
    set x | x in s
  }

  /** The worker accepts these requests in order. */
  ghost predicate Accepted(programs: set<ProgramId>, busy: bool, requests: seq<Request>)
    decreases |requests|
  {
    requests == [] ||
    match requests[0]
    case Install(p) => p !in programs && Accepted(programs + {p}, busy, requests[1..])
    case Uninstall(p) => !busy && p in programs && Accepted(programs - {p}, busy, requests[1..])
    case Run(_, p) => !busy && p in programs && Accepted(programs, true, requests[1..])
    case Cancel(_) => Accepted(programs, busy, requests[1..])
  }

  ghost function ProgramsAfter(programs: set<ProgramId>, requests: seq<Request>): set<ProgramId>
    decreases |requests|
  {
    if requests == [] then programs
    else match requests[0]
      case Install(p) => ProgramsAfter(programs + {p}, requests[1..])
      case Uninstall(p) => ProgramsAfter(programs - {p}, requests[1..])
      case _ => ProgramsAfter(programs, requests[1..])
  }

  ghost function RunsIn(requests: seq<Request>): seq<JobId> {
    if requests == [] then []
    else (if requests[0].Run? then [requests[0].job] else []) + RunsIn(requests[1..])
  }

  /** A cancellation in flight names an aborted job, if the job is still pending at all. */
  ghost predicate CancelsOk(requests: seq<Request>, pending: map<JobId, Job>, nextJob: nat) {
    forall m :: m in requests && m.Cancel? ==> m.job < nextJob && (m.job in pending ==> pending[m.job].aborted)
  }

  /** Where the one outstanding run of a worker can be. */
  ghost predicate Waiting(l: Link, j: JobId, job: Job) {
    RunsIn(l.requests) == [j] && l.remote.running == map[] && l.responses == [] && !job.started
  }

  ghost predicate Working(l: Link, j: JobId, job: Job) {
    && RunsIn(l.requests) == [] && l.remote.running.Keys == {j}
    && var task := l.remote.running[j];
       && (task.aborted ==> job.aborted) && task.program in l.remote.programs
       && if task.announced then (l.responses == [Started(j)] && !job.started) || (l.responses == [] && job.started)
          else l.responses == [] && !job.started
  }

  ghost predicate IsTerminal(m: Response, j: JobId, job: Job) {
    !m.Started? && m.job == j && (m.Cancelled? ==> job.aborted)
  }

  ghost predicate Answered(l: Link, j: JobId, job: Job) {
    && RunsIn(l.requests) == [] && l.remote.running == map[]
    && ((|l.responses| == 1 && IsTerminal(l.responses[0], j, job))
        || (|l.responses| == 2 && l.responses[0] == Started(j) && !job.started && IsTerminal(l.responses[1], j, job)))
  }

  ghost predicate Quiet(l: Link) {
    RunsIn(l.requests) == [] && l.remote.running == map[] && l.responses == []
  }

  /** Host and worker agree: the worker will accept everything in flight, and then it holds
      exactly the programs that the host believes installed. */
  ghost predicate InStep(l: Link) {
    && NoDuplicates(l.installed) && |l.installed| <= PROGRAM_CACHE
    && Accepted(l.remote.programs, l.remote.running != map[], l.requests)
    && ProgramsAfter(l.remote.programs, l.requests) == SetOf(l.installed)
  }

  /** `taken` marks the one worker whose answer the host is just handling. */
  ghost predicate LinkOk(l: Link, w: WorkerId, pending: map<JobId, Job>, nextJob: nat, taken: Option<WorkerId>) {
    && InStep(l)
    && CancelsOk(l.requests, pending, nextJob)
    && match l.job
       case None => Quiet(l)
       case Some(j) =>
         && j in pending && pending[j].worker == Some(w)
         && if taken == Some(w) then Quiet(l)
            else Waiting(l, j, pending[j]) || Working(l, j, pending[j]) || Answered(l, j, pending[j])
  }

  ghost predicate LinksOk(s: Pool, taken: Option<WorkerId>) {
    forall w :: w in s.links ==> LinkOk(s.links[w], w, s.pending, s.nextJob, taken)
  }

  /** The queue lists the unassigned jobs of one priority. */
  ghost predicate QueueOk(queue: seq<JobId>, pending: map<JobId, Job>, priority: Priority) {
    && NoDuplicates(queue)
    && forall j {:trigger j in queue} :: j in queue <==> j in pending && pending[j].worker.None? && pending[j].priority == priority
  }

  ghost predicate QueuesOk(s: Pool) {
    QueueOk(s.required, s.pending, Required) && QueueOk(s.speculative, s.pending, Speculative)
  }

  ghost predicate CallbackOk(queue: seq<JobId>, pending: map<JobId, Job>, c: CallbackId) {
    && NoDuplicates(queue)
    && forall j {:trigger j in queue} :: j in queue <==> j in pending && pending[j].callback == c
  }

  ghost predicate CallbacksOk(s: Pool) {
    forall c {:trigger CallbackQueue(s, c)} :: CallbackOk(CallbackQueue(s, c), s.pending, c)
  }

  /** The worker that the host's tables give to this job. */
  ghost predicate Holds(links: map<WorkerId, Link>, retiring: map<WorkerId, Option<JobId>>, w: WorkerId, j: JobId) {
    (w in links && links[w].job == Some(j)) || (w in retiring && retiring[w] == Some(j))
  }

  /** Jobs and workers name each other. */
  ghost predicate AssignedOk(links: map<WorkerId, Link>, retiring: map<WorkerId, Option<JobId>>, pending: map<JobId, Job>) {
    && (forall w: WorkerId, j: JobId :: Holds(links, retiring, w, j) ==> j in pending && pending[j].worker == Some(w))
    && (forall j :: j in pending && pending[j].worker.Some? ==> Holds(links, retiring, pending[j].worker.value, j))
  }

  ghost predicate SlotsOk(size: nat, links: map<WorkerId, Link>, retiring: map<WorkerId, Option<JobId>>, nextWorker: nat) {
    && |links| <= size
    && links.Keys !! retiring.Keys
    && (forall w :: w in links || w in retiring ==> w < nextWorker)
  }

  ghost predicate IdleOk(idle: seq<WorkerId>, links: map<WorkerId, Link>) {
    && NoDuplicates(idle)
    && (forall w {:trigger w in idle} :: w in idle <==> w in links && links[w].job.None?)
  }

  ghost predicate WorkersOk(s: Pool) {
    && SlotsOk(s.size, s.links, s.retiring, s.nextWorker)
    && IdleOk(s.idle, s.links)
    && AssignedOk(s.links, s.retiring, s.pending)
  }

  ghost function ActiveSpeculative(pending: map<JobId, Job>): set<JobId> {
    set j | j in pending && pending[j].worker.Some? && pending[j].priority == Speculative
  }

  /** Every submitted job is pending or completed, once. */
  ghost predicate HistoryOk(pending: map<JobId, Job>, completed: seq<JobId>, nextJob: nat) {
    && nextJob >= 1
    && NoDuplicates(completed)
    && (forall j :: 0 < j < nextJob <==> j in pending || j in completed)
    && (forall j :: j in pending ==> j !in completed)
    && nextJob - 1 == |pending| + |completed|
  }

  ghost predicate SpeculationOk(pending: map<JobId, Job>, activeSpeculative: int, size: nat) {
    size >= 1 && activeSpeculative == |ActiveSpeculative(pending)| && activeSpeculative <= size - 1
  }

  ghost predicate CountsOk(s: Pool) {
    HistoryOk(s.pending, s.completed, s.nextJob) && SpeculationOk(s.pending, s.activeSpeculative, s.size)
  }

  ghost predicate HostOk(s: Pool) {
    QueuesOk(s) && CallbacksOk(s) && WorkersOk(s) && CountsOk(s)
  }

  /** Queued required work means that every worker slot is taken by a busy worker. */
  ghost predicate Saturated(s: Pool) {
    !s.closed && s.required != [] ==> s.idle == [] && |s.links| == s.size
  }

  /** A job that no worker has was never started. */
  ghost predicate UnstartedOk(pending: map<JobId, Job>) {
    forall j :: j in pending && pending[j].worker.None? ==> !pending[j].started
  }

  ghost predicate Core(s: Pool, taken: Option<WorkerId>) {
    HostOk(s) && LinksOk(s, taken) && UnstartedOk(s.pending)
  }

  ghost predicate Inv(s: Pool) {
    Core(s, None) && Saturated(s)
  }
}
