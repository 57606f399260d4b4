/** Shared numeric storage as a state machine: partitions of one buffer, the handles that authorise
    them, rejoin witnesses, and the loans of running kernels. */
module SharedProtocol {
  type AllocationId = nat
  type PartitionId = nat
  type WitnessId = nat
  type LoanId = nat
  type Handle = nat
  type Cell = int

  const MAX_SAFE_INTEGER: nat := 0x1f_ffff_ffff_ffff

  datatype Phase = Idle | Split(rejoin: WitnessId) | Running(loan: LoanId) | Joined

  datatype Partition = Partition(allocation: AllocationId, start: nat, length: nat, generation: nat, phase: Phase)

  datatype Rejoin = Rejoin(parent: PartitionId, left: PartitionId, right: PartitionId, consumed: bool)

  datatype Lease =
    | PartitionLease(partition: PartitionId, generation: nat)
    | RejoinLease(rejoin: WitnessId)
    | AtomicLease(counter: AllocationId)

  /** `valid` is the control word: an invalidated allocation admits no further view. */
  datatype Allocation = Allocation(cells: seq<Cell>, valid: bool)

  datatype Loan = Loan(partitions: set<PartitionId>, admitted: bool)

  datatype Fault =
    | NotAPartition | Invalidated | Stale | Busy | BadBoundary | NotAWitness | Consumed
    | ChildrenBusy | Exhausted | WitnessInWorker | Outlives | ScopeClosed | BadIndex

  datatype Result<+T> = Ok(value: T) | Err(fault: Fault)

  /** `next` is the first identity not used yet, for objects and handles alike. */
  datatype Shared = Shared(
    allocations: map<AllocationId, Allocation>,
    partitions: map<PartitionId, Partition>,
    witnesses: map<WitnessId, Rejoin>,
    leases: map<Handle, Lease>,
    loans: map<LoanId, Loan>,
    next: nat)

  const EMPTY: Shared := Shared(map[], map[], map[], map[], map[], 0)

  predicate Valid(s: Shared, a: AllocationId) {
    a in s.allocations && s.allocations[a].valid
  }

  /** `#partition`: what a handle gives access to, or why not. */
  function Lookup(s: Shared, h: Handle): Result<PartitionId> {
    if h !in s.leases || !s.leases[h].PartitionLease? || s.leases[h].partition !in s.partitions then Err(NotAPartition)
    else
      var p := s.partitions[s.leases[h].partition];
      if !Valid(s, p.allocation) then Err(Invalidated)
      else if s.leases[h].generation != p.generation then Err(Stale)
      else if p.phase != Idle then Err(Busy)
      else Ok(s.leases[h].partition)
  }

  function SetPhase(partitions: map<PartitionId, Partition>, p: PartitionId, phase: Phase): map<PartitionId, Partition>
    requires p in partitions
  {
    partitions[p := partitions[p].(phase := phase)]
  }

  /** A numeric array becomes one idle partition. */
  function Allocate(s: Shared, cells: seq<Cell>): Shared {
    s.(allocations := s.allocations[s.next := Allocation(cells, true)],
       partitions := s.partitions[s.next + 1 := Partition(s.next, 0, |cells|, 1, Idle)],
       leases := s.leases[s.next + 2 := PartitionLease(s.next + 1, 1)],
       next := s.next + 3)
  }

  /** An atomic counter is an allocation without partitions. */
  function AllocateAtomic(s: Shared, initial: Cell): Shared {
    s.(allocations := s.allocations[s.next := Allocation([initial], true)],
       leases := s.leases[s.next + 1 := AtomicLease(s.next)],
       next := s.next + 2)
  }

  function SplitFault(s: Shared, h: Handle, boundary: int, granting: bool): Result<()> {
    var found := Lookup(s, h);
    if found.Err? then Err(found.fault)
    else if boundary < 0 || boundary > s.partitions[found.value].length then Err(BadBoundary)
    else if !granting then Err(ScopeClosed)
    else Ok(())
  }

  /** `split`, when nothing is wrong: two idle children, their handles, and the rejoin witness. */
  function SplitInto(s: Shared, p: PartitionId, boundary: nat): Shared
    requires p in s.partitions && boundary <= s.partitions[p].length
  {
    var parent, left, right, rejoin := s.partitions[p], s.next, s.next + 1, s.next + 2;
    s.(partitions := SetPhase(s.partitions, p, Split(rejoin))[
                       left := Partition(parent.allocation, parent.start, boundary, 1, Idle)][
                       right := Partition(parent.allocation, parent.start + boundary, parent.length - boundary, 1, Idle)],
       witnesses := s.witnesses[rejoin := Rejoin(p, left, right, false)],
       leases := s.leases[s.next + 3 := PartitionLease(left, 1)][s.next + 4 := PartitionLease(right, 1)][
                   s.next + 5 := RejoinLease(rejoin)],
       next := s.next + 6)
  }

  predicate Known(s: Shared, w: WitnessId) {
    && w in s.witnesses && s.witnesses[w].parent in s.partitions
    && s.witnesses[w].left in s.partitions && s.witnesses[w].right in s.partitions
  }

  function JoinFault(s: Shared, h: Handle): Result<WitnessId> {
    if h !in s.leases || !s.leases[h].RejoinLease? || !Known(s, s.leases[h].rejoin) then Err(NotAWitness)
    else
      var w := s.leases[h].rejoin;
      var rejoin := s.witnesses[w];
      var parent := s.partitions[rejoin.parent];
      if !Valid(s, parent.allocation) then Err(Invalidated)
      else if rejoin.consumed || parent.phase != Split(w) then Err(Consumed)
      else if s.partitions[rejoin.left].phase != Idle || s.partitions[rejoin.right].phase != Idle then Err(ChildrenBusy)
      else if parent.generation + 1 > MAX_SAFE_INTEGER then Err(Exhausted)
      else Ok(w)
  }

  /** `join`, when nothing is wrong: the parent is idle again, a generation later. */
  function JoinBack(s: Shared, w: WitnessId, granting: bool): Shared
    requires Known(s, w)
  {
    var rejoin := s.witnesses[w];
    var parent := s.partitions[rejoin.parent];
    var t := s.(partitions := SetPhase(SetPhase(s.partitions, rejoin.left, Joined), rejoin.right, Joined)[
                                rejoin.parent := parent.(generation := parent.generation + 1, phase := Idle)],
                witnesses := s.witnesses[w := rejoin.(consumed := true)]);
    if granting then
      t.(leases := t.leases[t.next := PartitionLease(rejoin.parent, parent.generation + 1)], next := t.next + 1)
    else t
  }

  /** One handle of a kernel's arguments: what is lent with it, or the reason to refuse. */
  function Lend(s: Shared, h: Handle, within: AllocationId -> bool, lent: set<PartitionId>): Result<set<PartitionId>> {
    if h in s.leases && s.leases[h].AtomicLease? then
      if !Valid(s, s.leases[h].counter) then Err(Invalidated)
      else if !within(s.leases[h].counter) then Err(Outlives)
      else Ok(lent)
    else if h in s.leases && s.leases[h].RejoinLease? then Err(WitnessInWorker)
    else
      var found := Lookup(s, h);
      if found.Err? then Err(found.fault)
      else if !within(s.partitions[found.value].allocation) then Err(Outlives)
      else Ok(lent + {found.value})
  }

  /** The partitions among a kernel's handles, or the first reason to refuse one of them. */
  function Borrowed(s: Shared, handles: seq<Handle>, within: AllocationId -> bool): (r: Result<set<PartitionId>>)
    ensures r.Ok? ==> forall p :: p in r.value ==> p in s.partitions && s.partitions[p].phase == Idle
  {
    if handles == [] then Ok({})
    else
      var rest := Borrowed(s, handles[..|handles| - 1], within);
      if rest.Err? then rest else Lend(s, handles[|handles| - 1], within, rest.value)
  }

  /** `run` claims all its partitions at once. */
  function Claim(s: Shared, claimed: set<PartitionId>): Shared {
    s.(partitions := map p | p in s.partitions ::
                       if p in claimed then s.partitions[p].(phase := Running(s.next)) else s.partitions[p],
       loans := s.loans[s.next := Loan(claimed, false)],
       next := s.next + 1)
  }

  function Admit(s: Shared, l: LoanId): Shared {
    if l in s.loans then s.(loans := s.loans[l := s.loans[l].(admitted := true)]) else s
  }

  /** The end of a run. A failure after admission invalidates every allocation that was lent. */
  function EndRun(s: Shared, l: LoanId, failed: bool): Shared
    requires l in s.loans
  {
    var lent := s.loans[l].partitions;
    var hurt := if failed && s.loans[l].admitted then
                  set p | p in lent && p in s.partitions :: s.partitions[p].allocation
                else {};
    s.(partitions := map p | p in s.partitions ::
                       if p in lent then s.partitions[p].(phase := Idle) else s.partitions[p],
       allocations := map a | a in s.allocations ::
                        if a in hurt then s.allocations[a].(valid := false) else s.allocations[a],
       loans := s.loans - {l})
  }

  /** The allocation's scope closes. */
  function Invalidate(s: Shared, a: AllocationId): Shared {
    if a in s.allocations then s.(allocations := s.allocations[a := s.allocations[a].(valid := false)]) else s
  }

  /** A kernel's write through the descriptor that it was lent. */
  function WriteCell(s: Shared, l: LoanId, p: PartitionId, index: int, value: Cell): Shared {
    if l !in s.loans || p !in s.loans[l].partitions || p !in s.partitions then s
    else
      var part := s.partitions[p];
      if !Valid(s, part.allocation) || index < 0 || index >= part.length
         || part.start + index >= |s.allocations[part.allocation].cells| then s
      else
        var a := part.allocation;
        s.(allocations := s.allocations[a :=
             s.allocations[a].(cells := s.allocations[a].cells[part.start + index := value])])
  }

  /** `snapshot`. */
  function SnapshotOf(s: Shared, h: Handle): Result<seq<Cell>> {
    var found := Lookup(s, h);
    if found.Err? then Err(found.fault)
    else
      var p := s.partitions[found.value];
      if p.start + p.length > |s.allocations[p.allocation].cells| then Err(BadIndex)
      else Ok(Window(s, found.value))
  }

  /** The cells of a partition. */
  function Window(s: Shared, p: PartitionId): seq<Cell>
    requires p in s.partitions && s.partitions[p].allocation in s.allocations
    requires s.partitions[p].start + s.partitions[p].length <= |s.allocations[s.partitions[p].allocation].cells|
  {
    s.allocations[s.partitions[p].allocation].cells[s.partitions[p].start..s.partitions[p].start + s.partitions[p].length]
  }

  datatype Event =
    | Allocating(cells: seq<Cell>)
    | AllocatingAtomic(initial: Cell)
    | Splitting(handle: Handle, boundary: int, granting: bool)
    | Joining(handle: Handle, granting: bool)
    | Starting(handles: seq<Handle>, within: AllocationId -> bool)
    | Admitting(loan: LoanId)
    | Writing(loan: LoanId, partition: PartitionId, index: int, value: Cell)
    | Ending(loan: LoanId, failed: bool)
    | Closing(allocation: AllocationId)
    | Releasing(handle: Handle)

  function Step(s: Shared, e: Event): Shared {
    match e
    case Allocating(cells) => Allocate(s, cells)
    case AllocatingAtomic(initial) => AllocateAtomic(s, initial)
    case Splitting(h, boundary, granting) =>
      if SplitFault(s, h, boundary, granting).Ok? then SplitInto(s, Lookup(s, h).value, boundary) else s
    case Joining(h, granting) =>
      if JoinFault(s, h).Ok? then JoinBack(s, JoinFault(s, h).value, granting) else s
    case Starting(handles, within) =>
      if Borrowed(s, handles, within).Ok? then Claim(s, Borrowed(s, handles, within).value) else s
    case Admitting(l) => Admit(s, l)
    case Writing(l, p, index, value) => WriteCell(s, l, p, index, value)
    case Ending(l, failed) => if l in s.loans then EndRun(s, l, failed) else s
    case Closing(a) => Invalidate(s, a)
    case Releasing(h) => s.(leases := s.leases - {h})
  }

  function Run(s: Shared, events: seq<Event>): Shared {
    if events == [] then s else Step(Run(s, events[..|events| - 1]), events[|events| - 1])
  }

  /* ---------- the invariant ---------- */

  predicate Current(p: Partition) {
    p.phase.Idle? || p.phase.Running?
  }

  /** A current partition owns this cell. */
  predicate Owns(s: Shared, p: PartitionId, a: AllocationId, i: nat) {
    && p in s.partitions && Current(s.partitions[p]) && s.partitions[p].allocation == a
    && s.partitions[p].start <= i < s.partitions[p].start + s.partitions[p].length
  }

  ghost predicate RangesOk(s: Shared) {
    forall p :: p in s.partitions ==>
      && s.partitions[p].allocation in s.allocations
      && s.partitions[p].start + s.partitions[p].length <= |s.allocations[s.partitions[p].allocation].cells|
  }

  /** No two current partitions own the same cell. */
  ghost predicate Exclusive(s: Shared) {
    forall p, q, a, i {:trigger Owns(s, p, a, i), Owns(s, q, a, i)} :: Owns(s, p, a, i) && Owns(s, q, a, i) ==> p == q
  }

  predicate HasOwner(s: Shared, a: AllocationId, i: nat) {
    exists p :: p in s.partitions && Owns(s, p, a, i)
  }

  /** Every cell of an allocation that was partitioned has an owner. */
  ghost predicate Covered(s: Shared) {
    forall p, i: nat {:trigger HasOwner(s, s.partitions[p].allocation, i)} ::
      p in s.partitions && s.partitions[p].allocation in s.allocations
      && i < |s.allocations[s.partitions[p].allocation].cells| ==>
        HasOwner(s, s.partitions[p].allocation, i)
  }

  ghost predicate WitnessOk(partitions: map<PartitionId, Partition>, w: WitnessId, rejoin: Rejoin) {
    && rejoin.parent in partitions && rejoin.left in partitions && rejoin.right in partitions
    && rejoin.parent != rejoin.left && rejoin.parent != rejoin.right && rejoin.left != rejoin.right
    && var parent, left, right := partitions[rejoin.parent], partitions[rejoin.left], partitions[rejoin.right];
       && left.allocation == parent.allocation && right.allocation == parent.allocation
       && left.start == parent.start && right.start == left.start + left.length
       && left.length + right.length == parent.length
       && (!rejoin.consumed <==> parent.phase == Split(w))
       && (rejoin.consumed <==> left.phase == Joined) && (rejoin.consumed <==> right.phase == Joined)
  }

  ghost predicate WitnessesOk(s: Shared) {
    && (forall w :: w in s.witnesses ==> WitnessOk(s.partitions, w, s.witnesses[w]))
    && (forall p :: p in s.partitions && s.partitions[p].phase.Split? ==>
          s.partitions[p].phase.rejoin in s.witnesses && s.witnesses[s.partitions[p].phase.rejoin].parent == p)
  }

  predicate Child(rejoin: Rejoin, p: PartitionId) {
    rejoin.left == p || rejoin.right == p
  }

  ghost predicate ChildrenOnce(s: Shared) {
    forall v, w, p {:trigger Child(s.witnesses[v], p), Child(s.witnesses[w], p)} ::
      v in s.witnesses && w in s.witnesses && Child(s.witnesses[v], p) && Child(s.witnesses[w], p) ==> v == w
  }

  ghost predicate LoansOk(loans: map<LoanId, Loan>, partitions: map<PartitionId, Partition>) {
    && (forall l, p :: l in loans && p in loans[l].partitions ==> p in partitions && partitions[p].phase == Running(l))
    && (forall p :: p in partitions && partitions[p].phase.Running? ==>
          partitions[p].phase.loan in loans && p in loans[partitions[p].phase.loan].partitions)
  }

  ghost predicate LeaseOk(lease: Lease, partitions: map<PartitionId, Partition>, witnesses: map<WitnessId, Rejoin>) {
    match lease
    case PartitionLease(p, generation) => p in partitions && generation <= partitions[p].generation
    case RejoinLease(w) => w in witnesses
    case AtomicLease(_) => true
  }

  /** No two handles were granted for one generation of one partition. */
  ghost predicate GrantedOnce(leases: map<Handle, Lease>) {
    forall g, h :: g in leases && h in leases && leases[g].PartitionLease? && leases[g] == leases[h] ==> g == h
  }

  ghost predicate LeasesOk(leases: map<Handle, Lease>, partitions: map<PartitionId, Partition>, witnesses: map<WitnessId, Rejoin>) {
    GrantedOnce(leases) && forall h :: h in leases ==> LeaseOk(leases[h], partitions, witnesses)
  }

  ghost predicate Below(names: set<nat>, next: nat) {
    forall n :: n in names ==> n < next
  }

  ghost predicate NamesOk(s: Shared) {
    && Below(s.allocations.Keys, s.next) && Below(s.partitions.Keys, s.next) && Below(s.witnesses.Keys, s.next)
    && Below(s.leases.Keys, s.next) && Below(s.loans.Keys, s.next)
  }

  ghost predicate Tiled(s: Shared) {
    RangesOk(s) && Exclusive(s) && Covered(s)
  }

  ghost predicate Nested(s: Shared) {
    WitnessesOk(s) && ChildrenOnce(s)
  }

  ghost predicate Inv(s: Shared) {
    && Tiled(s) && Nested(s) && LoansOk(s.loans, s.partitions)
    && LeasesOk(s.leases, s.partitions, s.witnesses) && NamesOk(s)
  }
}
