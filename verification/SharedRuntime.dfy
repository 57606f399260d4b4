/** The host's shared runtime and the worker's access to one buffer. Every runtime method is the step
    of `SharedProtocol` that it names. */
module SharedRuntimes {
  import opened SharedProtocol
  import opened SharedOwnership
  import opened SharedKernels

  datatype Children = Children(left: Handle, right: Handle, rejoin: Handle)

  lemma NewHandle(s: Shared, cells: seq<Cell>)
    requires Inv(s)
    ensures forall h :: h in s.leases ==> h < s.next
    ensures SnapshotOf(Allocate(s, cells), s.next + 2) == Ok(cells)
  {
    hide Tiled, Nested, LeasesOk, LoansOk;
    assert cells[0..|cells|] == cells;
  }

  /** A split's two handles show the two halves of what its handle showed, and the handle itself and
      an early rejoin are refused or accepted as the phases say. */
  lemma SplitShows(s: Shared, h: Handle, boundary: nat)
    requires Inv(s) && Lookup(s, h).Ok? && boundary <= s.partitions[Lookup(s, h).value].length
    ensures SnapshotOf(s, h).Ok? && boundary <= |SnapshotOf(s, h).value|
    ensures var t := SplitInto(s, Lookup(s, h).value, boundary);
            && Lookup(t, h) == Err(Busy)
            && SnapshotOf(t, s.next + 3) == Ok(SnapshotOf(s, h).value[..boundary])
            && SnapshotOf(t, s.next + 4) == Ok(SnapshotOf(s, h).value[boundary..])
    ensures SnapshotOf(s, h).value[..boundary] + SnapshotOf(s, h).value[boundary..] == SnapshotOf(s, h).value
  {
    hide Exclusive, Covered, Nested, LeasesOk, LoansOk;
    var p := Lookup(s, h).value;
    assert h < s.next && p < s.next;
    var cells, start, length := s.allocations[s.partitions[p].allocation].cells, s.partitions[p].start, s.partitions[p].length;
    assert start + length <= |cells|;
    assert cells[start..start + length][..boundary] == cells[start..start + boundary];
    assert cells[start..start + length][boundary..] == cells[start + boundary..start + boundary + (length - boundary)];
  }

  /** After a join one new handle shows what the children's handles showed, side by side; those
      handles are refused and the rejoin witness is used up. */
  lemma JoinShows(s: Shared, h: Handle, g: Handle, k: Handle)
    requires Inv(s) && JoinFault(s, h).Ok? && h < s.next
    requires Lookup(s, g) == Ok(s.witnesses[JoinFault(s, h).value].left) && Lookup(s, k) == Ok(s.witnesses[JoinFault(s, h).value].right)
    ensures SnapshotOf(s, g).Ok? && SnapshotOf(s, k).Ok?
    ensures var t := JoinBack(s, JoinFault(s, h).value, true);
            && SnapshotOf(t, s.next) == Ok(SnapshotOf(s, g).value + SnapshotOf(s, k).value)
            && Lookup(t, g).Err? && Lookup(t, k).Err? && JoinFault(t, h) == Err(Consumed)
  {
    hide Exclusive, Covered, Nested, LoansOk, LeasesOk, Lookup, JoinFault, JoinBack;
    var w := JoinFault(s, h).value;
    JoinGives(s, h);
    var rejoin := s.witnesses[w];
    ChildrenBeside(s, w);
    JoinAuthority(s, w, h, g, k);
    var a := s.partitions[rejoin.parent].allocation;
    var cells, start := s.allocations[a].cells, s.partitions[rejoin.parent].start;
    var m, end := start + s.partitions[rejoin.left].length, start + s.partitions[rejoin.parent].length;
    assert end <= |cells|;
    assert cells[start..end] == cells[start..m] + cells[m..end];
  }

  lemma ChildrenBeside(s: Shared, w: WitnessId)
    requires Nested(s) && Joinable(s, w)
    ensures var parent, left, right := s.partitions[s.witnesses[w].parent], s.partitions[s.witnesses[w].left], s.partitions[s.witnesses[w].right];
            && left.allocation == parent.allocation == right.allocation
            && left.start == parent.start && right.start == left.start + left.length
            && left.length + right.length == parent.length
  {
    assert WitnessOk(s.partitions, w, s.witnesses[w]);
  }

  lemma JoinAuthority(s: Shared, w: WitnessId, h: Handle, g: Handle, k: Handle)
    requires Nested(s) && NamesOk(s) && JoinFault(s, h) == Ok(w) && Joinable(s, w)
    requires Lookup(s, g) == Ok(s.witnesses[w].left) && Lookup(s, k) == Ok(s.witnesses[w].right)
    ensures var t := JoinBack(s, w, true);
            && Lookup(t, s.next) == Ok(s.witnesses[w].parent) && t.allocations == s.allocations
            && s.witnesses[w].parent in t.partitions
            && t.partitions[s.witnesses[w].parent] ==
               s.partitions[s.witnesses[w].parent].(generation := s.partitions[s.witnesses[w].parent].generation + 1, phase := Idle)
            && Lookup(t, g).Err? && Lookup(t, k).Err? && JoinFault(t, h) == Err(Consumed)
  {
    hide ChildrenOnce;
    assert WitnessOk(s.partitions, w, s.witnesses[w]);
    assert s.next !in s.leases;
  }

  /** A refused split changes nothing and says why. An accepted one leaves the old handle busy, and
      the children's handles show its two halves. */
  ghost predicate SplitResult(s: Shared, t: Shared, h: Handle, boundary: int, granting: bool, r: Result<Children>) {
    match r
    case Err(fault) => SplitFault(s, h, boundary, granting) == Err(fault) && t == s
    case Ok(children) =>
      && 0 <= boundary && Lookup(t, h) == Err(Busy)
      && var left, right := SnapshotOf(t, children.left), SnapshotOf(t, children.right);
         left.Ok? && right.Ok? && |left.value| == boundary && SnapshotOf(s, h) == Ok(left.value + right.value)
  }

  /** A refused join changes nothing and says why; an accepted one grants one handle if the scope does. */
  ghost predicate JoinResult(s: Shared, t: Shared, h: Handle, granting: bool, r: Result<Option<Handle>>) {
    match r
    case Err(fault) => JoinFault(s, h) == Err(fault) && t == s
    case Ok(granted) => JoinFault(s, h).Ok? && granted.Some? == granting && (granting ==> granted.value !in s.leases)
  }

  /** A refused run changes nothing and says why; an accepted one holds exactly the partitions of its handles. */
  ghost predicate StartResult(s: Shared, t: Shared, handles: seq<Handle>, within: AllocationId -> bool, r: Result<LoanId>) {
    match r
    case Err(fault) => Borrowed(s, handles, within) == Err(fault) && t == s
    case Ok(loan) => loan in t.loans && Borrowed(s, handles, within) == Ok(t.loans[loan].partitions)
  }

  class SharedRuntime {
    var allocations: map<AllocationId, Allocation>
    var partitions: map<PartitionId, Partition>
    var witnesses: map<WitnessId, Rejoin>
    var leases: map<Handle, Lease>
    var loans: map<LoanId, Loan>
    var next: nat

    function View(): Shared
      reads this
    {
      Shared(allocations, partitions, witnesses, leases, loans, next)
    }

    ghost predicate Valid()
      reads this
    {
      Inv(View())
    }

    constructor ()
      ensures Valid() && View() == EMPTY
    {
      allocations, partitions, witnesses, leases, loans, next := map[], map[], map[], map[], map[], 0;
      new;
      EmptyOk();
    }

    method Allocate(cells: seq<Cell>) returns (handle: Handle)
      requires Valid()
      modifies this
      ensures Valid() && View() == Step(old(View()), Allocating(cells))
      ensures handle !in old(leases) && SnapshotOf(View(), handle) == Ok(cells)
    {
      hide Inv, SnapshotOf;
      StepKeeps(View(), Allocating(cells));
      NewHandle(View(), cells);
      var allocation, partition := next, next + 1;
      handle := next + 2;
      allocations := allocations[allocation := Allocation(cells, true)];
      partitions := partitions[partition := Partition(allocation, 0, |cells|, 1, Idle)];
      leases := leases[handle := PartitionLease(partition, 1)];
      next := next + 3;
    }

    /** Splits an idle partition at the boundary. */
    method Split(handle: Handle, boundary: int, granting: bool) returns (r: Result<Children>)
      requires Valid()
      modifies this
      ensures Valid() && View() == Step(old(View()), Splitting(handle, boundary, granting))
      ensures SplitResult(old(View()), View(), handle, boundary, granting, r)
    {
      hide Inv, SnapshotOf;
      ghost var s := View();
      StepKeeps(s, Splitting(handle, boundary, granting));
      var found := Lookup(View(), handle);
      if found.Err? { return Err(found.fault); }
      var p := found.value;
      var parent := partitions[p];
      if boundary < 0 || boundary > parent.length { return Err(BadBoundary); }
      if !granting { return Err(ScopeClosed); }
      SplitShows(s, handle, boundary);
      var left, right, rejoin := next, next + 1, next + 2;
      var children := Children(next + 3, next + 4, next + 5);
      partitions := SetPhase(partitions, p, Phase.Split(rejoin));
      partitions := partitions[left := Partition(parent.allocation, parent.start, boundary, 1, Idle)];
      partitions := partitions[right := Partition(parent.allocation, parent.start + boundary, parent.length - boundary, 1, Idle)];
      witnesses := witnesses[rejoin := Rejoin(p, left, right, false)];
      leases := leases[children.left := PartitionLease(left, 1)];
      leases := leases[children.right := PartitionLease(right, 1)];
      leases := leases[children.rejoin := RejoinLease(rejoin)];
      next := next + 6;
      assert View() == SplitInto(s, p, boundary);
      r := Ok(children);
    }

    /** Takes both children back; None when the parent is idle again but its scope grants no handle. */
    method Join(handle: Handle, granting: bool) returns (r: Result<Option<Handle>>)
      requires Valid()
      modifies this
      ensures Valid() && View() == Step(old(View()), Joining(handle, granting))
      ensures JoinResult(old(View()), View(), handle, granting, r)
    {
      hide Inv;
      StepKeeps(View(), Joining(handle, granting));
      var found := JoinFault(View(), handle);
      if found.Err? { return Err(found.fault); }
      var rejoin := found.value;
      var w := witnesses[rejoin];
      var parent := partitions[w.parent];
      JoinShape(View(), rejoin);
      witnesses := witnesses[rejoin := w.(consumed := true)];
      partitions := SetPhase(partitions, w.left, Joined);
      partitions := SetPhase(partitions, w.right, Joined);
      partitions := partitions[w.parent := parent.(generation := parent.generation + 1, phase := Idle)];
      if granting {
        var granted := next;
        leases := leases[granted := PartitionLease(w.parent, parent.generation + 1)];
        next := next + 1;
        r := Ok(Some(granted));
      } else {
        r := Ok(None);
      }
    }

    lemma JoinShape(s: Shared, w: WitnessId)
      requires Inv(s) && Joinable(s, w)
      ensures s.witnesses[w].left != s.witnesses[w].parent && s.witnesses[w].right != s.witnesses[w].parent
      ensures s.next !in s.leases
    {
      hide Tiled, LeasesOk, LoansOk;
      assert WitnessOk(s.partitions, w, s.witnesses[w]);
    }

    method Snapshot(handle: Handle) returns (r: Result<seq<Cell>>)
      requires Valid()
      ensures r == SnapshotOf(View(), handle)
      ensures r.Err? ==> Lookup(View(), handle) == Err(r.fault)
    {
      hide Nested, LeasesOk, LoansOk, Exclusive, Covered;
      var found := Lookup(View(), handle);
      if found.Err? { return Err(found.fault); }
      var p := partitions[found.value];
      assert p.start + p.length <= |allocations[p.allocation].cells|;
      r := Ok(allocations[p.allocation].cells[p.start..p.start + p.length]);
    }

    /** Checks every handle, then lends all partitions to one kernel. */
    method Start(handles: seq<Handle>, within: AllocationId -> bool) returns (r: Result<LoanId>)
      requires Valid()
      modifies this
      ensures Valid() && View() == Step(old(View()), Starting(handles, within))
      ensures StartResult(old(View()), View(), handles, within, r)
    {
      hide Inv, Lookup, Borrowed;
      ghost var s := View();
      StepKeeps(s, Starting(handles, within));
      var claimed: set<PartitionId> := {};
      NoHandles(s, handles, within);
      for i := 0 to |handles|
        invariant View() == s
        invariant Borrowed(s, handles[..i], within) == Ok(claimed)
      {
        var borrowed := Borrow(handles[i], within, claimed);
        BorrowNext(s, handles, i, within, claimed);
        if borrowed.Err? { BorrowFails(s, handles, i + 1, within); return Err(borrowed.fault); }
        claimed := borrowed.value;
      }
      assert handles[..|handles|] == handles;
      var loan := next;
      next := next + 1;
      loans := loans[loan := Loan(claimed, false)];
      partitions := map p | p in partitions :: if p in claimed then partitions[p].(phase := Running(loan)) else partitions[p];
      assert View() == Claim(s, claimed);
      r := Ok(loan);
    }

    /** One handle of a kernel's arguments. */
    method Borrow(h: Handle, within: AllocationId -> bool, claimed: set<PartitionId>) returns (r: Result<set<PartitionId>>)
      ensures r == Lend(View(), h, within, claimed)
    {
      if h in leases && leases[h].AtomicLease? {
        if !SharedProtocol.Valid(View(), leases[h].counter) { return Err(Invalidated); }
        if !within(leases[h].counter) { return Err(Outlives); }
        return Ok(claimed);
      }
      if h in leases && leases[h].RejoinLease? { return Err(WitnessInWorker); }
      var found := Lookup(View(), h);
      if found.Err? { return Err(found.fault); }
      if !within(partitions[found.value].allocation) { return Err(Outlives); }
      r := Ok(claimed + {found.value});
    }

    lemma NoHandles(s: Shared, handles: seq<Handle>, within: AllocationId -> bool)
      ensures Borrowed(s, handles[..0], within) == Ok({})
    {
    }

    lemma BorrowNext(s: Shared, handles: seq<Handle>, i: nat, within: AllocationId -> bool, claimed: set<PartitionId>)
      requires i < |handles| && Borrowed(s, handles[..i], within) == Ok(claimed)
      ensures Borrowed(s, handles[..i + 1], within) == Lend(s, handles[i], within, claimed)
    {
      hide Lookup;
      assert handles[..i + 1][..i] == handles[..i];
    }

    lemma {:induction false} BorrowFails(s: Shared, handles: seq<Handle>, n: nat, within: AllocationId -> bool)
      requires n <= |handles| && Borrowed(s, handles[..n], within).Err?
      ensures Borrowed(s, handles, within) == Borrowed(s, handles[..n], within)
      decreases |handles|
    {
      if n < |handles| {
        assert handles[..|handles| - 1][..n] == handles[..n];
        BorrowFails(s, handles[..|handles| - 1], n, within);
      } else {
        assert handles[..n] == handles;
      }
    }

    /** The executor posted the kernel to a worker. */
    method Admitted(loan: LoanId)
      requires Valid() && loan in loans
      modifies `loans
      ensures Valid() && View() == Step(old(View()), Admitting(loan))
    {
      hide Inv;
      StepKeeps(View(), Admitting(loan));
      loans := loans[loan := loans[loan].(admitted := true)];
    }

    /** Gives the partitions back; the check for a lost loan never fires. */
    method Finish(loan: LoanId, failed: bool) returns (lost: bool)
      requires Valid() && loan in loans
      modifies this
      ensures Valid() && View() == Step(old(View()), Ending(loan, failed))
      ensures !lost
    {
      hide Inv, EndRun, Returned, Invalidating;
      ghost var s := View();
      StepKeeps(s, Ending(loan, failed));
      LentHere(s, loan);
      NothingReturned(s, failed && loans[loan].admitted);
      var lent, admitted := loans[loan].partitions, loans[loan].admitted;
      var rest := lent;
      lost := false;
      assert lent - rest == {};
      while rest != {}
        invariant rest <= lent && !lost && View() == s.(partitions := partitions, allocations := allocations)
        invariant Returned(s, lent - rest, partitions) && Invalidating(s, lent - rest, failed && admitted, allocations)
        decreases |rest|
      {
        var p :| p in rest;
        StillLent(s, lent - rest, partitions, p);
        ReturnOne(s, lent - rest, partitions, p);
        InvalidateOne(s, lent - rest, failed && admitted, allocations, p);
        assert lent - rest + {p} == lent - (rest - {p});
        if partitions[p].phase != Running(loan) { lost := true; return; }
        GiveBack(p, failed && admitted);
        rest := rest - {p};
      }
      loans := loans - {loan};
      assert lent - rest == lent;
      EndShape(s, loan, failed, View());
    }

    /** One partition of a finished run is idle again; a failed one hurts its allocation. */
    method GiveBack(p: PartitionId, hurting: bool)
      requires p in partitions && partitions[p].allocation in allocations
      modifies `partitions, `allocations
      ensures partitions == SetPhase(old(partitions), p, Idle)
      ensures var a := old(partitions)[p].allocation;
              allocations == if hurting then old(allocations)[a := old(allocations)[a].(valid := false)] else old(allocations)
    {
      if hurting {
        var a := partitions[p].allocation;
        allocations := allocations[a := allocations[a].(valid := false)];
      }
      partitions := SetPhase(partitions, p, Idle);
    }

    static ghost predicate Returned(s: Shared, done: set<PartitionId>, partitions: map<PartitionId, Partition>) {
      && partitions.Keys == s.partitions.Keys
      && forall p :: p in s.partitions ==>
           partitions[p] == if p in done then s.partitions[p].(phase := Idle) else s.partitions[p]
    }

    static ghost predicate Hurt(s: Shared, lent: set<PartitionId>, a: AllocationId) {
      exists p :: p in lent && p in s.partitions && s.partitions[p].allocation == a
    }

    static ghost predicate Invalidating(s: Shared, done: set<PartitionId>, hurting: bool, allocations: map<AllocationId, Allocation>) {
      && allocations.Keys == s.allocations.Keys
      && forall a :: a in s.allocations ==>
           allocations[a] == if hurting && Hurt(s, done, a) then s.allocations[a].(valid := false) else s.allocations[a]
    }

    lemma NothingReturned(s: Shared, hurting: bool)
      ensures Returned(s, {}, s.partitions) && Invalidating(s, {}, hurting, s.allocations)
    {
    }

    lemma StillLent(s: Shared, done: set<PartitionId>, partitions: map<PartitionId, Partition>, p: PartitionId)
      requires Returned(s, done, partitions) && p in s.partitions && p !in done
      ensures p in partitions && partitions[p] == s.partitions[p]
    {
    }

    lemma ReturnOne(s: Shared, done: set<PartitionId>, partitions: map<PartitionId, Partition>, p: PartitionId)
      requires Returned(s, done, partitions) && p in partitions && p !in done
      ensures Returned(s, done + {p}, partitions[p := partitions[p].(phase := Idle)])
    {
    }

    lemma InvalidateOne(s: Shared, done: set<PartitionId>, hurting: bool, allocations: map<AllocationId, Allocation>, p: PartitionId)
      requires Invalidating(s, done, hurting, allocations) && p in s.partitions && s.partitions[p].allocation in s.allocations
      ensures s.partitions[p].allocation in allocations
      ensures var a := s.partitions[p].allocation;
              Invalidating(s, done + {p}, hurting, if hurting then allocations[a := allocations[a].(valid := false)] else allocations)
    {
      forall a ensures Hurt(s, done + {p}, a) <==> Hurt(s, done, a) || a == s.partitions[p].allocation {
        assert p in done + {p};
        if Hurt(s, done, a) {
          var q :| q in done && q in s.partitions && s.partitions[q].allocation == a;
          assert q in done + {p};
        }
      }
    }

    lemma LentHere(s: Shared, l: LoanId)
      requires Inv(s) && l in s.loans
      ensures forall p :: p in s.loans[l].partitions ==>
                p in s.partitions && s.partitions[p].phase == Running(l) && s.partitions[p].allocation in s.allocations
    {
      hide Nested, LeasesOk, Exclusive, Covered;
    }

    lemma EndShape(s: Shared, l: LoanId, failed: bool, t: Shared)
      requires l in s.loans && t.loans == s.loans - {l} && t.witnesses == s.witnesses && t.leases == s.leases && t.next == s.next
      requires Returned(s, s.loans[l].partitions, t.partitions)
      requires Invalidating(s, s.loans[l].partitions, failed && s.loans[l].admitted, t.allocations)
      ensures t == EndRun(s, l, failed)
    {
      var u := EndRun(s, l, failed);
      assert t.partitions == u.partitions;
      assert t.allocations == u.allocations;
    }

    /** The allocation's scope closes. */
    method Invalidate(allocation: AllocationId)
      requires Valid()
      modifies `allocations
      ensures Valid() && View() == Step(old(View()), Closing(allocation))
      ensures forall h {:trigger Lookup(View(), h)} ::
                (h in leases && leases[h].PartitionLease? && leases[h].partition in partitions
                 && partitions[leases[h].partition].allocation == allocation) ==> Lookup(View(), h) == Err(Invalidated)
    {
      hide Inv;
      StepKeeps(View(), Closing(allocation));
      if allocation in allocations {
        allocations := allocations[allocation := allocations[allocation].(valid := false)];
      }
    }
  }

  /** A worker's view of one shared buffer; reads and writes go to the buffer itself. */
  class SharedWorkerAccess {
    const storage: Storage
    const cells: array<Cell>
    const start: nat
    const length: nat
    const generation: int

    ghost predicate Valid()
      reads this
    {
      start + length <= cells.Length
    }

    constructor (storage: Storage, cells: array<Cell>, start: nat, length: nat, generation: int)
      requires start + length <= cells.Length
      ensures Valid() && this.storage == storage && this.cells == cells && this.start == start && this.length == length
    {
      this.storage, this.cells, this.start, this.length, this.generation := storage, cells, start, length, generation;
    }

    /** `control` is the current control word of the allocation. */
    method Read(control: int, index: int) returns (r: Result<Cell>)
      requires Valid()
      ensures r.Ok? <==> control == generation && 0 <= index < length
      ensures r.Err? ==> r.fault == if control != generation then Invalidated else BadIndex
      ensures r.Ok? ==> r.value == Part(cells[..], View(start, length))[index]
    {
      if control != generation { return Err(Invalidated); }
      var i := SharedIndex(index, length);
      if i.None? { return Err(BadIndex); }
      r := Ok(cells[start + i.value]);
    }

    method Write(control: int, index: int, value: Cell) returns (r: Result<()>)
      requires Valid()
      modifies cells
      ensures r.Ok? <==> control == generation && 0 <= index < length && (storage == I32 ==> -2147483648 <= value <= 2147483647)
      ensures r.Err? ==> r.fault == if control != generation then Invalidated else BadIndex
      ensures cells[..] == if r.Ok? then old(cells[..])[start + index := value] else old(cells[..])
    {
      if control != generation { return Err(Invalidated); }
      var i := SharedIndex(index, length);
      if i.None? { return Err(BadIndex); }
      var number := SharedNumber(storage, value);
      if number.None? { return Err(BadIndex); }
      cells[start + i.value] := number.value;
      r := Ok(());
    }
  }
}
