/** What a kernel may be started with, what it may do to a cell, and what its end gives back. */
module SharedBorrowings {
  import opened SharedProtocol
  import opened SharedOwnership
  import opened SharedKernels

  /* ---------- the arguments of a kernel ---------- */

  /** The handle gives a current, idle partition of a valid allocation that lives long enough. */
  ghost predicate GivesPartition(s: Shared, h: Handle, within: AllocationId -> bool, p: PartitionId) {
    && h in s.leases && p in s.partitions && s.leases[h] == PartitionLease(p, s.partitions[p].generation)
    && s.partitions[p].phase == Idle && Valid(s, s.partitions[p].allocation) && within(s.partitions[p].allocation)
  }

  /** The handle gives a valid counter that lives long enough. */
  ghost predicate GivesCounter(s: Shared, h: Handle, within: AllocationId -> bool) {
    h in s.leases && s.leases[h].AtomicLease? && Valid(s, s.leases[h].counter) && within(s.leases[h].counter)
  }

  ghost predicate Gives(s: Shared, h: Handle, within: AllocationId -> bool) {
    GivesCounter(s, h, within) || exists p :: GivesPartition(s, h, within, p)
  }

  /** One of the handles gives this partition. */
  ghost predicate GivenBy(s: Shared, handles: seq<Handle>, within: AllocationId -> bool, p: PartitionId) {
    exists i :: 0 <= i < |handles| && GivesPartition(s, handles[i], within, p)
  }

  /** Why a handle is refused: the first of these that applies. */
  ghost predicate Refuses(s: Shared, h: Handle, within: AllocationId -> bool, fault: Fault) {
    if h !in s.leases then fault == NotAPartition
    else match s.leases[h]
      case RejoinLease(_) => fault == WitnessInWorker
      case AtomicLease(a) => (if !Valid(s, a) then fault == Invalidated else fault == Outlives && !within(a))
      case PartitionLease(p, generation) =>
        if p !in s.partitions then fault == NotAPartition
        else if !Valid(s, s.partitions[p].allocation) then fault == Invalidated
        else if generation != s.partitions[p].generation then fault == Stale
        else if s.partitions[p].phase != Idle then fault == Busy
        else fault == Outlives && !within(s.partitions[p].allocation)
  }

  lemma LendIs(s: Shared, h: Handle, within: AllocationId -> bool, lent: set<PartitionId>)
    ensures Lend(s, h, within, lent).Ok? <==> Gives(s, h, within)
    ensures Lend(s, h, within, lent).Ok? ==> forall p :: p in Lend(s, h, within, lent).value <==> p in lent || GivesPartition(s, h, within, p)
    ensures Lend(s, h, within, lent).Err? ==> Refuses(s, h, within, Lend(s, h, within, lent).fault)
  {
    if Lookup(s, h).Ok? && within(s.partitions[Lookup(s, h).value].allocation) {
      assert GivesPartition(s, h, within, Lookup(s, h).value);
    }
  }

  /** A kernel starts exactly when each of its handles gives a partition or a counter; it is lent the
      partitions, no more and no less; otherwise the first handle that does not is the reason. */
  lemma {:induction false} KernelsBorrowExactly(s: Shared, handles: seq<Handle>, within: AllocationId -> bool)
    ensures var r := Borrowed(s, handles, within);
            && (r.Ok? <==> forall i :: 0 <= i < |handles| ==> Gives(s, handles[i], within))
            && (r.Ok? ==> forall p :: p in r.value <==> GivenBy(s, handles, within, p))
            && (r.Err? ==> exists i :: 0 <= i < |handles| && Refuses(s, handles[i], within, r.fault)
                                       && !Gives(s, handles[i], within) && forall j :: 0 <= j < i ==> Gives(s, handles[j], within))
  {
    hide Lend, Gives, GivesPartition, Refuses;
    if handles != [] {
      var last := |handles| - 1;
      var front := handles[..last];
      KernelsBorrowExactly(s, front, within);
      var rest := Borrowed(s, front, within);
      if rest.Err? {
        var i :| 0 <= i < last && Refuses(s, front[i], within, rest.fault)
                 && !Gives(s, front[i], within) && forall j :: 0 <= j < i ==> Gives(s, front[j], within);
        assert handles[i] == front[i] && forall j :: 0 <= j < i ==> handles[j] == front[j];
      } else {
        LendIs(s, handles[last], within, rest.value);
        LastOrBefore(s, handles, within);
      }
    }
  }

  lemma LastOrBefore(s: Shared, handles: seq<Handle>, within: AllocationId -> bool)
    requires handles != []
    ensures forall p :: GivenBy(s, handles, within, p) <==>
              GivenBy(s, handles[..|handles| - 1], within, p) || GivesPartition(s, handles[|handles| - 1], within, p)
  {
    hide GivesPartition;
    var front := handles[..|handles| - 1];
    forall p | GivenBy(s, front, within, p) ensures GivenBy(s, handles, within, p) {
      var i :| 0 <= i < |front| && GivesPartition(s, front[i], within, p);
      assert handles[i] == front[i];
    }
    forall p | GivenBy(s, handles, within, p) ensures GivenBy(s, front, within, p) || GivesPartition(s, handles[|handles| - 1], within, p) {
      var i :| 0 <= i < |handles| && GivesPartition(s, handles[i], within, p);
      if i < |front| { assert front[i] == handles[i]; }
    }
  }

  /* ---------- a kernel's step ---------- */

  /** The access lies outside the window, or the number outside the storage. */
  ghost predicate OutOfRange<S>(k: Kernel<S>, action: Action<S>, length: nat) {
    || (action.Read? && (action.index < 0 || action.index >= length))
    || (action.Write? && (action.index < 0 || action.index >= length
                          || (k.storage == I32 && (action.value < -2147483648 || action.value > 2147483647))))
  }

  /** A running kernel fails exactly at an access out of range, and then changes nothing; else it reads
      what is there or writes the number as it is. */
  lemma KernelsFailExactly<S(!new)>(k: Kernel<S>, cells: seq<Cell>, start: nat, length: nat)
    requires start + length <= |cells| && k.status.Active?
    ensures var r, action := StepIn(k, cells, start, length), k.program(k.status.state);
            && (r.kernel.status.Failed? <==> OutOfRange(k, action, length))
            && (r.kernel.status.Failed? || !action.Write? ==> r.cells == cells)
            && (!r.kernel.status.Failed? && action.Write? ==>
                  && r.cells[start + action.index] == action.value && r.kernel.status == Active(action.next)
                  && forall i :: 0 <= i < |cells| && i != start + action.index ==> r.cells[i] == cells[i])
            && (!r.kernel.status.Failed? && action.Read? ==> r.kernel.status == Active(action.resume(cells[start + action.index])))
  {
  }

  /* ---------- the end of a run ---------- */

  /** A run gives its partitions back: afterwards the current handle of each gives it again, unless the
      run failed after its admission; then none does. */
  lemma RunsGiveBack(events: seq<Event>, l: LoanId, failed: bool, p: PartitionId, h: Handle)
    requires var s := Run(EMPTY, events);
             && l in s.loans && p in s.loans[l].partitions && h in s.leases && p in s.partitions
             && s.leases[h] == PartitionLease(p, s.partitions[p].generation) && Valid(s, s.partitions[p].allocation)
    ensures var s, t := Run(EMPTY, events), Run(EMPTY, events + [Ending(l, failed)]);
            && Lookup(s, h) == Err(Busy)
            && Lookup(t, h) == if failed && s.loans[l].admitted then Err(Invalidated) else Ok(p)
  {
    hide Tiled, Nested, LeasesOk, NamesOk;
    RunKeeps(events);
    assert (events + [Ending(l, failed)])[..|events|] == events;
  }

  /* ---------- what the events make of allocations and loans ---------- */

  lemma RunSnoc(events: seq<Event>, e: Event)
    ensures Run(EMPTY, events + [e]) == Step(Run(EMPTY, events), e)
  {
    assert (events + [e])[..|events|] == events;
  }

  /** The event is the failed end of an admitted run that was lent a part of this allocation. */
  ghost predicate Hurts(s: Shared, e: Event, a: AllocationId) {
    && e.Ending? && e.failed && e.loan in s.loans && s.loans[e.loan].admitted
    && exists p :: p in s.loans[e.loan].partitions && p in s.partitions && s.partitions[p].allocation == a
  }

  /** An allocation is valid from its beginning until its scope closes or a run that was lent a part of it
      fails after its admission, and never again; nothing else invalidates it. */
  lemma AllocationsEndSo(events: seq<Event>, e: Event, a: AllocationId)
    requires a in Run(EMPTY, events + [e]).allocations
    ensures var s, t := Run(EMPTY, events), Run(EMPTY, events + [e]);
            if a in s.allocations then
              && (t.allocations[a].valid <==> s.allocations[a].valid && e != Closing(a) && !Hurts(s, e, a))
              && |t.allocations[a].cells| == |s.allocations[a].cells|
            else (e == Allocating(t.allocations[a].cells) || (e.AllocatingAtomic? && t.allocations[a].cells == [e.initial])) && t.allocations[a].valid
  {
    hide Inv, Run, Lookup, JoinFault, SplitFault, Borrowed;
    RunKeeps(events);
    RunSnoc(events, e);
    NextIsFree(Run(EMPTY, events));
  }

  lemma NextIsFree(s: Shared)
    requires Inv(s)
    ensures s.next !in s.allocations && s.next !in s.loans
  {
    hide Tiled, Nested, LeasesOk, LoansOk;
  }

  /** A run holds its loan from its start to its end, the same partitions all the time, and counts as
      admitted from its admission on. */
  lemma LoansGoSo(events: seq<Event>, e: Event, l: LoanId)
    ensures var s, t := Run(EMPTY, events), Run(EMPTY, events + [e]);
            if l in s.loans then
              if e.Ending? && e.loan == l then l !in t.loans
              else l in t.loans && t.loans[l].partitions == s.loans[l].partitions
                   && (t.loans[l].admitted <==> s.loans[l].admitted || e == Admitting(l))
            else l in t.loans ==>
              e.Starting? && !t.loans[l].admitted && forall p :: p in t.loans[l].partitions <==> GivenBy(s, e.handles, e.within, p)
  {
    hide Inv, Run, Lookup, JoinFault, SplitFault, Borrowed, GivenBy;
    RunKeeps(events);
    RunSnoc(events, e);
    NextIsFree(Run(EMPTY, events));
    if e.Starting? { KernelsBorrowExactly(Run(EMPTY, events), e.handles, e.within); }
  }
}
