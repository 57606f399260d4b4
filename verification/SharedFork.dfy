/** A split with a kernel on each half, inside a run in which anything else may happen in between. */
module SharedForks {
  import opened SharedProtocol
  import opened SharedOwnership
  import opened SharedKernels

  /** A turn of the run: the next step of one of our kernels, or any other event. */
  datatype Turn = Own(kernel: nat) | Other(event: Event)

  /** A partition together with the loan that lends it to a kernel. */
  datatype Grip = Grip(loan: LoanId, partition: PartitionId)

  datatype Driven<!S> = Driven(shared: Shared, kernels: seq<Kernel<S>>)

  predicate Lends(s: Shared, g: Grip) {
    g.loan in s.loans && g.partition in s.loans[g.loan].partitions && g.partition in s.partitions
  }

  /** The partition is lent, and its allocation still admits views. */
  predicate Grasps(s: Shared, g: Grip) {
    && Lends(s, g) && Valid(s, s.partitions[g.partition].allocation)
    && s.partitions[g.partition].start + s.partitions[g.partition].length <= |CellsOf(s, s.partitions[g.partition].allocation)|
  }

  function CellsOf(s: Shared, a: AllocationId): seq<Cell> {
    if a in s.allocations then s.allocations[a].cells else []
  }

  /** The write that a kernel is about to make. */
  function WriteOf<S>(k: Kernel<S>, g: Grip): seq<Event> {
    if !k.status.Active? then []
    else
      match k.program(k.status.state)
      case Write(index, value, _) => if SharedNumber(k.storage, value).Some? then [Writing(g.loan, g.partition, index, value)] else []
      case _ => []
  }

  /** The events of a turn. */
  function EventsOf<S>(d: Driven<S>, grips: seq<Grip>, t: Turn): seq<Event>
    requires |d.kernels| == |grips|
  {
    match t
    case Other(e) => [e]
    case Own(j) => if j < |grips| && Grasps(d.shared, grips[j]) then WriteOf(d.kernels[j], grips[j]) else []
  }

  function Advance<S>(d: Driven<S>, grips: seq<Grip>, t: Turn): (r: Driven<S>)
    requires |d.kernels| == |grips|
    ensures |r.kernels| == |d.kernels|
  {
    var shared := Run(d.shared, EventsOf(d, grips, t));
    if t.Own? && t.kernel < |grips| && Grasps(d.shared, grips[t.kernel]) then
      var part := d.shared.partitions[grips[t.kernel].partition];
      var next := StepIn(d.kernels[t.kernel], CellsOf(d.shared, part.allocation), part.start, part.length).kernel;
      Driven(shared, d.kernels[t.kernel := next])
    else d.(shared := shared)
  }

  function Drive<S>(d: Driven<S>, grips: seq<Grip>, turns: seq<Turn>): (r: Driven<S>)
    requires |d.kernels| == |grips|
    ensures |r.kernels| == |d.kernels|
  {
    if turns == [] then d else Advance(Drive(d, grips, turns[..|turns| - 1]), grips, turns[|turns| - 1])
  }

  /** All events of a drive, in order. */
  function Trace<S>(d: Driven<S>, grips: seq<Grip>, turns: seq<Turn>): seq<Event>
    requires |d.kernels| == |grips|
  {
    if turns == [] then []
    else
      var rest := turns[..|turns| - 1];
      Trace(d, grips, rest) + EventsOf(Drive(d, grips, rest), grips, turns[|turns| - 1])
  }

  function OwnTurns(turns: seq<Turn>, j: nat): nat {
    if turns == [] then 0
    else OwnTurns(turns[..|turns| - 1], j) + (if turns[|turns| - 1] == Own(j) then 1 else 0)
  }

  /** An event that leaves the steps and the end of these loans to their kernels. */
  predicate Foreign(e: Event, grips: seq<Grip>) {
    e.Writing? || e.Ending? ==> forall g :: g in grips ==> g.loan != e.loan
  }

  ghost predicate AllForeign(turns: seq<Turn>, grips: seq<Grip>) {
    forall t :: t in turns && t.Other? ==> Foreign(t.event, grips)
  }

  /* ---------- a drive is a run ---------- */

  lemma {:induction false} RunAppend(s: Shared, a: seq<Event>, b: seq<Event>)
    ensures Run(s, a + b) == Run(Run(s, a), b)
  {
    if b == [] {
      assert a + b == a;
    } else {
      var init := b[..|b| - 1];
      RunAppend(s, a, init);
      assert (a + b)[..|a + b| - 1] == a + init;
    }
  }

  lemma {:induction false} DriveIsRun<S>(d: Driven<S>, grips: seq<Grip>, turns: seq<Turn>)
    requires |d.kernels| == |grips|
    ensures Drive(d, grips, turns).shared == Run(d.shared, Trace(d, grips, turns))
  {
    hide Run, EventsOf;
    if turns == [] {
      RunNone(d.shared);
    } else {
      var rest := turns[..|turns| - 1];
      DriveIsRun(d, grips, rest);
      RunAppend(d.shared, Trace(d, grips, rest), EventsOf(Drive(d, grips, rest), grips, turns[|turns| - 1]));
    }
  }

  lemma RunNone(s: Shared)
    ensures Run(s, []) == s
  {
  }

  lemma RunOne(s: Shared, e: Event)
    ensures Run(s, [e]) == Step(s, e)
  {
    assert [e][..0] == [];
    RunNone(s);
  }

  /* ---------- what a foreign event leaves alone ---------- */

  /** A lent partition stays lent until its own run ends. */
  lemma StaysLent(s: Shared, e: Event, g: Grip)
    requires Inv(s) && Lends(s, g) && (e.Ending? ==> e.loan != g.loan)
    ensures Lends(Step(s, e), g) && Step(s, e).partitions[g.partition] == s.partitions[g.partition]
  {
    hide Exclusive, Covered, Nested, LeasesOk, RangesOk, SplitInto, JoinBack, Lookup, JoinFault, Joinable, Borrowed, SplitFault, Known;
    assert s.partitions[g.partition].phase == Running(g.loan);
    match e
    case Splitting(h, boundary, granting) => SplitLeaves(s, h, boundary, granting, g);
    case Joining(h, granting) => JoinLeaves(s, h, granting, g);
    case Ending(l, failed) => EndLeaves(s, l, failed, g);
    case _ =>
  }

  lemma SplitLeaves(s: Shared, h: Handle, boundary: int, granting: bool, g: Grip)
    requires NamesOk(s) && Lends(s, g) && s.partitions[g.partition].phase.Running?
    ensures var t := Step(s, Splitting(h, boundary, granting)); Lends(t, g) && t.partitions[g.partition] == s.partitions[g.partition]
  {
    if SplitFault(s, h, boundary, granting).Ok? {
      assert g.partition < s.next;
    }
  }

  lemma JoinLeaves(s: Shared, h: Handle, granting: bool, g: Grip)
    requires Lends(s, g) && s.partitions[g.partition].phase.Running?
    ensures var t := Step(s, Joining(h, granting)); Lends(t, g) && t.partitions[g.partition] == s.partitions[g.partition]
  {
  }

  lemma EndLeaves(s: Shared, l: LoanId, failed: bool, g: Grip)
    requires LoansOk(s.loans, s.partitions) && Lends(s, g) && l != g.loan
    ensures var t := Step(s, Ending(l, failed)); Lends(t, g) && t.partitions[g.partition] == s.partitions[g.partition]
  {
  }

  /** Its cells stay too, unless its own kernel writes. */
  lemma KeepsWindow(s: Shared, e: Event, g: Grip)
    requires Inv(s) && Grasps(s, g) && (e.Ending? || e.Writing? ==> e.loan != g.loan)
    ensures var part := s.partitions[g.partition];
            && part.start + part.length <= |CellsOf(Step(s, e), part.allocation)|
            && Part(CellsOf(Step(s, e), part.allocation), View(part.start, part.length)) == Part(CellsOf(s, part.allocation), View(part.start, part.length))
  {
    hide Covered, Nested, LeasesOk, Step, Exclusive, RangesOk, NamesOk;
    var part := s.partitions[g.partition];
    var before, after := CellsOf(s, part.allocation), CellsOf(Step(s, e), part.allocation);
    SameAllocation(s, e, part.allocation);
    forall i | part.start <= i < part.start + part.length ensures after[i] == before[i] {
      KeepsCell(s, e, g, i);
    }
  }

  lemma KeepsCell(s: Shared, e: Event, g: Grip, i: nat)
    requires Inv(s) && Grasps(s, g) && (e.Ending? || e.Writing? ==> e.loan != g.loan)
    requires s.partitions[g.partition].start <= i < s.partitions[g.partition].start + s.partitions[g.partition].length
    ensures var a := s.partitions[g.partition].allocation;
            i < |CellsOf(Step(s, e), a)| && CellsOf(Step(s, e), a)[i] == CellsOf(s, a)[i]
  {
    hide Covered, Nested, LeasesOk, Step, RangesOk, NamesOk;
    var a := s.partitions[g.partition].allocation;
    OnlyTheBorrowerWrites(s, e, a, i);
    assert s.partitions[g.partition].phase == Running(g.loan);
    assert Owns(s, g.partition, a, i);
  }

  /** Allocations stay, with their length, and what was invalidated stays so. */
  lemma SameAllocation(s: Shared, e: Event, a: AllocationId)
    requires Inv(s) && a in s.allocations
    ensures a in Step(s, e).allocations && |CellsOf(Step(s, e), a)| == |CellsOf(s, a)| && (Valid(Step(s, e), a) ==> Valid(s, a))
  {
    hide Exclusive, Covered, Nested, LeasesOk, SplitInto, JoinBack, Lookup, JoinFault, Joinable, Borrowed, SplitFault, Known;
    match e
    case Splitting(h, boundary, granting) =>
      if SplitFault(s, h, boundary, granting).Ok? { SplitCells(s, h, boundary, granting); }
    case Joining(h, granting) =>
      JoinGives(s, h);
      if JoinFault(s, h).Ok? { JoinSame(s, JoinFault(s, h).value, granting); }
    case _ =>
  }

  /* ---------- one turn ---------- */

  predicate Different(grips: seq<Grip>) {
    forall i, j :: 0 <= i < j < |grips| ==> grips[i].loan != grips[j].loan
  }

  /** What a lent partition holds. */
  function WindowOf(s: Shared, g: Grip): seq<Cell>
    requires Lends(s, g) && RangeOk(s, g.partition)
  {
    var part := s.partitions[g.partition];
    Part(CellsOf(s, part.allocation), View(part.start, part.length))
  }

  predicate RangeOk(s: Shared, p: PartitionId)
    requires p in s.partitions
  {
    s.partitions[p].start + s.partitions[p].length <= |CellsOf(s, s.partitions[p].allocation)|
  }

  lemma InRange(s: Shared, p: PartitionId)
    requires Inv(s) && p in s.partitions
    ensures s.partitions[p].allocation in s.allocations && RangeOk(s, p)
  {
    hide Exclusive, Covered, Nested, LeasesOk, LoansOk, NamesOk;
  }

  /** An event that is not a kernel's own leaves its window alone. */
  lemma ForeignEvent(s: Shared, e: Event, g: Grip)
    requires Inv(s) && Lends(s, g) && (e.Ending? || e.Writing? ==> e.loan != g.loan)
    requires Valid(Step(s, e), s.partitions[g.partition].allocation)
    ensures RangeOk(s, g.partition) && Grasps(s, g)
    ensures Inv(Step(s, e)) && Grasps(Step(s, e), g) && Step(s, e).partitions[g.partition] == s.partitions[g.partition]
    ensures WindowOf(Step(s, e), g) == WindowOf(s, g)
  {
    hide Inv, Step;
    InRange(s, g.partition);
    SameAllocation(s, e, s.partitions[g.partition].allocation);
    StaysLent(s, e, g);
    StepKeeps(s, e);
    KeepsWindow(s, e, g);
  }

  /** A kernel's own step does to its window what it does to a buffer of its own. */
  lemma OwnStep<S>(d: Driven<S>, grips: seq<Grip>, j: nat)
    requires |d.kernels| == |grips| && j < |grips| && Inv(d.shared) && Grasps(d.shared, grips[j])
    ensures var r, g := Advance(d, grips, Own(j)), grips[j];
            var part, before := d.shared.partitions[g.partition], WindowOf(d.shared, g);
            var alone := StepIn(d.kernels[j], before, 0, part.length);
            && Inv(r.shared) && Grasps(r.shared, g) && r.shared.partitions[g.partition] == part
            && r.kernels[j] == alone.kernel && WindowOf(r.shared, g) == alone.cells
  {
    hide Inv, StepIn, Run;
    var s, g, k := d.shared, grips[j], d.kernels[j];
    var part := s.partitions[g.partition];
    var cells := CellsOf(s, part.allocation);
    StepIsLocal(k, cells, View(part.start, part.length));
    RunNone(s);
    if WriteOf(k, g) != [] {
      var e := WriteOf(k, g)[0];
      RunOne(s, e);
      StepKeeps(s, e);
      StepsThroughTheLoan(s, g.loan, g.partition, k);
      WriteLeaves(s, g, e.index, e.value);
    } else {
      NoWrite(k, g, cells, part.start, part.length);
    }
  }

  lemma WriteLeaves(s: Shared, g: Grip, index: int, value: Cell)
    requires Grasps(s, g)
    ensures var t := Step(s, Writing(g.loan, g.partition, index, value));
            && Grasps(t, g) && t.partitions == s.partitions && t == WriteCell(s, g.loan, g.partition, index, value)
  {
  }

  lemma NoWrite<S>(k: Kernel<S>, g: Grip, cells: seq<Cell>, start: nat, length: nat)
    requires start + length <= |cells| && WriteOf(k, g) == []
    ensures StepIn(k, cells, start, length).cells == cells
  {
  }

  lemma StepAfter<S>(d: Driven<S>, grips: seq<Grip>, turns: seq<Turn>)
    requires |d.kernels| == |grips| && turns != []
    ensures Drive(d, grips, turns) == Advance(Drive(d, grips, turns[..|turns| - 1]), grips, turns[|turns| - 1])
  {
    hide Advance;
  }

  /** What a kernel and its window have become after a run of turns is what they become alone. */
  ghost predicate Alone<S>(d: Driven<S>, grips: seq<Grip>, turns: seq<Turn>, j: nat)
    requires |d.kernels| == |grips| && j < |grips| && Lends(d.shared, grips[j]) && RangeOk(d.shared, grips[j].partition)
  {
    var r, g := Drive(d, grips, turns), grips[j];
    var alone := Solo(d.kernels[j], WindowOf(d.shared, g), OwnTurns(turns, j));
    && Inv(r.shared) && Grasps(r.shared, g) && r.shared.partitions[g.partition] == d.shared.partitions[g.partition]
    && r.kernels[j] == alone.kernel && WindowOf(r.shared, g) == alone.cells
  }

  /** Whatever else happens in the runtime, as long as the allocation stays valid, a running kernel
      ends as it does alone, and its partition holds what it computed alone. */
  lemma {:induction false} DrivenAlone<S>(d: Driven<S>, grips: seq<Grip>, turns: seq<Turn>, j: nat)
    requires |d.kernels| == |grips| && j < |grips| && Different(grips) && AllForeign(turns, grips)
    requires Inv(d.shared) && Lends(d.shared, grips[j])
    requires Valid(Drive(d, grips, turns).shared, d.shared.partitions[grips[j].partition].allocation)
    ensures RangeOk(d.shared, grips[j].partition) && Alone(d, grips, turns, j)
    decreases |turns|
  {
    hide Inv, Advance, StepIn, Drive, Valid, AllForeign, Different;
    InRange(d.shared, grips[j].partition);
    if turns == [] {
      NoTurns(d, grips, j);
    } else {
      var rest, t := turns[..|turns| - 1], turns[|turns| - 1];
      StepAfter(d, grips, turns);
      DrivenInv(d, grips, rest);
      ForeignRest(turns, grips);
      var before := Drive(d, grips, rest);
      WasStillValid(before, grips, t, d.shared, d.shared.partitions[grips[j].partition].allocation);
      DrivenAlone(d, grips, rest, j);
      NextTurn(before, grips, t, j);
      SoloStep(d.kernels[j], WindowOf(d.shared, grips[j]), turns, j);
    }
  }

  lemma NoTurns<S>(d: Driven<S>, grips: seq<Grip>, j: nat)
    requires |d.kernels| == |grips| && j < |grips| && Inv(d.shared) && Lends(d.shared, grips[j]) && RangeOk(d.shared, grips[j].partition)
    requires Valid(Drive(d, grips, []).shared, d.shared.partitions[grips[j].partition].allocation)
    ensures Alone(d, grips, [], j)
  {
    hide Inv;
  }

  lemma ForeignRest(turns: seq<Turn>, grips: seq<Grip>)
    requires AllForeign(turns, grips) && turns != []
    ensures AllForeign(turns[..|turns| - 1], grips)
    ensures turns[|turns| - 1].Other? ==> Foreign(turns[|turns| - 1].event, grips)
  {
    hide Foreign;
  }

  /** The allocations of the start are there at every turn, and valid before if they are after. */
  lemma {:induction false} DrivenInv<S>(d: Driven<S>, grips: seq<Grip>, turns: seq<Turn>)
    requires |d.kernels| == |grips| && Inv(d.shared)
    ensures Inv(Drive(d, grips, turns).shared) && d.shared.allocations.Keys <= Drive(d, grips, turns).shared.allocations.Keys
    decreases |turns|
  {
    hide Inv, EventsOf, Run;
    if turns != [] {
      var rest := turns[..|turns| - 1];
      DrivenInv(d, grips, rest);
      TurnInv(Drive(d, grips, rest), grips, turns[|turns| - 1]);
      StepAfter(d, grips, turns);
    }
  }

  lemma TurnInv<S>(d: Driven<S>, grips: seq<Grip>, t: Turn)
    requires |d.kernels| == |grips| && Inv(d.shared)
    ensures Inv(Advance(d, grips, t).shared) && d.shared.allocations.Keys <= Advance(d, grips, t).shared.allocations.Keys
    ensures forall a :: a in d.shared.allocations && Valid(Advance(d, grips, t).shared, a) ==> Valid(d.shared, a)
  {
    hide Inv, Run, Valid, Step, StepIn;
    RunNone(d.shared);
    var events := EventsOf(d, grips, t);
    if events != [] {
      assert events == [events[0]];
      RunOne(d.shared, events[0]);
      StepKeeps(d.shared, events[0]);
      forall a | a in d.shared.allocations
        ensures a in Step(d.shared, events[0]).allocations && (Valid(Step(d.shared, events[0]), a) ==> Valid(d.shared, a))
      {
        SameAllocation(d.shared, events[0], a);
      }
    }
  }

  lemma WasStillValid<S>(before: Driven<S>, grips: seq<Grip>, t: Turn, start: Shared, a: AllocationId)
    requires |before.kernels| == |grips| && Inv(before.shared) && a in start.allocations && start.allocations.Keys <= before.shared.allocations.Keys
    requires Valid(Advance(before, grips, t).shared, a)
    ensures Valid(before.shared, a)
  {
    hide Inv, Advance;
    TurnInv(before, grips, t);
  }

  lemma NextTurn<S>(d: Driven<S>, grips: seq<Grip>, t: Turn, j: nat)
    requires |d.kernels| == |grips| && j < |grips| && Different(grips) && Inv(d.shared) && Grasps(d.shared, grips[j])
    requires t.Other? ==> Foreign(t.event, grips)
    requires Valid(Advance(d, grips, t).shared, d.shared.partitions[grips[j].partition].allocation)
    ensures var r, g := Advance(d, grips, t), grips[j];
            && Inv(r.shared) && Grasps(r.shared, g) && r.shared.partitions[g.partition] == d.shared.partitions[g.partition]
            && RangeOk(d.shared, g.partition)
            && (if t == Own(j) then
                  var alone := StepIn(d.kernels[j], WindowOf(d.shared, g), 0, d.shared.partitions[g.partition].length);
                  r.kernels[j] == alone.kernel && WindowOf(r.shared, g) == alone.cells
                else r.kernels[j] == d.kernels[j] && WindowOf(r.shared, g) == WindowOf(d.shared, g))
  {
    hide Inv, Run, Step, StepIn;
    if t == Own(j) {
      OwnStep(d, grips, j);
    } else {
      RunNone(d.shared);
      var events := EventsOf(d, grips, t);
      if events != [] {
        assert events == [events[0]];
        RunOne(d.shared, events[0]);
        ForeignEvent(d.shared, events[0], grips[j]);
      }
    }
  }

  lemma SoloStep<S>(k: Kernel<S>, cells: seq<Cell>, turns: seq<Turn>, j: nat)
    requires turns != []
    ensures var rest := turns[..|turns| - 1];
            var before := Solo(k, cells, OwnTurns(rest, j));
            Solo(k, cells, OwnTurns(turns, j)) ==
            if turns[|turns| - 1] == Own(j) then StepIn(before.kernel, before.cells, 0, |cells|) else before
  {
    hide StepIn;
  }

  /* ---------- a split and its rejoin witness ---------- */

  /** The witness `w` belongs to a split of `p`, whose record is `parent`. */
  predicate SplitBy(s: Shared, w: WitnessId, rejoin: Rejoin, parent: Partition) {
    w in s.witnesses && s.witnesses[w] == rejoin && rejoin.parent in s.partitions && s.partitions[rejoin.parent] == parent
  }

  lemma ChildLent(s: Shared, w: WitnessId, g: Grip)
    requires Inv(s) && Lends(s, g) && w in s.witnesses && s.witnesses[w].left == g.partition
    ensures NamesOk(s) && LoansOk(s.loans, s.partitions) && s.witnesses[w].parent in s.partitions
    ensures s.partitions[g.partition].phase.Running? && s.partitions[s.witnesses[w].parent].phase == Split(w)
    ensures s.witnesses[w].parent < s.next && w < s.next
  {
    hide Exclusive, Covered, LeasesOk, RangesOk, ChildrenOnce;
    assert WitnessOk(s.partitions, w, s.witnesses[w]);
  }

  /** While a child is lent, nothing touches the split: neither its witness nor the parent. */
  lemma SplitStays(s: Shared, e: Event, w: WitnessId, g: Grip)
    requires Inv(s) && Lends(s, g) && w in s.witnesses && s.witnesses[w].left == g.partition
    ensures s.witnesses[w].parent in s.partitions
    ensures SplitBy(Step(s, e), w, s.witnesses[w], s.partitions[s.witnesses[w].parent])
  {
    hide Inv, NamesOk, SplitInto, JoinBack, Lookup, JoinFault, Borrowed, SplitFault, Known;
    ChildLent(s, w, g);
    match e
    case Splitting(h, boundary, granting) => OtherSplit(s, h, boundary, granting, w);
    case Joining(h, granting) => OtherJoin(s, h, granting, w);
    case Starting(handles, within) => BorrowsIdle(s, handles, within, s.witnesses[w].parent);
    case _ =>
  }

  lemma OtherSplit(s: Shared, h: Handle, boundary: int, granting: bool, w: WitnessId)
    requires NamesOk(s) && w in s.witnesses && s.witnesses[w].parent in s.partitions && s.partitions[s.witnesses[w].parent].phase == Split(w)
    ensures SplitBy(Step(s, Splitting(h, boundary, granting)), w, s.witnesses[w], s.partitions[s.witnesses[w].parent])
  {
  }

  lemma OtherJoin(s: Shared, h: Handle, granting: bool, w: WitnessId)
    requires w in s.witnesses && s.witnesses[w].parent in s.partitions && s.partitions[s.witnesses[w].parent].phase == Split(w)
    requires s.witnesses[w].left in s.partitions && s.partitions[s.witnesses[w].left].phase.Running?
    ensures SplitBy(Step(s, Joining(h, granting)), w, s.witnesses[w], s.partitions[s.witnesses[w].parent])
  {
  }

  lemma BorrowsIdle(s: Shared, handles: seq<Handle>, within: AllocationId -> bool, p: PartitionId)
    requires p in s.partitions && s.partitions[p].phase != Idle
    ensures Borrowed(s, handles, within).Ok? ==> p !in Borrowed(s, handles, within).value
  {
  }

  /** A handle is granted once and never changes. */
  lemma LeaseStays(s: Shared, e: Event, h: Handle)
    requires h < s.next && h in Step(s, e).leases
    ensures h in s.leases && Step(s, e).leases[h] == s.leases[h] && s.next <= Step(s, e).next
  {
  }

  lemma NextRises(s: Shared, e: Event)
    ensures s.next <= Step(s, e).next
  {
  }

  lemma {:induction false} DrivenSplit<S>(d: Driven<S>, grips: seq<Grip>, turns: seq<Turn>, w: WitnessId, h: Handle)
    requires |d.kernels| == |grips| > 0 && Different(grips) && AllForeign(turns, grips) && Inv(d.shared) && Lends(d.shared, grips[0])
    requires w in d.shared.witnesses && d.shared.witnesses[w].left == grips[0].partition
    requires Valid(Drive(d, grips, turns).shared, d.shared.partitions[grips[0].partition].allocation)
    ensures d.shared.witnesses[w].parent in d.shared.partitions
    ensures var r := Drive(d, grips, turns).shared;
            && SplitBy(r, w, d.shared.witnesses[w], d.shared.partitions[d.shared.witnesses[w].parent])
            && d.shared.next <= r.next
            && (h < d.shared.next && h in r.leases ==> h in d.shared.leases && r.leases[h] == d.shared.leases[h])
    decreases |turns|
  {
    hide Inv, Advance, Drive, Valid, AllForeign, Different, Alone;
    SplitHere(d.shared, w);
    if turns == [] {
      DriveNone(d, grips);
    } else {
      var rest, t := turns[..|turns| - 1], turns[|turns| - 1];
      var before := Drive(d, grips, rest);
      StepAfter(d, grips, turns);
      DrivenInv(d, grips, rest);
      ForeignRest(turns, grips);
      InRange(d.shared, grips[0].partition);
      WasStillValid(before, grips, t, d.shared, d.shared.partitions[grips[0].partition].allocation);
      DrivenAlone(d, grips, rest, 0);
      AloneLends(d, grips, rest, 0);
      DrivenSplit(d, grips, rest, w, h);
      TurnSplit(before, grips, t, w, grips[0], h);
    }
  }

  lemma DriveNone<S>(d: Driven<S>, grips: seq<Grip>)
    requires |d.kernels| == |grips|
    ensures Drive(d, grips, []) == d
  {
  }

  lemma AloneLends<S>(d: Driven<S>, grips: seq<Grip>, turns: seq<Turn>, j: nat)
    requires |d.kernels| == |grips| && j < |grips| && Lends(d.shared, grips[j]) && RangeOk(d.shared, grips[j].partition)
    requires Alone(d, grips, turns, j)
    ensures Grasps(Drive(d, grips, turns).shared, grips[j])
    ensures Drive(d, grips, turns).shared.partitions[grips[j].partition] == d.shared.partitions[grips[j].partition]
    ensures WindowOf(Drive(d, grips, turns).shared, grips[j]) == Solo(d.kernels[j], WindowOf(d.shared, grips[j]), OwnTurns(turns, j)).cells
  {
    hide Inv, Solo;
  }

  lemma SplitHere(s: Shared, w: WitnessId)
    requires Inv(s) && w in s.witnesses
    ensures s.witnesses[w].parent in s.partitions && SplitBy(s, w, s.witnesses[w], s.partitions[s.witnesses[w].parent])
  {
    hide Exclusive, Covered, LeasesOk, RangesOk, LoansOk, NamesOk;
    assert WitnessOk(s.partitions, w, s.witnesses[w]);
  }

  lemma TurnSplit<S>(d: Driven<S>, grips: seq<Grip>, t: Turn, w: WitnessId, g: Grip, h: Handle)
    requires |d.kernels| == |grips| && Inv(d.shared) && Lends(d.shared, g) && w in d.shared.witnesses && d.shared.witnesses[w].left == g.partition
    ensures d.shared.witnesses[w].parent in d.shared.partitions
    ensures var r := Advance(d, grips, t).shared;
            && SplitBy(r, w, d.shared.witnesses[w], d.shared.partitions[d.shared.witnesses[w].parent]) && d.shared.next <= r.next
            && (h < d.shared.next && h in r.leases ==> h in d.shared.leases && r.leases[h] == d.shared.leases[h])
  {
    hide Inv, Run, Step, StepIn;
    SplitHere(d.shared, w);
    RunNone(d.shared);
    var events := EventsOf(d, grips, t);
    if events != [] {
      assert events == [events[0]];
      RunOne(d.shared, events[0]);
      SplitStays(d.shared, events[0], w, g);
      NextRises(d.shared, events[0]);
      if h < d.shared.next && h in Step(d.shared, events[0]).leases { LeaseStays(d.shared, events[0], h); }
    }
  }

  /* ---------- split, run, rejoin ---------- */

  /** The split of a partition, and the starts of one kernel on each of the two handles it grants. */
  function Forking(s: Shared, h: Handle, boundary: nat, within: AllocationId -> bool): seq<Event> {
    [Splitting(h, boundary, true), Starting([s.next + 3], within), Starting([s.next + 4], within)]
  }

  function Grips(s: Shared): seq<Grip> {
    [Grip(s.next + 6, s.next), Grip(s.next + 7, s.next + 1)]
  }

  lemma ForkedState(s: Shared, h: Handle, boundary: nat, within: AllocationId -> bool)
    requires Inv(s) && Lookup(s, h).Ok? && boundary <= s.partitions[Lookup(s, h).value].length
    requires within(s.partitions[Lookup(s, h).value].allocation)
    ensures var p, r := Lookup(s, h).value, Run(s, Forking(s, h, boundary, within));
            var part := s.partitions[p];
            && Inv(r) && r.next == s.next + 8 && r.allocations == s.allocations
            && Lends(r, Grips(s)[0]) && Lends(r, Grips(s)[1]) && s.next in r.partitions && s.next + 1 in r.partitions
            && r.partitions[s.next] == Partition(part.allocation, part.start, boundary, 1, Running(s.next + 6))
            && r.partitions[s.next + 1] == Partition(part.allocation, part.start + boundary, part.length - boundary, 1, Running(s.next + 7))
            && p in r.partitions && r.partitions[p] == part.(phase := Split(s.next + 2))
            && s.next + 2 in r.witnesses && r.witnesses[s.next + 2] == Rejoin(p, s.next, s.next + 1, false)
            && s.next + 5 in r.leases && r.leases[s.next + 5] == RejoinLease(s.next + 2)
  {
    hide Inv, Run, Step, Borrowed, Claim, SplitInto;
    var p := Lookup(s, h).value;
    var events := Forking(s, h, boundary, within);
    var one, two, three := Splitting(h, boundary, true), Starting([s.next + 3], within), Starting([s.next + 4], within);
    RunThree(s, one, two, three);
    var s1 := Step(s, one);
    StepKeeps(s, one);
    SplitStep(s, h, boundary);
    NamesOf(s);
    ChildrenBorrow(s, p, boundary, within);
    StepKeeps(s1, two);
    StartStep(s1, [s.next + 3], within);
    var s2 := Step(s1, two);
    StepKeeps(s2, three);
    StartStep(s2, [s.next + 4], within);
    ForkedShape(s, p, boundary);
  }

  lemma NamesOf(s: Shared)
    requires Inv(s)
    ensures NamesOk(s) && forall p :: p in s.partitions ==> s.partitions[p].allocation in s.allocations
  {
    hide Exclusive, Covered, LeasesOk, LoansOk, Nested;
  }

  lemma RunThree(s: Shared, a: Event, b: Event, c: Event)
    ensures Run(s, [a, b, c]) == Step(Step(Step(s, a), b), c)
  {
    hide Step;
    assert [a, b, c][..2] == [a, b] && [a, b][..1] == [a];
    RunOne(s, a);
  }

  lemma SplitStep(s: Shared, h: Handle, boundary: nat)
    requires Lookup(s, h).Ok? && boundary <= s.partitions[Lookup(s, h).value].length
    ensures Step(s, Splitting(h, boundary, true)) == SplitInto(s, Lookup(s, h).value, boundary)
    ensures Splittable(s, Lookup(s, h).value, boundary) && Valid(s, s.partitions[Lookup(s, h).value].allocation)
  {
    hide SplitInto;
  }

  lemma StartStep(s: Shared, handles: seq<Handle>, within: AllocationId -> bool)
    ensures Borrowed(s, handles, within).Ok? ==> Step(s, Starting(handles, within)) == Claim(s, Borrowed(s, handles, within).value)
  {
    hide Borrowed, Claim;
  }

  /** The handles that a split grants are what its kernels borrow. */
  lemma ChildrenBorrow(s: Shared, p: PartitionId, boundary: nat, within: AllocationId -> bool)
    requires NamesOk(s) && Splittable(s, p, boundary) && Valid(s, s.partitions[p].allocation) && within(s.partitions[p].allocation)
    ensures var split := SplitInto(s, p, boundary);
            && Borrowed(split, [s.next + 3], within) == Ok({s.next})
            && Borrowed(Claim(split, {s.next}), [s.next + 4], within) == Ok({s.next + 1})
  {
    var split := SplitInto(s, p, boundary);
    assert [s.next + 3][..0] == [] && [s.next + 4][..0] == [];
    assert Borrowed(split, [], within) == Ok({});
    assert Borrowed(Claim(split, {s.next}), [], within) == Ok({});
    assert {} + {s.next} == {s.next};
    assert {} + {s.next + 1} == {s.next + 1};
  }

  lemma ForkedShape(s: Shared, p: PartitionId, boundary: nat)
    requires NamesOk(s) && Splittable(s, p, boundary)
    ensures var r, part := Claim(Claim(SplitInto(s, p, boundary), {s.next}), {s.next + 1}), s.partitions[p];
            && r.next == s.next + 8 && r.allocations == s.allocations
            && Lends(r, Grips(s)[0]) && Lends(r, Grips(s)[1]) && s.next in r.partitions && s.next + 1 in r.partitions
            && r.partitions[s.next] == Partition(part.allocation, part.start, boundary, 1, Running(s.next + 6))
            && r.partitions[s.next + 1] == Partition(part.allocation, part.start + boundary, part.length - boundary, 1, Running(s.next + 7))
            && p in r.partitions && r.partitions[p] == part.(phase := Split(s.next + 2))
            && s.next + 2 in r.witnesses && r.witnesses[s.next + 2] == Rejoin(p, s.next, s.next + 1, false)
            && s.next + 5 in r.leases && r.leases[s.next + 5] == RejoinLease(s.next + 2)
  {
  }

  /** Both runs end well, and the rejoin handle is used. */
  function Rejoining(s: Shared): seq<Event> {
    [Ending(s.next + 6, false), Ending(s.next + 7, false), Joining(s.next + 5, true)]
  }

  lemma Rejoins(s: Shared, t: Shared, p: PartitionId, boundary: nat)
    requires NamesOk(s) && NamesOk(t) && LoansOk(t.loans, t.partitions) && Splittable(s, p, boundary) && s.next + 8 <= t.next
    requires s.partitions[p].generation < MAX_SAFE_INTEGER && Grasps(t, Grips(s)[0]) && Grasps(t, Grips(s)[1])
    requires var part := s.partitions[p];
             && t.partitions[s.next] == Partition(part.allocation, part.start, boundary, 1, Running(s.next + 6))
             && t.partitions[s.next + 1] == Partition(part.allocation, part.start + boundary, part.length - boundary, 1, Running(s.next + 7))
             && SplitBy(t, s.next + 2, Rejoin(p, s.next, s.next + 1, false), part.(phase := Split(s.next + 2)))
    requires s.next + 5 in t.leases && t.leases[s.next + 5] == RejoinLease(s.next + 2)
    ensures SnapshotOf(Run(t, Rejoining(s)), t.next) == Ok(WindowOf(t, Grips(s)[0]) + WindowOf(t, Grips(s)[1]))
    ensures CellsOf(Run(t, Rejoining(s)), s.partitions[p].allocation) == CellsOf(t, s.partitions[p].allocation)
  {
    hide NamesOk, LoansOk, Step, SnapshotOf, Grasps, WindowOf, JoinFault, JoinBack;
    var l, r := Ending(s.next + 6, false), Ending(s.next + 7, false);
    RunThree(t, l, r, Joining(s.next + 5, true));
    GraspsLends(t, Grips(s)[0]);
    GraspsLends(t, Grips(s)[1]);
    var t2 := Step(Step(t, l), r);
    BothEnded(s, t, p);
    RejoinAccepted(s, t2, p, boundary);
    RejoinStep(s, t2);
    NameBelow(s, p);
    JoinedShows(s, t2, p, boundary);
    WindowsOf(s, t, t2);
  }

  lemma GraspsLends(s: Shared, g: Grip)
    requires Grasps(s, g)
    ensures Lends(s, g) && RangeOk(s, g.partition) && Valid(s, s.partitions[g.partition].allocation)
  {
  }

  /** Both runs have ended: the halves are idle, all else is as before. */
  predicate BothIdle(s: Shared, t: Shared, u: Shared, p: PartitionId) {
    && u.allocations == t.allocations && u.witnesses == t.witnesses && u.leases == t.leases && u.next == t.next
    && s.next in t.partitions && s.next + 1 in t.partitions && p in t.partitions
    && s.next in u.partitions && s.next + 1 in u.partitions && p in u.partitions
    && u.partitions[s.next] == t.partitions[s.next].(phase := Idle)
    && u.partitions[s.next + 1] == t.partitions[s.next + 1].(phase := Idle) && u.partitions[p] == t.partitions[p]
  }

  lemma BothEnded(s: Shared, t: Shared, p: PartitionId)
    requires LoansOk(t.loans, t.partitions) && Lends(t, Grips(s)[0]) && Lends(t, Grips(s)[1]) && p in t.partitions && t.partitions[p].phase.Split?
    ensures BothIdle(s, t, Step(Step(t, Ending(s.next + 6, false)), Ending(s.next + 7, false)), p)
  {
    var t1 := EndRun(t, s.next + 6, false);
    assert t1.allocations == t.allocations;
    assert t.partitions[s.next + 1].phase == Running(s.next + 7);
    var t2 := EndRun(t1, s.next + 7, false);
    assert t2.allocations == t.allocations;
  }

  lemma NameBelow(s: Shared, p: PartitionId)
    requires NamesOk(s) && p in s.partitions
    ensures p < s.next
  {
  }

  lemma RejoinAccepted(s: Shared, u: Shared, p: PartitionId, boundary: nat)
    requires s.next in u.partitions && u.partitions[s.next].phase == Idle && s.next + 1 in u.partitions && u.partitions[s.next + 1].phase == Idle
    requires p in s.partitions && Valid(u, s.partitions[p].allocation) && s.partitions[p].generation < MAX_SAFE_INTEGER
    requires SplitBy(u, s.next + 2, Rejoin(p, s.next, s.next + 1, false), s.partitions[p].(phase := Split(s.next + 2)))
    requires s.next + 5 in u.leases && u.leases[s.next + 5] == RejoinLease(s.next + 2)
    ensures JoinFault(u, s.next + 5) == Ok(s.next + 2) && Known(u, s.next + 2)
  {
  }

  lemma RejoinStep(s: Shared, u: Shared)
    requires JoinFault(u, s.next + 5) == Ok(s.next + 2) && Known(u, s.next + 2)
    ensures Step(u, Joining(s.next + 5, true)) == JoinBack(u, s.next + 2, true)
  {
    hide JoinFault, JoinBack;
  }

  lemma JoinedShows(s: Shared, u: Shared, p: PartitionId, boundary: nat)
    requires Splittable(s, p, boundary) && Known(u, s.next + 2) && Valid(u, s.partitions[p].allocation) && p < s.next
    requires SplitBy(u, s.next + 2, Rejoin(p, s.next, s.next + 1, false), s.partitions[p].(phase := Split(s.next + 2)))
    requires s.partitions[p].start + s.partitions[p].length <= |CellsOf(u, s.partitions[p].allocation)|
    ensures var j, part := JoinBack(u, s.next + 2, true), s.partitions[p];
            && SnapshotOf(j, u.next) == Ok(Part(CellsOf(u, part.allocation), View(part.start, part.length)))
            && CellsOf(j, part.allocation) == CellsOf(u, part.allocation)
  {
  }

  lemma WindowsOf(s: Shared, t: Shared, u: Shared)
    requires Lends(t, Grips(s)[0]) && Lends(t, Grips(s)[1]) && RangeOk(t, s.next) && RangeOk(t, s.next + 1) && u.allocations == t.allocations
    requires var low, high := t.partitions[s.next], t.partitions[s.next + 1];
             high.allocation == low.allocation && high.start == low.start + low.length
    ensures var low, high := t.partitions[s.next], t.partitions[s.next + 1];
            && low.start + low.length + high.length <= |CellsOf(u, low.allocation)|
            && WindowOf(t, Grips(s)[0]) + WindowOf(t, Grips(s)[1])
               == Part(CellsOf(u, low.allocation), View(low.start, low.length + high.length))
  {
  }

  /** Split a partition and run a kernel on each half; between their steps anything else may happen,
      but the end of their runs and the loss of the allocation. When both have ended and the halves
      are rejoined, the parent shows what the two kernels computed alone, side by side. */
  lemma SplitRunJoin<S>(s: Shared, h: Handle, boundary: nat, within: AllocationId -> bool, left: Kernel<S>, right: Kernel<S>, turns: seq<Turn>)
    requires Inv(s) && Lookup(s, h).Ok? && boundary <= s.partitions[Lookup(s, h).value].length
    requires within(s.partitions[Lookup(s, h).value].allocation) && s.partitions[Lookup(s, h).value].generation < MAX_SAFE_INTEGER
    requires AllForeign(turns, Grips(s))
    requires var r := Drive(Driven(Run(s, Forking(s, h, boundary, within)), [left, right]), Grips(s), turns).shared;
             Valid(r, s.partitions[Lookup(s, h).value].allocation) && s.next + 5 in r.leases
    ensures SnapshotOf(s, h).Ok? && boundary <= |SnapshotOf(s, h).value|
    ensures var cells, d := SnapshotOf(s, h).value, Driven(Run(s, Forking(s, h, boundary, within)), [left, right]);
            var r := Drive(d, Grips(s), turns);
            var l, m := Solo(left, cells[..boundary], OwnTurns(turns, 0)), Solo(right, cells[boundary..], OwnTurns(turns, 1));
            var events := Forking(s, h, boundary, within) + Trace(d, Grips(s), turns) + Rejoining(s);
            && r.kernels == [l.kernel, m.kernel]
            && SnapshotOf(Run(s, events), r.shared.next) == Ok(l.cells + m.cells)
  {
    hide Inv, Run, Drive, Trace, Alone, Different, AllForeign, Solo, Lookup, Lends, WindowOf, RangeOk, SplitBy, Grasps, Valid, Forking, Rejoining, SnapshotOf, Splittable, NamesOk, LoansOk, Grips;
    LookupGives(s, h);
    GripsDiffer(s);
    var p := Lookup(s, h).value;
    var a := s.partitions[p].allocation;
    var d := Driven(Run(s, Forking(s, h, boundary, within)), [left, right]);
    var grips, r := Grips(s), Drive(d, Grips(s), turns);
    ForkedState(s, h, boundary, within);
    SplitStep(s, h, boundary);
    DrivenAlone(d, grips, turns, 0);
    DrivenAlone(d, grips, turns, 1);
    DrivenInv(d, grips, turns);
    InRange(d.shared, s.next);
    InRange(d.shared, s.next + 1);
    AloneLends(d, grips, turns, 0);
    AloneLends(d, grips, turns, 1);
    AloneKernel(d, grips, turns, 0);
    AloneKernel(d, grips, turns, 1);
    DrivenSplit(d, grips, turns, s.next + 2, s.next + 5);
    InvParts(s);
    InvParts(r.shared);
    Rejoins(s, r.shared, p, boundary);
    Halves(s, d.shared, h, boundary);
    DriveIsRun(d, grips, turns);
    RunAppend(s, Forking(s, h, boundary, within), Trace(d, grips, turns));
    RunAppend(s, Forking(s, h, boundary, within) + Trace(d, grips, turns), Rejoining(s));
    assert r.kernels == [r.kernels[0], r.kernels[1]];
  }

  lemma InvParts(s: Shared)
    requires Inv(s)
    ensures NamesOk(s) && LoansOk(s.loans, s.partitions)
  {
  }

  lemma GripsDiffer(s: Shared)
    ensures Different(Grips(s)) && |Grips(s)| == 2
    ensures Grips(s)[0] == Grip(s.next + 6, s.next) && Grips(s)[1] == Grip(s.next + 7, s.next + 1)
  {
  }

  lemma AloneKernel<S>(d: Driven<S>, grips: seq<Grip>, turns: seq<Turn>, j: nat)
    requires |d.kernels| == |grips| && j < |grips| && Lends(d.shared, grips[j]) && RangeOk(d.shared, grips[j].partition)
    requires Alone(d, grips, turns, j)
    ensures Drive(d, grips, turns).kernels[j] == Solo(d.kernels[j], WindowOf(d.shared, grips[j]), OwnTurns(turns, j)).kernel
  {
    hide Inv, Solo, Drive;
  }

  lemma Halves(s: Shared, t: Shared, h: Handle, boundary: nat)
    requires Inv(s) && Lookup(s, h).Ok? && boundary <= s.partitions[Lookup(s, h).value].length && t.allocations == s.allocations
    requires Lends(t, Grips(s)[0]) && Lends(t, Grips(s)[1]) && RangeOk(t, s.next) && RangeOk(t, s.next + 1)
    requires var part := s.partitions[Lookup(s, h).value];
             && t.partitions[s.next] == Partition(part.allocation, part.start, boundary, 1, Running(s.next + 6))
             && t.partitions[s.next + 1] == Partition(part.allocation, part.start + boundary, part.length - boundary, 1, Running(s.next + 7))
    ensures SnapshotOf(s, h).Ok? && boundary <= |SnapshotOf(s, h).value|
    ensures WindowOf(t, Grips(s)[0]) == SnapshotOf(s, h).value[..boundary] && WindowOf(t, Grips(s)[1]) == SnapshotOf(s, h).value[boundary..]
  {
    hide Inv;
    InRange(s, Lookup(s, h).value);
  }

  /* ---------- the rest of the buffer ---------- */

  lemma TurnOutside<S>(d: Driven<S>, grips: seq<Grip>, t: Turn, j: nat, i: nat)
    requires |d.kernels| == |grips| && t == Own(j) && j < |grips| && Grasps(d.shared, grips[j])
    requires var part := d.shared.partitions[grips[j].partition];
             i < |CellsOf(d.shared, part.allocation)| && !(part.start <= i < part.start + part.length)
    ensures var a := d.shared.partitions[grips[j].partition].allocation;
            var after := CellsOf(Advance(d, grips, t).shared, a);
            |after| == |CellsOf(d.shared, a)| && after[i] == CellsOf(d.shared, a)[i]
  {
    hide StepIn, Run, Step;
    var g := grips[j];
    RunNone(d.shared);
    if WriteOf(d.kernels[j], g) != [] {
      var e := WriteOf(d.kernels[j], g)[0];
      RunOne(d.shared, e);
      WriteLeaves(d.shared, g, e.index, e.value);
    }
  }

  ghost predicate AllOwn(turns: seq<Turn>, n: nat) {
    forall t :: t in turns ==> t.Own? && t.kernel < n
  }

  /** When only the kernels act, no cell outside their partitions changes. */
  lemma {:induction false} OnlyWindowsChange<S>(d: Driven<S>, grips: seq<Grip>, turns: seq<Turn>, a: AllocationId, i: nat)
    requires |d.kernels| == |grips| && Different(grips) && AllOwn(turns, |grips|) && Inv(d.shared) && i < |CellsOf(d.shared, a)|
    requires Valid(Drive(d, grips, turns).shared, a) && a in d.shared.allocations
    requires forall j :: 0 <= j < |grips| ==>
               && Lends(d.shared, grips[j])
               && var part := d.shared.partitions[grips[j].partition];
                  part.allocation == a && !(part.start <= i < part.start + part.length)
    ensures i < |CellsOf(Drive(d, grips, turns).shared, a)| && CellsOf(Drive(d, grips, turns).shared, a)[i] == CellsOf(d.shared, a)[i]
    decreases |turns|
  {
    hide Inv, Advance, Drive, Valid, Different, Alone, Grasps, CellsOf;
    if turns == [] {
      DriveNone(d, grips);
    } else {
      var rest, t := turns[..|turns| - 1], turns[|turns| - 1];
      var before := Drive(d, grips, rest);
      StepAfter(d, grips, turns);
      DrivenInv(d, grips, rest);
      assert t in turns;
      OwnIsForeign(rest, grips);
      WasStillValid(before, grips, t, d.shared, a);
      OnlyWindowsChange(d, grips, rest, a, i);
      InRange(d.shared, grips[t.kernel].partition);
      DrivenAlone(d, grips, rest, t.kernel);
      AloneLends(d, grips, rest, t.kernel);
      TurnOutside(before, grips, t, t.kernel, i);
    }
  }

  lemma OwnIsForeign(turns: seq<Turn>, grips: seq<Grip>)
    requires AllOwn(turns, |grips|)
    ensures AllForeign(turns, grips)
  {
  }
}
