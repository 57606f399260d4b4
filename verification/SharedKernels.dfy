/** Kernels on disjoint windows of one buffer: any interleaving of their reads and writes gives what
    each computes alone, and rejoined partitions hold exactly those results. */
module SharedKernels {
  import opened SharedProtocol
  import opened SharedOwnership

  datatype Option<+T> = None | Some(value: T)
  datatype Storage = I32 | F32 | F64

  /** What a kernel does next. */
  datatype Action<S> =
    | Read(index: int, resume: Cell -> S)
    | Write(index: int, value: Cell, next: S)
    | Done

  datatype Kernel<!S> = Kernel(storage: Storage, program: S -> Action<S>, status: Status<S>)
  datatype Status<S> = Active(state: S) | Finished(state: S) | Failed

  /** `sharedNumber`; a float cell is the bit pattern of a number in its storage. */
  function SharedNumber(storage: Storage, value: Cell): Option<Cell> {
    if storage == I32 && !(-0x8000_0000 <= value <= 0x7fff_ffff) then None else Some(value)
  }

  /** `sharedIndex`. */
  function SharedIndex(index: int, length: nat): (r: Option<nat>)
    ensures r.Some? <==> 0 <= index < length
    ensures r.Some? ==> r.value < length
  {
    if 0 <= index < length then Some(index) else None
  }

  datatype Effect<!S> = Effect(kernel: Kernel<S>, cells: seq<Cell>)

  /** One step of a kernel that sees the whole buffer through a window. */
  function StepIn<S>(k: Kernel<S>, cells: seq<Cell>, start: nat, length: nat): (r: Effect<S>)
    requires start + length <= |cells|
    ensures |r.cells| == |cells|
  {
    if !k.status.Active? then Effect(k, cells)
    else
      match k.program(k.status.state)
      case Done => Effect(k.(status := Finished(k.status.state)), cells)
      case Read(index, resume) =>
        (match SharedIndex(index, length)
         case None => Effect(k.(status := Failed), cells)
         case Some(i) => Effect(k.(status := Active(resume(cells[start + i]))), cells))
      case Write(index, value, next) =>
        (match SharedIndex(index, length)
         case None => Effect(k.(status := Failed), cells)
         case Some(i) =>
           match SharedNumber(k.storage, value)
           case None => Effect(k.(status := Failed), cells)
           case Some(number) => Effect(k.(status := Active(next)), cells[start + i := number]))
  }

  /** The kernel alone on a buffer of its own, for `n` steps. */
  function Solo<S>(k: Kernel<S>, cells: seq<Cell>, n: nat): (r: Effect<S>)
    ensures |r.cells| == |cells|
  {
    if n == 0 then Effect(k, cells)
    else
      var before := Solo(k, cells, n - 1);
      StepIn(before.kernel, before.cells, 0, |cells|)
  }

  datatype View = View(start: nat, length: nat)

  predicate Fit(views: seq<View>, size: nat) {
    forall j :: 0 <= j < |views| ==> views[j].start + views[j].length <= size
  }

  predicate Inside(v: View, i: nat) {
    v.start <= i < v.start + v.length
  }

  ghost predicate Apart(views: seq<View>) {
    forall j, k, i {:trigger Inside(views[j], i), Inside(views[k], i)} ::
      0 <= j < |views| && 0 <= k < |views| && Inside(views[j], i) && Inside(views[k], i) ==> j == k
  }

  datatype Machine<!S> = Machine(kernels: seq<Kernel<S>>, cells: seq<Cell>)

  /** The schedule says which kernel takes the next step; the last entry is the latest step. */
  function Interleave<S>(m: Machine<S>, views: seq<View>, schedule: seq<nat>): (r: Machine<S>)
    requires |m.kernels| == |views| && Fit(views, |m.cells|)
    ensures |r.kernels| == |m.kernels| && |r.cells| == |m.cells|
  {
    if schedule == [] then m
    else
      var before := Interleave(m, views, schedule[..|schedule| - 1]);
      var j := schedule[|schedule| - 1];
      if j >= |views| then before
      else
        var after := StepIn(before.kernels[j], before.cells, views[j].start, views[j].length);
        Machine(before.kernels[j := after.kernel], after.cells)
  }

  function Count(schedule: seq<nat>, j: nat): nat {
    if schedule == [] then 0
    else Count(schedule[..|schedule| - 1], j) + (if schedule[|schedule| - 1] == j then 1 else 0)
  }

  function Part(cells: seq<Cell>, v: View): (r: seq<Cell>)
    requires v.start + v.length <= |cells|
    ensures |r| == v.length
  {
    cells[v.start..v.start + v.length]
  }

  /** A step sees and changes only its window. */
  lemma StepIsLocal<S>(k: Kernel<S>, cells: seq<Cell>, v: View)
    requires v.start + v.length <= |cells|
    ensures var r, alone := StepIn(k, cells, v.start, v.length), StepIn(k, Part(cells, v), 0, v.length);
            && r.kernel == alone.kernel && Part(r.cells, v) == alone.cells
            && forall i {:trigger r.cells[i]} :: 0 <= i < |cells| && !Inside(v, i) ==> r.cells[i] == cells[i]
  {
  }

  lemma OtherWindow(cells: seq<Cell>, cells': seq<Cell>, views: seq<View>, j: nat, k: nat)
    requires |cells'| == |cells| && Fit(views, |cells|) && Apart(views) && j < |views| && k < |views| && j != k
    requires forall i {:trigger cells'[i]} :: 0 <= i < |cells| && !Inside(views[j], i) ==> cells'[i] == cells[i]
    ensures Part(cells', views[k]) == Part(cells, views[k])
  {
    forall i | views[k].start <= i < views[k].start + views[k].length ensures cells'[i] == cells[i] {
      assert Inside(views[k], i);
    }
  }

  /** Non-interference: whatever the schedule, each kernel ends as it does alone after its own number
      of steps, each window holds what that kernel computed alone, and nothing else changed. */
  lemma {:induction false} KernelsDoNotInterfere<S>(m: Machine<S>, views: seq<View>, schedule: seq<nat>, k: nat)
    requires |m.kernels| == |views| && Fit(views, |m.cells|) && Apart(views)
    ensures var r := Interleave(m, views, schedule);
            && (k < |views| ==>
                  var alone := Solo(m.kernels[k], Part(m.cells, views[k]), Count(schedule, k));
                  r.kernels[k] == alone.kernel && Part(r.cells, views[k]) == alone.cells)
            && forall i {:trigger r.cells[i]} ::
                 0 <= i < |m.cells| && (forall j :: 0 <= j < |views| ==> !Inside(views[j], i)) ==> r.cells[i] == m.cells[i]
  {
    hide StepIn, Inside;
    if schedule != [] {
      var rest, j := schedule[..|schedule| - 1], schedule[|schedule| - 1];
      KernelsDoNotInterfere(m, views, rest, k);
      var before := Interleave(m, views, rest);
      if j < |views| {
        StepIsLocal(before.kernels[j], before.cells, views[j]);
        if k < |views| && k != j {
          OtherWindow(before.cells, StepIn(before.kernels[j], before.cells, views[j].start, views[j].length).cells, views, j, k);
        }
      }
    }
  }

  /** A kernel's step is the runtime's write through the loan that covers the window. */
  lemma StepsThroughTheLoan<S>(s: Shared, l: LoanId, p: PartitionId, k: Kernel<S>)
    requires Inv(s) && l in s.loans && p in s.loans[l].partitions
    requires p in s.partitions && Valid(s, s.partitions[p].allocation)
    requires s.partitions[p].start + s.partitions[p].length <= |s.allocations[s.partitions[p].allocation].cells|
    requires k.status.Active?
    ensures var part, action := s.partitions[p], k.program(k.status.state);
            var cells := s.allocations[part.allocation].cells;
            StepIn(k, cells, part.start, part.length).cells ==
            (if action.Write? && SharedNumber(k.storage, action.value).Some?
             then WriteCell(s, l, p, action.index, action.value).allocations[part.allocation].cells else cells)
  {
    hide Inv;
  }
}
