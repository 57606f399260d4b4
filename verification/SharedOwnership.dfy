/** Every step keeps the ownership discipline, and what that means over whole runs. */
module SharedOwnership {
  import opened SharedProtocol

  /* ---------- handles and loans ---------- */

  /** Partitions only ever gain generations. */
  ghost predicate Later(partitions: map<PartitionId, Partition>, partitions': map<PartitionId, Partition>) {
    forall p :: p in partitions ==> p in partitions' && partitions[p].generation <= partitions'[p].generation
  }

  lemma LeasesLater(
    leases: map<Handle, Lease>, partitions: map<PartitionId, Partition>, witnesses: map<WitnessId, Rejoin>,
    partitions': map<PartitionId, Partition>, witnesses': map<WitnessId, Rejoin>)
    requires LeasesOk(leases, partitions, witnesses) && Later(partitions, partitions') && witnesses.Keys <= witnesses'.Keys
    ensures LeasesOk(leases, partitions', witnesses')
  {
  }

  lemma LeaseAdded(
    leases: map<Handle, Lease>, partitions: map<PartitionId, Partition>, witnesses: map<WitnessId, Rejoin>, h: Handle, lease: Lease)
    requires LeasesOk(leases, partitions, witnesses) && h !in leases && LeaseOk(lease, partitions, witnesses)
    requires lease.PartitionLease? ==> forall g :: g in leases ==> leases[g] != lease
    ensures LeasesOk(leases[h := lease], partitions, witnesses)
  {
  }

  /** A lease for a new partition or a new generation has not been granted before. */
  lemma NotGranted(leases: map<Handle, Lease>, partitions: map<PartitionId, Partition>, witnesses: map<WitnessId, Rejoin>,
                   p: PartitionId, generation: nat)
    requires LeasesOk(leases, partitions, witnesses)
    requires p !in partitions || partitions[p].generation < generation
    ensures forall g :: g in leases ==> leases[g] != PartitionLease(p, generation)
  {
    forall g | g in leases ensures leases[g] != PartitionLease(p, generation) {
      assert LeaseOk(leases[g], partitions, witnesses);
    }
  }

  lemma LoansKeep(loans: map<LoanId, Loan>, partitions: map<PartitionId, Partition>, partitions': map<PartitionId, Partition>)
    requires LoansOk(loans, partitions)
    requires forall p :: p in partitions && partitions[p].phase.Running? ==> p in partitions' && partitions'[p].phase == partitions[p].phase
    requires forall p :: p in partitions' && partitions'[p].phase.Running? ==> p in partitions && partitions'[p].phase == partitions[p].phase
    ensures LoansOk(loans, partitions')
  {
  }

  /* ---------- what moves no ownership ---------- */

  ghost predicate SameCells(s: Shared, t: Shared) {
    forall a :: a in s.allocations ==> a in t.allocations && |t.allocations[a].cells| == |s.allocations[a].cells|
  }

  /** At most the phases differ, between idle and running. */
  ghost predicate SameButPhase(partitions: map<PartitionId, Partition>, partitions': map<PartitionId, Partition>) {
    && partitions'.Keys == partitions.Keys
    && forall p :: p in partitions ==>
         || partitions'[p] == partitions[p]
         || (Current(partitions[p]) && Current(partitions'[p]) && partitions'[p] == partitions[p].(phase := partitions'[p].phase))
  }

  lemma TiledKeeps(s: Shared, t: Shared)
    requires Tiled(s) && SameCells(s, t) && SameButPhase(s.partitions, t.partitions)
    ensures Tiled(t)
  {
    forall p, a, i ensures Owns(t, p, a, i) <==> Owns(s, p, a, i) {
    }
    forall p, q, a, i | Owns(t, p, a, i) && Owns(t, q, a, i) ensures p == q {
      assert Owns(s, p, a, i) && Owns(s, q, a, i);
    }
    forall p, i: nat | p in t.partitions && i < |t.allocations[t.partitions[p].allocation].cells|
      ensures HasOwner(t, t.partitions[p].allocation, i)
    {
      assert HasOwner(s, s.partitions[p].allocation, i);
      var q :| q in s.partitions && Owns(s, q, s.partitions[p].allocation, i);
      assert Owns(t, q, t.partitions[p].allocation, i);
    }
  }

  lemma NestedKeeps(s: Shared, t: Shared)
    requires Nested(s) && t.witnesses == s.witnesses && SameButPhase(s.partitions, t.partitions)
    ensures Nested(t)
  {
    forall w | w in t.witnesses ensures WitnessOk(t.partitions, w, t.witnesses[w]) {
      assert WitnessOk(s.partitions, w, s.witnesses[w]);
    }
  }

  /* ---------- allocation ---------- */

  lemma AllocateTiles(s: Shared, cells: seq<Cell>)
    requires Tiled(s) && NamesOk(s)
    ensures Tiled(Allocate(s, cells))
  {
    var t := Allocate(s, cells);
    forall p: PartitionId, a: AllocationId, i: nat
      ensures Owns(t, p, a, i) <==> if p == s.next + 1 then a == s.next && i < |cells| else Owns(s, p, a, i)
    {
    }
    forall p, i: nat | p in t.partitions && t.partitions[p].allocation in t.allocations
                       && i < |t.allocations[t.partitions[p].allocation].cells|
      ensures HasOwner(t, t.partitions[p].allocation, i)
    {
      if p == s.next + 1 {
        assert Owns(t, p, s.next, i);
      } else {
        assert HasOwner(s, s.partitions[p].allocation, i);
        var q :| q in s.partitions && Owns(s, q, s.partitions[p].allocation, i);
        assert Owns(t, q, t.partitions[p].allocation, i);
      }
    }
    forall p, q, a, i | Owns(t, p, a, i) && Owns(t, q, a, i) ensures p == q {
      assert p != s.next + 1 ==> Owns(s, p, a, i) && s.partitions[p].allocation < s.next;
      assert q != s.next + 1 ==> Owns(s, q, a, i) && s.partitions[q].allocation < s.next;
    }
  }

  lemma NewPartition(s: Shared, t: Shared, p: PartitionId)
    requires Nested(s) && p !in s.partitions && t.witnesses == s.witnesses
    requires t.partitions.Keys == s.partitions.Keys + {p} && !t.partitions[p].phase.Split?
    requires forall q :: q in s.partitions ==> t.partitions[q] == s.partitions[q]
    ensures Nested(t)
  {
    forall w | w in t.witnesses ensures WitnessOk(t.partitions, w, t.witnesses[w]) {
      assert WitnessOk(s.partitions, w, s.witnesses[w]);
    }
  }

  lemma AllocateKeeps(s: Shared, cells: seq<Cell>)
    requires Inv(s)
    ensures Inv(Allocate(s, cells))
  {
    hide Tiled, Nested, LoansOk, LeasesOk;
    var t := Allocate(s, cells);
    AllocateTiles(s, cells);
    NewPartition(s, t, s.next + 1);
    LoansKeep(s.loans, s.partitions, t.partitions);
    NotGranted(s.leases, s.partitions, s.witnesses, s.next + 1, 1);
    LeasesLater(s.leases, s.partitions, s.witnesses, t.partitions, t.witnesses);
    LeaseAdded(s.leases, t.partitions, t.witnesses, s.next + 2, PartitionLease(s.next + 1, 1));
  }

  lemma AllocateAtomicKeeps(s: Shared, initial: Cell)
    requires Inv(s)
    ensures Inv(AllocateAtomic(s, initial))
  {
    hide Tiled, Nested, LoansOk, LeasesOk;
    var t := AllocateAtomic(s, initial);
    TiledKeeps(s, t);
    NestedKeeps(s, t);
    LeaseAdded(s.leases, s.partitions, s.witnesses, s.next + 1, AtomicLease(s.next));
  }

  /* ---------- split ---------- */

  ghost predicate Splittable(s: Shared, p: PartitionId, boundary: nat) {
    p in s.partitions && s.partitions[p].phase == Idle && boundary <= s.partitions[p].length
  }

  /** Who owns a cell after a split: one of the children where the parent did, else as before. */
  lemma SplitOwners(s: Shared, p: PartitionId, boundary: nat, q: PartitionId, a: AllocationId, i: nat)
    requires NamesOk(s) && Splittable(s, p, boundary)
    ensures var t := SplitInto(s, p, boundary);
            Owns(t, q, a, i) <==>
              if q == s.next then Owns(s, p, a, i) && i < s.partitions[p].start + boundary
              else if q == s.next + 1 then Owns(s, p, a, i) && i >= s.partitions[p].start + boundary
              else q != p && Owns(s, q, a, i)
  {
  }

  lemma SplitTiles(s: Shared, p: PartitionId, boundary: nat)
    requires Tiled(s) && NamesOk(s) && Splittable(s, p, boundary)
    ensures Tiled(SplitInto(s, p, boundary))
  {
    hide Owns;
    var t := SplitInto(s, p, boundary);
    var middle := s.partitions[p].start + boundary;
    forall q, r, a, i | Owns(t, q, a, i) && Owns(t, r, a, i) ensures q == r {
      SplitOwners(s, p, boundary, q, a, i);
      SplitOwners(s, p, boundary, r, a, i);
    }
    forall q, i: nat | q in t.partitions && t.partitions[q].allocation in t.allocations
                       && i < |t.allocations[t.partitions[q].allocation].cells|
      ensures HasOwner(t, t.partitions[q].allocation, i)
    {
      var a := t.partitions[q].allocation;
      var known := if q == s.next || q == s.next + 1 then p else q;
      assert s.partitions[known].allocation == a;
      assert HasOwner(s, s.partitions[known].allocation, i);
      var owner :| owner in s.partitions && Owns(s, owner, a, i);
      var heir := if owner != p then owner else if i < middle then s.next else s.next + 1;
      SplitOwners(s, p, boundary, heir, a, i);
      assert heir in t.partitions && Owns(t, heir, a, i);
    }
  }

  lemma SplitNests(s: Shared, p: PartitionId, boundary: nat)
    requires Nested(s) && NamesOk(s) && Splittable(s, p, boundary)
    ensures Nested(SplitInto(s, p, boundary))
  {
    var t := SplitInto(s, p, boundary);
    forall w | w in t.witnesses ensures WitnessOk(t.partitions, w, t.witnesses[w]) {
      if w != s.next + 2 {
        OldWitness(s, p, boundary, w);
      }
    }
    forall v, w, q | v in t.witnesses && w in t.witnesses && Child(t.witnesses[v], q) && Child(t.witnesses[w], q) ensures v == w {
      if v in s.witnesses { assert WitnessOk(s.partitions, v, s.witnesses[v]); }
      if w in s.witnesses { assert WitnessOk(s.partitions, w, s.witnesses[w]); }
      if v in s.witnesses && w in s.witnesses {
        assert Child(s.witnesses[v], q) && Child(s.witnesses[w], q);
      }
    }
  }

  lemma OldWitness(s: Shared, p: PartitionId, boundary: nat, w: WitnessId)
    requires WitnessesOk(s) && NamesOk(s) && Splittable(s, p, boundary) && w in s.witnesses
    ensures WitnessOk(SplitInto(s, p, boundary).partitions, w, s.witnesses[w])
  {
    assert WitnessOk(s.partitions, w, s.witnesses[w]);
  }

  lemma SplitGrants(s: Shared, p: PartitionId, boundary: nat)
    requires LeasesOk(s.leases, s.partitions, s.witnesses) && NamesOk(s) && Splittable(s, p, boundary)
    ensures var t := SplitInto(s, p, boundary); LeasesOk(t.leases, t.partitions, t.witnesses)
  {
    hide LeasesOk;
    var t := SplitInto(s, p, boundary);
    NotGranted(s.leases, s.partitions, s.witnesses, s.next, 1);
    NotGranted(s.leases, s.partitions, s.witnesses, s.next + 1, 1);
    LeasesLater(s.leases, s.partitions, s.witnesses, t.partitions, t.witnesses);
    LeaseAdded(s.leases, t.partitions, t.witnesses, s.next + 3, PartitionLease(s.next, 1));
    LeaseAdded(s.leases[s.next + 3 := PartitionLease(s.next, 1)], t.partitions, t.witnesses, s.next + 4, PartitionLease(s.next + 1, 1));
    LeaseAdded(s.leases[s.next + 3 := PartitionLease(s.next, 1)][s.next + 4 := PartitionLease(s.next + 1, 1)],
               t.partitions, t.witnesses, s.next + 5, RejoinLease(s.next + 2));
  }

  lemma SplitKeeps(s: Shared, p: PartitionId, boundary: nat)
    requires Inv(s) && Splittable(s, p, boundary)
    ensures Inv(SplitInto(s, p, boundary))
  {
    hide Tiled, Nested, LoansOk, LeasesOk;
    SplitTiles(s, p, boundary);
    SplitNests(s, p, boundary);
    SplitGrants(s, p, boundary);
    LoansKeep(s.loans, s.partitions, SplitInto(s, p, boundary).partitions);
  }

  /* ---------- join ---------- */

  ghost predicate Joinable(s: Shared, w: WitnessId) {
    && Known(s, w) && !s.witnesses[w].consumed && s.partitions[s.witnesses[w].parent].phase == Split(w)
    && s.partitions[s.witnesses[w].left].phase == Idle && s.partitions[s.witnesses[w].right].phase == Idle
  }

  /** Who owns a cell after a join: the parent where a child did, else as before. */
  lemma JoinOwners(s: Shared, w: WitnessId, granting: bool, q: PartitionId, a: AllocationId, i: nat)
    requires WitnessesOk(s) && Joinable(s, w)
    ensures var t, rejoin := JoinBack(s, w, granting), s.witnesses[w];
            Owns(t, q, a, i) <==>
              if q == rejoin.parent then Owns(s, rejoin.left, a, i) || Owns(s, rejoin.right, a, i)
              else q != rejoin.left && q != rejoin.right && Owns(s, q, a, i)
  {
    assert WitnessOk(s.partitions, w, s.witnesses[w]);
  }

  lemma JoinTiles(s: Shared, w: WitnessId, granting: bool)
    requires Tiled(s) && WitnessesOk(s) && Joinable(s, w)
    ensures Tiled(JoinBack(s, w, granting))
  {
    hide Owns;
    var t, rejoin := JoinBack(s, w, granting), s.witnesses[w];
    assert WitnessOk(s.partitions, w, rejoin);
    forall q, r, a, i | Owns(t, q, a, i) && Owns(t, r, a, i) ensures q == r {
      JoinOwners(s, w, granting, q, a, i);
      JoinOwners(s, w, granting, r, a, i);
    }
    forall q, i: nat | q in t.partitions && t.partitions[q].allocation in t.allocations
                       && i < |t.allocations[t.partitions[q].allocation].cells|
      ensures HasOwner(t, t.partitions[q].allocation, i)
    {
      var a := t.partitions[q].allocation;
      assert HasOwner(s, s.partitions[q].allocation, i);
      var owner :| owner in s.partitions && Owns(s, owner, a, i);
      var heir := if owner == rejoin.left || owner == rejoin.right then rejoin.parent else owner;
      JoinParentIdle(s, w, a, i);
      JoinOwners(s, w, granting, heir, a, i);
      assert heir in t.partitions && Owns(t, heir, a, i);
    }
  }

  lemma JoinParentIdle(s: Shared, w: WitnessId, a: AllocationId, i: nat)
    requires Joinable(s, w)
    ensures !Owns(s, s.witnesses[w].parent, a, i)
  {
  }

  /** A join moves three partitions and one witness. */
  lemma JoinMoves(s: Shared, w: WitnessId, granting: bool)
    requires Nested(s) && Joinable(s, w)
    ensures var t, rejoin := JoinBack(s, w, granting), s.witnesses[w];
            && t.partitions.Keys == s.partitions.Keys
            && t.partitions[rejoin.parent] ==
               s.partitions[rejoin.parent].(generation := s.partitions[rejoin.parent].generation + 1, phase := Idle)
            && t.partitions[rejoin.left] == s.partitions[rejoin.left].(phase := Joined)
            && t.partitions[rejoin.right] == s.partitions[rejoin.right].(phase := Joined)
            && (forall p :: p in s.partitions && p !in {rejoin.parent, rejoin.left, rejoin.right} ==> t.partitions[p] == s.partitions[p])
            && t.witnesses == s.witnesses[w := rejoin.(consumed := true)]
            && WitnessOk(s.partitions, w, rejoin)
  {
    hide ChildrenOnce;
    assert WitnessOk(s.partitions, w, s.witnesses[w]);
  }

  lemma JoinNests(s: Shared, w: WitnessId, granting: bool)
    requires Nested(s) && Joinable(s, w)
    ensures Nested(JoinBack(s, w, granting))
  {
    var t, rejoin := JoinBack(s, w, granting), s.witnesses[w];
    assert WitnessOk(s.partitions, w, rejoin);
    forall v | v in t.witnesses ensures WitnessOk(t.partitions, v, t.witnesses[v]) {
      JoinOtherWitness(s, w, granting, v);
    }
    forall u, v, q | u in t.witnesses && v in t.witnesses && Child(t.witnesses[u], q) && Child(t.witnesses[v], q) ensures u == v {
      assert Child(s.witnesses[u], q) && Child(s.witnesses[v], q);
    }
  }

  lemma JoinOtherWitness(s: Shared, w: WitnessId, granting: bool, v: WitnessId)
    requires Nested(s) && Joinable(s, w) && v in s.witnesses
    ensures WitnessOk(JoinBack(s, w, granting).partitions, v, JoinBack(s, w, granting).witnesses[v])
  {
    hide ChildrenOnce, JoinBack;
    var rejoin := s.witnesses[w];
    JoinMoves(s, w, granting);
    assert WitnessOk(s.partitions, v, s.witnesses[v]);
    if v != w {
      OtherChildren(s, v, w, rejoin.left);
      OtherChildren(s, v, w, rejoin.right);
    }
  }

  lemma OtherChildren(s: Shared, v: WitnessId, w: WitnessId, p: PartitionId)
    requires ChildrenOnce(s) && v in s.witnesses && w in s.witnesses && v != w && Child(s.witnesses[w], p)
    ensures s.witnesses[v].left != p && s.witnesses[v].right != p
  {
    assert !Child(s.witnesses[v], p);
  }

  lemma JoinGrants(s: Shared, w: WitnessId, granting: bool)
    requires LeasesOk(s.leases, s.partitions, s.witnesses) && Nested(s) && NamesOk(s) && Joinable(s, w)
    ensures var t := JoinBack(s, w, granting); LeasesOk(t.leases, t.partitions, t.witnesses)
  {
    hide LeasesOk, Nested, WitnessOk, JoinBack;
    var t, parent := JoinBack(s, w, granting), s.witnesses[w].parent;
    JoinMoves(s, w, granting);
    JoinLeases(s, w, granting);
    LeasesLater(s.leases, s.partitions, s.witnesses, t.partitions, t.witnesses);
    NotGranted(s.leases, s.partitions, s.witnesses, parent, s.partitions[parent].generation + 1);
    if granting {
      LeaseAdded(s.leases, t.partitions, t.witnesses, s.next, PartitionLease(parent, s.partitions[parent].generation + 1));
    }
  }

  lemma JoinLeases(s: Shared, w: WitnessId, granting: bool)
    requires Joinable(s, w)
    ensures var parent := s.witnesses[w].parent;
            JoinBack(s, w, granting).leases ==
            if granting then s.leases[s.next := PartitionLease(parent, s.partitions[parent].generation + 1)] else s.leases
  {
  }

  lemma JoinLoans(s: Shared, w: WitnessId, granting: bool)
    requires LoansOk(s.loans, s.partitions) && Nested(s) && Joinable(s, w)
    ensures LoansOk(s.loans, JoinBack(s, w, granting).partitions)
  {
    hide LoansOk, Nested, WitnessOk, JoinBack;
    JoinMoves(s, w, granting);
    LoansKeep(s.loans, s.partitions, JoinBack(s, w, granting).partitions);
  }

  lemma JoinNames(s: Shared, w: WitnessId, granting: bool)
    requires NamesOk(s) && Joinable(s, w)
    ensures NamesOk(JoinBack(s, w, granting))
  {
    var t := JoinBack(s, w, granting);
    assert t.partitions.Keys == s.partitions.Keys && t.witnesses.Keys == s.witnesses.Keys;
  }

  lemma JoinKeeps(s: Shared, w: WitnessId, granting: bool)
    requires Inv(s) && Joinable(s, w)
    ensures Inv(JoinBack(s, w, granting))
  {
    hide RangesOk, Exclusive, Covered, WitnessesOk, ChildrenOnce, LoansOk, LeasesOk, NamesOk, Joinable;
    JoinTiles(s, w, granting);
    JoinNests(s, w, granting);
    JoinGrants(s, w, granting);
    JoinLoans(s, w, granting);
    JoinNames(s, w, granting);
    JoinSame(s, w, granting);
  }

  lemma JoinSame(s: Shared, w: WitnessId, granting: bool)
    requires Joinable(s, w)
    ensures JoinBack(s, w, granting).loans == s.loans && JoinBack(s, w, granting).allocations == s.allocations
  {
  }

  /* ---------- runs ---------- */

  ghost predicate Claimable(s: Shared, claimed: set<PartitionId>) {
    forall p :: p in claimed ==> p in s.partitions && s.partitions[p].phase == Idle
  }

  lemma ClaimKeeps(s: Shared, claimed: set<PartitionId>)
    requires Inv(s) && Claimable(s, claimed)
    ensures Inv(Claim(s, claimed))
  {
    hide Tiled, Nested, LeasesOk, LoansOk;
    var t := Claim(s, claimed);
    TiledKeeps(s, t);
    NestedKeeps(s, t);
    LeasesLater(s.leases, s.partitions, s.witnesses, t.partitions, t.witnesses);
    ClaimLoans(s, claimed);
  }

  lemma ClaimLoans(s: Shared, claimed: set<PartitionId>)
    requires LoansOk(s.loans, s.partitions) && NamesOk(s) && Claimable(s, claimed)
    ensures LoansOk(Claim(s, claimed).loans, Claim(s, claimed).partitions)
  {
  }

  lemma EndRunKeeps(s: Shared, l: LoanId, failed: bool)
    requires Inv(s) && l in s.loans
    ensures Inv(EndRun(s, l, failed))
  {
    hide Tiled, Nested, LeasesOk, LoansOk;
    var t := EndRun(s, l, failed);
    EndRunLoans(s, l, failed);
    TiledKeeps(s, t);
    NestedKeeps(s, t);
    LeasesLater(s.leases, s.partitions, s.witnesses, t.partitions, t.witnesses);
  }

  lemma EndRunLoans(s: Shared, l: LoanId, failed: bool)
    requires LoansOk(s.loans, s.partitions) && l in s.loans
    ensures LoansOk(EndRun(s, l, failed).loans, EndRun(s, l, failed).partitions)
    ensures SameButPhase(s.partitions, EndRun(s, l, failed).partitions) && SameCells(s, EndRun(s, l, failed))
  {
  }

  /** Steps that touch neither partitions nor witnesses. */
  lemma SidewaysKeeps(s: Shared, t: Shared)
    requires Inv(s) && SameCells(s, t) && t.partitions == s.partitions && t.witnesses == s.witnesses
    requires t.allocations.Keys == s.allocations.Keys && t.next == s.next
    requires t.leases.Keys <= s.leases.Keys && (forall h :: h in t.leases ==> t.leases[h] == s.leases[h])
    requires t.loans.Keys == s.loans.Keys && (forall l :: l in s.loans ==> t.loans[l].partitions == s.loans[l].partitions)
    ensures Inv(t)
  {
    hide Tiled, Nested;
    TiledKeeps(s, t);
    NestedKeeps(s, t);
  }

  lemma LookupGives(s: Shared, h: Handle)
    ensures Lookup(s, h).Ok? ==> Splittable(s, Lookup(s, h).value, 0)
  {
  }

  lemma JoinGives(s: Shared, h: Handle)
    ensures JoinFault(s, h).Ok? ==> Joinable(s, JoinFault(s, h).value)
  {
  }

  lemma StepKeeps(s: Shared, e: Event)
    requires Inv(s)
    ensures Inv(Step(s, e))
  {
    hide Inv, Allocate, AllocateAtomic, SplitInto, JoinBack, Claim, EndRun, Lookup, JoinFault, Joinable;
    match e
    case Allocating(cells) => AllocateKeeps(s, cells);
    case AllocatingAtomic(initial) => AllocateAtomicKeeps(s, initial);
    case Splitting(h, boundary, granting) =>
      LookupGives(s, h);
      if SplitFault(s, h, boundary, granting).Ok? { SplitKeeps(s, Lookup(s, h).value, boundary); }
    case Joining(h, granting) =>
      JoinGives(s, h);
      if JoinFault(s, h).Ok? { JoinKeeps(s, JoinFault(s, h).value, granting); }
    case Starting(handles, within) =>
      if Borrowed(s, handles, within).Ok? { ClaimKeeps(s, Borrowed(s, handles, within).value); }
    case Ending(l, failed) => if l in s.loans { EndRunKeeps(s, l, failed); }
    case _ => SidewaysKeeps(s, Step(s, e));
  }

  lemma {:induction false} RunKeeps(events: seq<Event>)
    ensures Inv(Run(EMPTY, events))
  {
    hide Inv, Step;
    if events == [] {
      EmptyOk();
    } else {
      RunKeeps(events[..|events| - 1]);
      StepKeeps(Run(EMPTY, events[..|events| - 1]), events[|events| - 1]);
    }
  }

  lemma EmptyOk()
    ensures Inv(EMPTY)
  {
  }

  /* ---------- what holds in every reachable state ---------- */

  /** The unsplit, unjoined partitions tile the allocation: each cell has exactly one owner. */
  lemma EveryCellHasOneOwner(events: seq<Event>, p: PartitionId, i: nat)
    requires var s := Run(EMPTY, events);
             p in s.partitions && s.partitions[p].allocation in s.allocations
             && i < |s.allocations[s.partitions[p].allocation].cells|
    ensures var s := Run(EMPTY, events);
            var a := s.partitions[p].allocation;
            exists q :: Owns(s, q, a, i) && forall r :: Owns(s, r, a, i) ==> r == q
  {
    RunKeeps(events);
    var s := Run(EMPTY, events);
    assert HasOwner(s, s.partitions[p].allocation, i);
    var q :| q in s.partitions && Owns(s, q, s.partitions[p].allocation, i);
    forall r | Owns(s, r, s.partitions[p].allocation, i) ensures r == q {
    }
  }

  /** Two handles never authorise the same cell, nor does a handle reach a running kernel's cells. */
  lemma AuthorityIsExclusive(events: seq<Event>, g: Handle, h: Handle, a: AllocationId, i: nat)
    requires g != h && Lookup(Run(EMPTY, events), g).Ok?
    ensures var s, p := Run(EMPTY, events), Lookup(Run(EMPTY, events), g).value;
            && s.partitions[p].phase == Idle
            && (Lookup(s, h).Ok? ==> Lookup(s, h).value != p && !(Owns(s, p, a, i) && Owns(s, Lookup(s, h).value, a, i)))
            && (forall l, q :: l in s.loans && q in s.loans[l].partitions ==> q != p && !(Owns(s, p, a, i) && Owns(s, q, a, i)))
  {
    RunKeeps(events);
    hide Tiled, Nested, Run;
    var s, p := Run(EMPTY, events), Lookup(Run(EMPTY, events), g).value;
    if Lookup(s, h).Ok? {
      assert s.leases[g] != s.leases[h];
      NotBoth(s, p, Lookup(s, h).value, a, i);
    }
    forall l, q | l in s.loans && q in s.loans[l].partitions ensures q != p && !(Owns(s, p, a, i) && Owns(s, q, a, i)) {
      assert s.partitions[q].phase == Running(l);
      NotBoth(s, p, q, a, i);
    }
  }

  /** Kernels that run at the same time hold different cells, and the end of a run always finds its
      partitions still lent to it. */
  lemma KernelsHoldDifferentCells(events: seq<Event>, l: LoanId, m: LoanId, p: PartitionId, q: PartitionId, a: AllocationId, i: nat)
    requires var s := Run(EMPTY, events);
             l in s.loans && m in s.loans && p in s.loans[l].partitions && q in s.loans[m].partitions && l != m
    ensures var s := Run(EMPTY, events);
            && p in s.partitions && s.partitions[p].phase == Running(l)
            && q in s.partitions && s.partitions[q].phase == Running(m)
            && !(Owns(s, p, a, i) && Owns(s, q, a, i))
  {
    RunKeeps(events);
    hide Tiled, Nested, LeasesOk;
    var s := Run(EMPTY, events);
    assert p != q;
    NotBoth(s, p, q, a, i);
  }

  lemma NotBoth(s: Shared, p: PartitionId, q: PartitionId, a: AllocationId, i: nat)
    requires Tiled(s) && p != q
    ensures !(Owns(s, p, a, i) && Owns(s, q, a, i))
  {
  }

  /* ---------- what never comes back ---------- */

  /** The handle is dead: released, for an earlier generation, for a joined child, or its allocation
      is no longer valid. */
  ghost predicate Dead(s: Shared, h: Handle) {
    h < s.next &&
    (h in s.leases && s.leases[h].PartitionLease? ==>
       && s.leases[h].partition in s.partitions
       && var p := s.partitions[s.leases[h].partition];
          p.phase == Joined || s.leases[h].generation < p.generation
          || (p.allocation in s.allocations && !s.allocations[p.allocation].valid))
  }

  lemma DeadIsRefused(s: Shared, h: Handle)
    requires Dead(s, h)
    ensures Lookup(s, h).Err?
  {
  }

  /** The partition is no younger, and joined or in an invalid allocation if it was. */
  ghost predicate Older(s: Shared, t: Shared, p: PartitionId) {
    p in s.partitions ==>
      && p in t.partitions && s.partitions[p].generation <= t.partitions[p].generation
      && t.partitions[p].allocation == s.partitions[p].allocation
      && (s.partitions[p].phase == Joined ==> t.partitions[p].phase == Joined)
      && (s.partitions[p].allocation in s.allocations && !s.allocations[s.partitions[p].allocation].valid ==>
            s.partitions[p].allocation in t.allocations && !t.allocations[s.partitions[p].allocation].valid)
  }

  lemma SplitOlder(s: Shared, q: PartitionId, boundary: nat, p: PartitionId, h: Handle)
    requires NamesOk(s) && Splittable(s, q, boundary) && h < s.next
    ensures Older(s, SplitInto(s, q, boundary), p)
    ensures h in SplitInto(s, q, boundary).leases ==> h in s.leases && SplitInto(s, q, boundary).leases[h] == s.leases[h]
  {
  }

  lemma JoinOlder(s: Shared, w: WitnessId, granting: bool, p: PartitionId, h: Handle)
    requires WitnessesOk(s) && NamesOk(s) && Joinable(s, w) && h < s.next
    ensures Older(s, JoinBack(s, w, granting), p)
    ensures h in JoinBack(s, w, granting).leases ==> h in s.leases && JoinBack(s, w, granting).leases[h] == s.leases[h]
  {
    assert WitnessOk(s.partitions, w, s.witnesses[w]);
  }

  lemma EndOlder(s: Shared, l: LoanId, failed: bool, p: PartitionId)
    requires LoansOk(s.loans, s.partitions) && l in s.loans
    ensures Older(s, EndRun(s, l, failed), p)
  {
  }

  lemma StepOlder(s: Shared, e: Event, p: PartitionId, h: Handle)
    requires Inv(s) && h < s.next
    ensures Older(s, Step(s, e), p) && Step(s, e).next >= s.next
    ensures h in Step(s, e).leases ==> h in s.leases && Step(s, e).leases[h] == s.leases[h]
  {
    hide Tiled, WitnessOk, ChildrenOnce, LeasesOk, LoansOk, SplitInto, JoinBack, EndRun, Lookup, JoinFault, Joinable, Borrowed, SplitFault, Known;
    match e
    case Splitting(q, boundary, granting) =>
      if SplitFault(s, q, boundary, granting).Ok? {
        SplitFits(s, q, boundary, granting);
        SplitOlder(s, Lookup(s, q).value, boundary, p, h);
      }
    case Joining(q, granting) =>
      JoinGives(s, q);
      if JoinFault(s, q).Ok? { JoinOlder(s, JoinFault(s, q).value, granting, p, h); JoinNext(s, JoinFault(s, q).value, granting); }
    case Starting(handles, within) =>
    case Ending(l, failed) => if l in s.loans { EndOlder(s, l, failed, p); EndNext(s, l, failed); }
    case _ =>
  }

  lemma SplitFits(s: Shared, h: Handle, boundary: int, granting: bool)
    requires SplitFault(s, h, boundary, granting).Ok?
    ensures Lookup(s, h).Ok? && 0 <= boundary && Splittable(s, Lookup(s, h).value, boundary)
    ensures SplitInto(s, Lookup(s, h).value, boundary).next >= s.next
  {
  }

  lemma JoinNext(s: Shared, w: WitnessId, granting: bool)
    requires Joinable(s, w)
    ensures JoinBack(s, w, granting).next >= s.next
  {
  }

  lemma EndNext(s: Shared, l: LoanId, failed: bool)
    requires l in s.loans
    ensures EndRun(s, l, failed).next == s.next && EndRun(s, l, failed).leases == s.leases
  {
  }

  /** A dead handle is refused for ever. */
  lemma {:induction false} DeadForEver(s: Shared, events: seq<Event>, h: Handle)
    requires Inv(s) && Dead(s, h)
    ensures Inv(Run(s, events)) && Dead(Run(s, events), h) && Lookup(Run(s, events), h).Err?
    decreases |events|
  {
    hide Inv, Step, Lookup, Older;
    if events == [] {
      DeadIsRefused(s, h);
    } else {
      var before, e := events[..|events| - 1], events[|events| - 1];
      DeadForEver(s, before, h);
      var t := Run(s, before);
      StepKeeps(t, e);
      StillDead(t, e, h);
      DeadIsRefused(Run(s, events), h);
    }
  }

  lemma StillDead(s: Shared, e: Event, h: Handle)
    requires Inv(s) && Dead(s, h)
    ensures Dead(Step(s, e), h)
  {
    hide Inv, Step;
    if h in s.leases && s.leases[h].PartitionLease? {
      StepOlder(s, e, s.leases[h].partition, h);
    } else {
      StepOlder(s, e, 0, h);
    }
  }

  /** Joining ends every handle of both children and every earlier handle of the parent; a failed run
      after admission ends every handle into the allocations it was lent. */
  lemma JoinEndsHandles(s: Shared, w: WitnessId, granting: bool, h: Handle)
    requires Inv(s) && Joinable(s, w) && h in s.leases && s.leases[h].PartitionLease?
    requires s.leases[h].partition in {s.witnesses[w].parent, s.witnesses[w].left, s.witnesses[w].right}
    ensures Dead(JoinBack(s, w, granting), h)
  {
    assert WitnessOk(s.partitions, w, s.witnesses[w]);
    assert LeaseOk(s.leases[h], s.partitions, s.witnesses);
  }

  lemma FailureEndsHandles(s: Shared, l: LoanId, p: PartitionId, h: Handle)
    requires Inv(s) && l in s.loans && s.loans[l].admitted && p in s.loans[l].partitions
    requires h in s.leases && s.leases[h].PartitionLease? && s.leases[h].partition in s.partitions
    requires s.partitions[s.leases[h].partition].allocation == s.partitions[p].allocation
    ensures Dead(EndRun(s, l, true), h)
  {
    hide Exclusive, Covered, Nested, LeasesOk;
    assert s.partitions[p].phase == Running(l);
    assert s.partitions[p].allocation in s.allocations;
  }

  /* ---------- who changes cells ---------- */

  /** A cell changes only by a write of the kernel to which its partition is lent. */
  lemma OnlyTheBorrowerWrites(s: Shared, e: Event, a: AllocationId, i: nat)
    requires Inv(s) && a in s.allocations && i < |s.allocations[a].cells|
    ensures var t := Step(s, e);
            && a in t.allocations && |t.allocations[a].cells| == |s.allocations[a].cells|
            && (t.allocations[a].cells[i] != s.allocations[a].cells[i] ==>
                  e.Writing? && e.loan in s.loans && e.partition in s.loans[e.loan].partitions
                  && Owns(s, e.partition, a, i) && s.partitions[e.partition].phase == Running(e.loan))
  {
    hide Exclusive, Covered, Nested, LeasesOk, SplitInto, JoinBack, Lookup, JoinFault, Joinable, Borrowed, SplitFault, Known;
    match e
    case Splitting(h, boundary, granting) =>
      if SplitFault(s, h, boundary, granting).Ok? { SplitCells(s, h, boundary, granting); }
    case Joining(h, granting) =>
      JoinGives(s, h);
      if JoinFault(s, h).Ok? { JoinSame(s, JoinFault(s, h).value, granting); }
    case _ =>
  }

  lemma SplitCells(s: Shared, h: Handle, boundary: int, granting: bool)
    requires SplitFault(s, h, boundary, granting).Ok?
    ensures Lookup(s, h).Ok? && 0 <= boundary && Splittable(s, Lookup(s, h).value, boundary)
    ensures SplitInto(s, Lookup(s, h).value, boundary).allocations == s.allocations
  {
  }
}
