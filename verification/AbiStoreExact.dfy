/** Memory shows what was stored for straight types only. */
module AbiStoreExacts {
  import opened AbiLayouts
  import opened AbiLanes
  import opened AbiMarshals
  import opened AbiStoreLoads
  import opened AbiStoreOrders

  /* ---------- types with a meaning ---------- */

  ghost predicate DistinctCases(cases: seq<Case>) {
    forall i, j :: 0 <= i < j < |cases| ==> cases[i].name != cases[j].name
  }

  /** Names are distinct, every variant has a case, and its discriminants fit four bytes. */
  ghost predicate Proper(t: Type)
    decreases Depth(t)
  {
    match t
    case Array(element) => Proper(element)
    case Sealed(_, inner) => Proper(inner)
    case Record(fields) => DistinctNames(fields) && forall f :: f in fields ==> Proper(f.of)
    case Variant(cases) =>
      && DistinctCases(cases) && 0 < |cases| <= 0x1_0000_0000
      && forall c :: c in cases && c.payload.Some? ==> Proper(c.payload.value)
    case _ => true
  }

  lemma {:induction false} ProperIsDistinct(t: Type)
    requires Proper(t)
    ensures FieldsDistinct(t)
    decreases Depth(t)
  {
    match t
    case Sealed(_, inner) => ProperIsDistinct(inner);
    case Record(fields) =>
      forall f | f in fields ensures FieldsDistinct(f.of) { ProperIsDistinct(f.of); }
    case Variant(cases) =>
      forall c | c in cases && c.payload.Some? ensures FieldsDistinct(c.payload.value) { ProperIsDistinct(c.payload.value); }
    case _ =>
  }

  lemma ProperFields(fields: seq<Field>)
    requires Proper(Record(fields))
    ensures DistinctNames(fields) && forall f :: f in fields ==> Proper(f.of)
  {
  }

  lemma ProperCases(cases: seq<Case>)
    requires Proper(Variant(cases))
    ensures DistinctCases(cases) && 0 < |cases| <= 0x1_0000_0000
    ensures forall c :: c in cases && c.payload.Some? ==> Proper(c.payload.value)
  {
  }

  /* ---------- the law ---------- */

  ghost predicate ReadsBack(p: Platform, t: Type, lanes: seq<Lane>, at: nat, bytes: seq<Byte>, other: seq<Byte>) {
    var stored := WriteFlat(t, lanes, at, bytes);
    stored.Ok? && (Agree(stored.value, other, at, at + Size(t)) ==> ReadMemory(p, t, other, at) == Lift(p, t, lanes, other))
  }

  /** Whatever lifts can be stored, and memory then shows it. */
  ghost predicate MemoryShows(t: Type) {
    forall p, lanes, at: nat, bytes, other {:trigger ReadsBack(p, t, lanes, at, bytes, other)} ::
      at + Size(t) <= |bytes| && Lift(p, t, lanes, other).Ok? ==> ReadsBack(p, t, lanes, at, bytes, other)
  }

  lemma StraightReadsBack(p: Platform, t: Type, lanes: seq<Lane>, at: nat, bytes: seq<Byte>, other: seq<Byte>)
    requires FieldsDistinct(t) && Straight(t) && at + Size(t) <= |bytes| && Lift(p, t, lanes, other).Ok?
    ensures ReadsBack(p, t, lanes, at, bytes, other)
  {
    hide Straight, FieldsDistinct, Lift, LiftStored, WriteFlat, ReadMemory, Agree;
    StraightLifts(p, t, lanes, other);
    Storable(p, t, lanes, at, bytes, other);
    if Agree(WriteFlat(t, lanes, at, bytes).value, other, at, at + Size(t)) {
      StoreThenLoad(p, t, lanes, at, bytes, other);
    }
  }

  /* ---------- a host and a memory that show differences ---------- */

  function Units(bytes: seq<Byte>): (text: Text)
    ensures |text| == |bytes|
  {
    seq(|bytes|, i requires 0 <= i < |bytes| => bytes[i])
  }

  /** Each byte decodes to a character of its own. */
  const HOST: Platform := Platform((h, n, a) => Refusal, text => [], bytes => Some(Units(bytes)))

  /** Memory that begins with zeros. */
  ghost predicate Zeroed(b: seq<Byte>, k: nat) {
    0 < k <= |b| && forall i :: 0 <= i < k ==> b[i] == 0
  }

  lemma {:induction false} DecodeZeros(s: seq<Byte>)
    requires forall i :: 0 <= i < |s| ==> s[i] == 0
    ensures Decode(s) == 0
  {
    if s != [] { DecodeZeros(s[1..]); }
  }

  lemma GetZero(b: seq<Byte>, k: nat, at: nat, n: nat)
    requires Zeroed(b, k) && at + n <= k
    ensures Get(b, at, n) == Ok(0)
  {
    DecodeZeros(b[at..at + n]);
  }

  /** Zeros show a value of every type. */
  lemma {:induction false} ReadsZeros(t: Type, b: seq<Byte>, at: nat, k: nat)
    requires Proper(t) && Zeroed(b, k) && at + Size(t) <= k
    ensures ReadMemory(HOST, t, b, at).Ok?
    decreases Depth(t), 1, 0
  {
    hide Zeroed, Get, Decode, Slots, Block, ReadAll;
    match t
    case Sealed(_, inner) => ReadsZeros(inner, b, at, k);
    case Record(fields) => ReadsZeroRecord(fields, b, at, k);
    case Variant(cases) => ReadsZeroVariant(cases, b, at, k);
    case _ => ReadsZeroScalar(t, b, at, k);
  }

  lemma ReadsZeroScalar(t: Type, b: seq<Byte>, at: nat, k: nat)
    requires !t.Sealed? && !t.Record? && !t.Variant? && Zeroed(b, k) && at + Size(t) <= k
    ensures ReadMemory(HOST, t, b, at).Ok?
  {
    hide Zeroed, Get, Decode, ReadArray;
    if t.TextType? || t.Array? {
      GetZero(b, k, at, 4);
      GetZero(b, k, at + 4, 4);
      if t.Array? { ReadsNone(t.element, b); }
    } else if !t.Unit? {
      GetZero(b, k, at, Size(t));
    }
  }

  lemma ReadsZeroRecord(fields: seq<Field>, b: seq<Byte>, at: nat, k: nat)
    requires Proper(Record(fields)) && Zeroed(b, k) && at + Size(Record(fields)) <= k
    ensures ReadMemory(HOST, Record(fields), b, at).Ok?
    decreases Depth(Record(fields)), 0, 0
  {
    hide Zeroed, Get, Decode, Slots, Block, ReadAll, SortFields, Collect;
    var types := FieldTypes(SortFields(fields));
    RecordDepth(fields, SortFields(fields));
    BlockHolds(types, at);
    ProperFields(fields);
    forall i | 0 <= i < |types| ensures Proper(types[i]) {
      assert SortFields(fields)[i] in SortFields(fields);
    }
    ReadsZerosAll(types, Slots(types, at, 0), b, at, at + Block(types).size, k);
  }

  lemma ReadsNone(element: Type, b: seq<Byte>)
    ensures ReadArray(HOST, element, b, 0, 0) == Ok(List([]))
  {
  }

  lemma ReadsZeroVariant(cases: seq<Case>, b: seq<Byte>, at: nat, k: nat)
    requires Proper(Variant(cases)) && Zeroed(b, k) && at + Size(Variant(cases)) <= k
    ensures ReadVariant(HOST, cases, b, at).Ok?
    decreases Depth(Variant(cases)), 0, 0
  {
    hide Zeroed, Get, Decode, LayoutOf, PayloadOffset, DiscriminantSize, PayloadTypes;
    ProperCases(cases);
    PayloadFits(cases, 0);
    GetZero(b, k, at, DiscriminantSize(|cases|));
    var selected := SortCases(cases)[0];
    assert selected in SortCases(cases);
    if selected.payload.Some? {
      SortedCase(cases, 0);
      ReadsZeros(selected.payload.value, b, at + PayloadOffset(cases), k);
    }
  }

  lemma {:induction false} ReadsZerosAll(types: seq<Type>, slots: seq<nat>, b: seq<Byte>, low: nat, high: nat, k: nat)
    requires |types| == |slots| && Fits(types, slots, low, high) && high <= k && Zeroed(b, k)
    requires forall i :: 0 <= i < |types| ==> Proper(types[i])
    ensures ReadAll(HOST, types, slots, b).Ok?
    decreases MaxDepth(types), 2, |types|
  {
    hide Zeroed, Proper, LayoutOf, ReadMemory;
    if types != [] {
      FitsWithin(types, slots, low, high);
      MaxDepthBound(types[1..], MaxDepth(types));
      ReadsZeros(types[0], b, slots[0], k);
      ReadsZerosAll(types[1..], slots[1..], b, slots[0] + Size(types[0]), high, k);
    }
  }

  /* ---------- lanes that differ from zero in one place ---------- */

  /** Room for an element of any array in the type. */
  function Room(t: Type): (r: nat)
    ensures r > 0
    decreases Depth(t), 1, 0
  {
    match t
    case Array(element) => Size(element) + 1
    case Sealed(_, inner) => Room(inner)
    case Record(fields) =>
      RecordDepth(fields, fields);
      RoomAll(FieldTypes(fields))
    case Variant(cases) =>
      VariantDepth(cases, cases);
      RoomAll(PayloadTypes(cases))
    case _ => 1
  }

  function RoomAll(types: seq<Type>): (r: nat)
    ensures r > 0
    decreases MaxDepth(types), 2, |types|
  {
    if types == [] then 1
    else
      MaxDepthBound(types[1..], MaxDepth(types));
      Max(Room(types[0]), RoomAll(types[1..]))
  }

  lemma {:induction false} RoomAt(types: seq<Type>, i: nat)
    requires i < |types|
    ensures Room(types[i]) <= RoomAll(types)
  {
    hide Room;
    if i > 0 { RoomAt(types[1..], i - 1); }
  }

  /** Zeros of these types, but for `m` at `q`. */
  function Patch(types: seq<LaneType>, q: int, m: seq<Lane>): (r: seq<Lane>)
    ensures |r| == |types|
    ensures forall i {:trigger r[i]} :: 0 <= i < |types| ==> r[i] == if q <= i < q + |m| then m[i - q] else ZeroLane(types[i])
  {
    seq(|types|, i requires 0 <= i < |types| => if q <= i < q + |m| then m[i - q] else ZeroLane(types[i]))
  }

  /** In every memory that begins with zeros. */
  ghost predicate Lifts(t: Type, lanes: seq<Lane>, k: nat) {
    forall b :: Zeroed(b, k) ==> Lift(HOST, t, lanes, b).Ok?
  }

  predicate Beside(t: Type, at: int, m: seq<Lane>) {
    m == [] || at + |m| <= 0 || at >= |Flat(t)|
  }

  /** `m` covers one leaf of the type, and has a value there; or it lies beside. */
  ghost predicate Sits(t: Type, at: int, m: seq<Lane>, k: nat)
    decreases Depth(t), 1
  {
    if Beside(t, at, m) then true
    else
      match t
      case Sealed(_, inner) => Sits(inner, at, m, k)
      case Record(fields) => SitsInFields(fields, at, m, k)
      case Variant(cases) =>
        if |cases| == 1 then
          assert cases[0] in cases;
          at >= 1 && cases[0].payload.Some? && Sits(cases[0].payload.value, at - 1, m, k)
        else at == 0 && |m| == |Flat(t)| && Lifts(t, m, k)
      case _ => at == 0 && |m| == |Flat(t)| && Lifts(t, m, k)
  }

  ghost predicate SitsInFields(fields: seq<Field>, at: int, m: seq<Lane>, k: nat)
    decreases Depth(Record(fields)), 0
  {
    forall i :: 0 <= i < |fields| ==>
      assert fields[i] in fields;
      Sits(fields[i].of, at - Start(FieldTypes(fields), i), m, k)
  }

  lemma {:induction false} PatchLifts(t: Type, at: int, m: seq<Lane>, k: nat, b: seq<Byte>)
    requires Proper(t) && Room(t) <= k && Zeroed(b, k) && Sits(t, at, m, k)
    ensures Lift(HOST, t, Patch(Flat(t), at, m), b).Ok?
    decreases Depth(t), 1, 0
  {
    hide Lift, Flat, FlatAll, Zeroed, Proper, Room, Patch;
    var lanes := Patch(Flat(t), at, m);
    if IsLeaf(t) {
      if m == [] || at + |m| <= 0 || at >= |Flat(t)| {
        Untouched(Flat(t), at, m);
        LeafZero(t, k, b);
      } else {
        LeafSits(t, at, m, k);
        assert lanes == m;
      }
    } else if t.Sealed? {
      SealedSits(t, at, m, k);
      SealedMarks(t, 0);
      SealedLifts(HOST, t, lanes, b);
      PatchLifts(t.inner, at, m, k, b);
      Seals(t.name, Lift(HOST, t.inner, lanes, b));
    } else if t.Record? {
      PatchLiftsRecord(t.fields, at, m, k, b);
    } else {
      PatchLiftsOnly(t.cases, at, m, k, b);
    }
  }

  lemma Seals(name: Text, inner: Result<Value>)
    requires inner.Ok?
    ensures Sealing(name, inner).Ok? && Tagging(name, inner).Ok?
  {
  }

  lemma Untouched(types: seq<LaneType>, at: int, m: seq<Lane>)
    requires m == [] || at + |m| <= 0 || at >= |types|
    ensures Patch(types, at, m) == Patch(types, 0, [])
  {
  }

  lemma LeafSits(t: Type, at: int, m: seq<Lane>, k: nat)
    requires IsLeaf(t) && Sits(t, at, m, k) && m != [] && at + |m| > 0 && at < |Flat(t)|
    ensures at == 0 && |m| == |Flat(t)| && Lifts(t, m, k)
  {
    hide Flat, Lifts;
  }

  lemma SealedSits(t: Type, at: int, m: seq<Lane>, k: nat)
    requires t.Sealed?
    ensures Sits(t, at, m, k) ==> Sits(t.inner, at, m, k)
    ensures Sits(t.inner, at, m, k) ==> Sits(t, at, m, k)
    ensures Proper(t) ==> Proper(t.inner)
    ensures Room(t) == Room(t.inner)
  {
  }

  lemma BesideSits(t: Type, at: int, m: seq<Lane>, k: nat)
    requires Beside(t, at, m)
    ensures Sits(t, at, m, k)
  {
  }

  lemma FieldSits(fields: seq<Field>, at: int, m: seq<Lane>, k: nat, i: nat)
    requires Sits(Record(fields), at, m, k) && i < |fields|
    ensures Sits(fields[i].of, at - Start(FieldTypes(fields), i), m, k)
  {
    hide Start, Flat, FlatAll;
    RecordMarks(fields, 0);
    StartEnd(FieldTypes(fields), i);
    TypeAt(fields, i);
    if Beside(Record(fields), at, m) { BesideSits(fields[i].of, at - Start(FieldTypes(fields), i), m, k); }
  }

  lemma OnlySits(cases: seq<Case>, at: int, m: seq<Lane>, k: nat)
    requires |cases| == 1 && Sits(Variant(cases), at, m, k)
    ensures m == [] || at + |m| <= 0 || at >= 1
    ensures cases[0].payload.Some? ==> Sits(cases[0].payload.value, at - 1, m, k)
    ensures m == [] || at + |m| <= 0 || at >= |Flat(Variant(cases))| || cases[0].payload.Some?
  {
    hide Flat;
    OnlyFlat(cases);
    OnlyMarks(cases, 0);
  }

  lemma {:induction false} FlatAt(types: seq<Type>, i: nat)
    requires i < |types|
    ensures Start(types, i) + |Flat(types[i])| <= |FlatAll(types)|
    ensures Part(FlatAll(types), Start(types, i), |Flat(types[i])|) == Flat(types[i])
  {
    hide Flat;
    StartEnd(types, i);
    if i > 0 {
      StartTail(types, i);
      FlatAt(types[1..], i - 1);
      assert Part(FlatAll(types), Start(types, i), |Flat(types[i])|) == Part(FlatAll(types[1..]), Start(types[1..], i - 1), |Flat(types[i])|);
    } else {
      assert types[..0] == [];
    }
  }

  lemma PatchPart(types: seq<LaneType>, at: int, m: seq<Lane>, from: nat, n: nat)
    requires from + n <= |types|
    ensures Part(Patch(types, at, m), from, n) == Patch(Part(types, from, n), at - from, m)
  {
  }

  lemma PatchLiftsRecord(fields: seq<Field>, at: int, m: seq<Lane>, k: nat, b: seq<Byte>)
    requires Proper(Record(fields)) && Room(Record(fields)) <= k && Zeroed(b, k) && Sits(Record(fields), at, m, k)
    ensures Lift(HOST, Record(fields), Patch(Flat(Record(fields)), at, m), b).Ok?
    decreases Depth(Record(fields)), 0, 0
  {
    hide Lift, LiftAll, Flat, FlatAll, Start, Zeroed, Proper, Room, Sits, Patch, Part;
    var types := FieldTypes(fields);
    var lanes := Patch(Flat(Record(fields)), at, m);
    RecordMarks(fields, 0);
    ProperFields(fields);
    forall i | 0 <= i < |types|
      ensures Start(types, i) + |Flat(types[i])| <= |lanes|
              && Lift(HOST, types[i], Part(lanes, Start(types, i), |Flat(types[i])|), b).Ok?
    {
      assert fields[i] in fields;
      FieldDepth(fields, i);
      FlatAt(types, i);
      PatchPart(FlatAll(types), at, m, Start(types, i), |Flat(types[i])|);
      FieldSits(fields, at, m, k, i);
      FieldRoom(fields, i);
      PatchLifts(types[i], at - Start(types, i), m, k, b);
    }
    LiftEachAll(HOST, types, lanes, b);
    RecordLifts(HOST, fields, lanes, b);
    Assembles(fields, LiftAll(HOST, types, lanes, b).value);
  }

  lemma FieldRoom(fields: seq<Field>, i: nat)
    requires i < |fields|
    ensures Room(fields[i].of) <= Room(Record(fields))
  {
    hide RoomAll;
    RoomAt(FieldTypes(fields), i);
  }

  lemma CaseRoom(cases: seq<Case>, i: nat)
    requires i < |cases|
    ensures cases[i].payload.Some? ==> Room(cases[i].payload.value) <= Room(Variant(cases))
  {
    hide RoomAll;
    RoomAt(PayloadTypes(cases), i);
  }

  lemma PatchLiftsOnly(cases: seq<Case>, at: int, m: seq<Lane>, k: nat, b: seq<Byte>)
    requires |cases| == 1 && Proper(Variant(cases)) && Room(Variant(cases)) <= k && Zeroed(b, k) && Sits(Variant(cases), at, m, k)
    ensures Lift(HOST, Variant(cases), Patch(Flat(Variant(cases)), at, m), b).Ok?
    decreases Depth(Variant(cases)), 0, 0
  {
    hide Lift, LiftStored, Flat, Zeroed, Proper, Room, Sits;
    var lanes := Patch(Flat(Variant(cases)), at, m);
    OnlyFlat(cases);
    OnlySits(cases, at, m, k);
    OnlyLifts(HOST, cases, lanes, b);
    assert lanes[0] == I32(0);
    if cases[0].payload.Some? {
      ProperCases(cases);
      assert cases[0] in cases;
      CaseRoom(cases, 0);
      PatchLifts(cases[0].payload.value, at - 1, m, k, b);
      assert lanes[1..] == Patch(Flat(cases[0].payload.value), at - 1, m);
      Seals(cases[0].name, Lift(HOST, cases[0].payload.value, lanes[1..], b));
    }
  }

  lemma {:induction false} ZerosNarrow(joined: seq<LaneType>, types: seq<LaneType>)
    requires |types| <= |joined|
    ensures Narrow(Patch(joined, 0, []), joined, types) == Ok(Patch(types, 0, []))
  {
    if types != [] {
      ZerosNarrow(joined[1..], types[1..]);
      assert Patch(joined, 0, [])[1..] == Patch(joined[1..], 0, []);
      assert Patch(types, 0, []) == [ZeroLane(types[0])] + Patch(types[1..], 0, []);
      ZeroConverts(joined[0], types[0]);
    }
  }

  lemma ZeroConverts(from: LaneType, to: LaneType)
    requires from == to || TypeOf(ZeroLane(from)) == from
    ensures ConvertLane(ZeroLane(from), from, to) == Ok(ZeroLane(to))
  {
  }

  lemma LeafZero(t: Type, k: nat, b: seq<Byte>)
    requires IsLeaf(t) && Proper(t) && Room(t) <= k && Zeroed(b, k)
    ensures Lift(HOST, t, Patch(Flat(t), 0, []), b).Ok?
    decreases Depth(t), 0, 2
  {
    if t.Variant? { LeafZeroVariant(t.cases, k, b); } else { ScalarZero(t, b); }
  }

  lemma ScalarZero(t: Type, b: seq<Byte>)
    requires !t.Sealed? && !t.Record? && !t.Variant?
    ensures Lift(HOST, t, Patch(Flat(t), 0, []), b).Ok?
  {
    hide ReadArray, LayoutOf;
    if t.Array? { ReadsNone(t.element, b); }
  }

  lemma LeafZeroVariant(cases: seq<Case>, k: nat, b: seq<Byte>)
    requires |cases| != 1 && Proper(Variant(cases)) && Room(Variant(cases)) <= k && Zeroed(b, k)
    ensures Lift(HOST, Variant(cases), Patch(Flat(Variant(cases)), 0, []), b).Ok?
    decreases Depth(Variant(cases)), 0, 1
  {
    hide Proper, Room, Zeroed, Lift;
    ProperCases(cases);
    ZeroCase(cases, 0, k, b);
    assert Patch(Flat(Variant(cases)), 0, []) == [I32(0)] + Patch(JoinAll(PayloadTypes(cases)), 0, []) by {
      FlatVariant(cases);
    }
  }

  lemma FlatVariant(cases: seq<Case>)
    ensures Flat(Variant(cases)) == [LaneI32] + JoinAll(PayloadTypes(cases))
  {
    hide JoinAll, PayloadTypes;
  }

  /** The discriminant of a case with zeros behind it. */
  lemma ZeroCase(cases: seq<Case>, tag: nat, k: nat, b: seq<Byte>)
    requires Proper(Variant(cases)) && Room(Variant(cases)) <= k && Zeroed(b, k) && tag < |cases| && tag < 2
    ensures var r := Lift(HOST, Variant(cases), [I32(tag)] + Patch(JoinAll(PayloadTypes(cases)), 0, []), b);
            r.Ok? && r.value.Tagged? && r.value.name == cases[tag].name
    decreases Depth(Variant(cases)), 0, 0
  {
    hide Proper, Room, Zeroed, JoinAll, PayloadTypes, Patch, Flat, Narrow;
    FlatVariant(cases);
    ProperCases(cases);
    CaseRoom(cases, tag);
    var joined := JoinAll(PayloadTypes(cases));
    var lanes := [I32(tag)] + Patch(joined, 0, []);
    assert lanes[1..] == Patch(joined, 0, []);
    assert Memory32(lanes[0]) == Ok(tag);
    assert cases[tag] in cases;
    if cases[tag].payload.Some? {
      var inner := cases[tag].payload.value;
      CaseIsNarrower(cases, tag);
      ZerosNarrow(joined, Flat(inner));
      VariantDepth(cases, cases);
      NothingSits(inner, k);
      PatchLifts(inner, 0, [], k, b);
    }
  }

  lemma CaseIsNarrower(cases: seq<Case>, tag: nat)
    requires tag < |cases| && cases[tag].payload.Some?
    ensures |Flat(cases[tag].payload.value)| <= |JoinAll(PayloadTypes(cases))|
    ensures WidensAll(Flat(cases[tag].payload.value), JoinAll(PayloadTypes(cases)))
    ensures Depth(cases[tag].payload.value) < Depth(Variant(cases))
  {
    PayloadCase(cases, tag);
    JoinAllIsWideEnough(PayloadTypes(cases), tag);
    assert cases[tag] in cases;
  }

  lemma NothingSits(t: Type, k: nat)
    ensures Sits(t, 0, [], k)
  {
  }

  /* ---------- the law leaves no choice ---------- */

  /** `i32` lanes presented as signed numbers. */
  ghost predicate Plain(lanes: seq<Lane>) {
    forall i :: 0 <= i < |lanes| && lanes[i].I32? ==> -0x8000_0000 <= lanes[i].number < 0x8000_0000
  }

  /** In some memory that begins with zeros, the part of type `t` has the same value from the lanes at
      `at` as in name order from those at `pos`. */
  ghost predicate ShownAt(lanes: seq<Lane>, t: Type, at: nat, pos: nat, k: nat)
    requires at + |Flat(t)| <= |lanes| && pos + |Flat(t)| <= |lanes|
  {
    exists b ::
      && Zeroed(b, k) && Lift(HOST, t, Part(lanes, at, |Flat(t)|), b).Ok?
      && LiftStored(HOST, t, Part(lanes, pos, |Flat(t)|), b) == Lift(HOST, t, Part(lanes, at, |Flat(t)|), b)
  }

  ghost predicate Inside(types: seq<LaneType>, t: Type, at: nat, pos: nat) {
    at + |Flat(t)| <= |types| && pos + |Flat(t)| <= |types| && Part(types, at, |Flat(t)|) == Flat(t)
  }

  /** Whatever sits in the part leaves it shown. */
  ghost predicate AllShown(types: seq<LaneType>, t: Type, at: nat, pos: nat, k: nat)
    requires Inside(types, t, at, pos)
  {
    forall q: nat, m: seq<Lane> {:trigger Patch(types, q, m)} ::
      at <= q && q + |m| <= at + |Flat(t)| && Plain(m) && TypesOf(m) == Part(types, q, |m|) && Sits(t, q - at, m, k)
      ==> ShownAt(Patch(types, q, m), t, at, pos, k)
  }

  lemma PartPart<T>(s: seq<T>, from: nat, n: nat, inner: nat, m: nat)
    requires from + n <= |s| && inner + m <= n
    ensures Part(Part(s, from, n), inner, m) == Part(s, from + inner, m)
  {
  }

  lemma FieldInside(types: seq<LaneType>, fields: seq<Field>, at: nat, pos: nat, i: nat, j: nat)
    requires Inside(types, Record(fields), at, pos) && i < |fields| && j < |fields| && fields[i] == SortFields(fields)[j]
    requires forall f :: f in fields ==> FieldsDistinct(f.of)
    ensures Start(FieldTypes(fields), i) + |Flat(fields[i].of)| <= |Flat(Record(fields))|
    ensures Start(FieldTypes(SortFields(fields)), j) + |Flat(fields[i].of)| <= |Flat(Record(fields))|
    ensures Inside(types, fields[i].of, at + Start(FieldTypes(fields), i), pos + Start(FieldTypes(SortFields(fields)), j))
  {
    hide Flat, FlatAll, Start, SortFields, FieldsDistinct, Part;
    RecordMarks(fields, 0);
    TypeAt(fields, i);
    TypeAt(SortFields(fields), j);
    FlatAt(FieldTypes(fields), i);
    StartEnd(FieldTypes(SortFields(fields)), j);
    SortedLength(fields);
    PartPart(types, at, |Flat(Record(fields))|, Start(FieldTypes(fields), i), |Flat(fields[i].of)|);
  }

  /** What lies in one field lies beside all others. */
  lemma SitsInField(fields: seq<Field>, i: nat, at: int, m: seq<Lane>, k: nat)
    requires i < |fields| && Sits(fields[i].of, at - Start(FieldTypes(fields), i), m, k)
    requires Start(FieldTypes(fields), i) <= at && at + |m| <= Start(FieldTypes(fields), i) + |Flat(fields[i].of)|
    ensures Sits(Record(fields), at, m, k)
  {
    hide Start, Flat, FlatAll;
    var types := FieldTypes(fields);
    forall g: nat | g < |fields| ensures FieldTypes(fields)[g] == fields[g].of {
      TypeAt(fields, g);
    }
    forall g | 0 <= g < |fields| ensures Sits(fields[g].of, at - Start(types, g), m, k) {
      if g < i {
        StartsRise(types, g, i);
        BesideSits(fields[g].of, at - Start(types, g), m, k);
      } else if g > i {
        StartsRise(types, i, g);
        BesideSits(fields[g].of, at - Start(types, g), m, k);
      }
    }
  }

  lemma FieldShown(lanes: seq<Lane>, fields: seq<Field>, at: nat, pos: nat, k: nat, i: nat, j: nat)
    requires FieldsDistinct(Record(fields)) && i < |fields| && j < |fields| && fields[i] == SortFields(fields)[j]
    requires at + |Flat(Record(fields))| <= |lanes| && pos + |Flat(Record(fields))| <= |lanes|
    requires ShownAt(lanes, Record(fields), at, pos, k)
    ensures at + Start(FieldTypes(fields), i) + |Flat(fields[i].of)| <= |lanes|
    ensures pos + Start(FieldTypes(SortFields(fields)), j) + |Flat(fields[i].of)| <= |lanes|
    ensures ShownAt(lanes, fields[i].of, at + Start(FieldTypes(fields), i), pos + Start(FieldTypes(SortFields(fields)), j), k)
  {
    hide *;
    var b := Shower(lanes, Record(fields), at, pos, k);
    var sorted, width := SortFields(fields), |Flat(Record(fields))|;
    var declared, stored := Part(lanes, at, width), Part(lanes, pos, width);
    RecordLifts(HOST, fields, declared, b);
    RecordLifts(HOST, fields, stored, b);
    var values, moved := LiftAll(HOST, FieldTypes(fields), declared, b).value, LiftStoredAll(HOST, FieldTypes(sorted), stored, b).value;
    LiftAllEach(HOST, FieldTypes(fields), declared, b, i);
    StoredAllEach(HOST, FieldTypes(sorted), stored, b, j);
    TypeAt(fields, i);
    TypeAt(sorted, j);
    FieldsAreDistinct(fields);
    SortedDistinct(fields);
    Collects(fields, values);
    Collects(sorted, moved);
    PartPart(lanes, at, width, Start(FieldTypes(fields), i), |Flat(fields[i].of)|);
    PartPart(lanes, pos, width, Start(FieldTypes(sorted), j), |Flat(fields[i].of)|);
    assert Collect(fields, values)[fields[i].name] == Collect(sorted, moved)[sorted[j].name];
    ShowsHere(lanes, fields[i].of, at + Start(FieldTypes(fields), i), pos + Start(FieldTypes(sorted), j), k, b);
  }

  lemma Shower(lanes: seq<Lane>, t: Type, at: nat, pos: nat, k: nat) returns (b: seq<Byte>)
    requires at + |Flat(t)| <= |lanes| && pos + |Flat(t)| <= |lanes| && ShownAt(lanes, t, at, pos, k)
    ensures Zeroed(b, k) && Lift(HOST, t, Part(lanes, at, |Flat(t)|), b).Ok?
    ensures LiftStored(HOST, t, Part(lanes, pos, |Flat(t)|), b) == Lift(HOST, t, Part(lanes, at, |Flat(t)|), b)
  {
    hide Zeroed, Lift, LiftStored, Flat, Part;
    b :|
      && Zeroed(b, k) && Lift(HOST, t, Part(lanes, at, |Flat(t)|), b).Ok?
      && LiftStored(HOST, t, Part(lanes, pos, |Flat(t)|), b) == Lift(HOST, t, Part(lanes, at, |Flat(t)|), b);
  }

  lemma ShowsHere(lanes: seq<Lane>, t: Type, at: nat, pos: nat, k: nat, b: seq<Byte>)
    requires at + |Flat(t)| <= |lanes| && pos + |Flat(t)| <= |lanes|
    requires Zeroed(b, k) && Lift(HOST, t, Part(lanes, at, |Flat(t)|), b).Ok?
    requires LiftStored(HOST, t, Part(lanes, pos, |Flat(t)|), b) == Lift(HOST, t, Part(lanes, at, |Flat(t)|), b)
    ensures ShownAt(lanes, t, at, pos, k)
  {
  }

  lemma FieldAllShown(types: seq<LaneType>, fields: seq<Field>, at: nat, pos: nat, k: nat, i: nat, j: nat)
    requires FieldsDistinct(Record(fields)) && i < |fields| && j < |fields| && fields[i] == SortFields(fields)[j]
    requires Inside(types, Record(fields), at, pos) && AllShown(types, Record(fields), at, pos, k)
    ensures var from, to := at + Start(FieldTypes(fields), i), pos + Start(FieldTypes(SortFields(fields)), j);
            Inside(types, fields[i].of, from, to) && AllShown(types, fields[i].of, from, to, k)
  {
    hide *;
    FieldsAreDistinct(fields);
    FieldInside(types, fields, at, pos, i, j);
    InsideWidth(types, Record(fields), at, pos);
    var t, from, to := fields[i].of, at + Start(FieldTypes(fields), i), pos + Start(FieldTypes(SortFields(fields)), j);
    InsideWidth(types, t, from, to);
    forall q: nat, m: seq<Lane> | from <= q && q + |m| <= from + |Flat(t)| && Plain(m) && TypesOf(m) == Part(types, q, |m|) && Sits(t, q - from, m, k)
      ensures ShownAt(Patch(types, q, m), t, from, to, k)
    {
      assert q - from == q - at - Start(FieldTypes(fields), i);
      SitsInField(fields, i, q - at, m, k);
      PatchLength(types, q, m);
      ShowsPatch(types, Record(fields), at, pos, k, q, m);
      FieldShown(Patch(types, q, m), fields, at, pos, k, i, j);
    }
    EachShown(types, t, from, to, k);
  }

  lemma InsideWidth(types: seq<LaneType>, t: Type, at: nat, pos: nat)
    requires Inside(types, t, at, pos)
    ensures at + |Flat(t)| <= |types| && pos + |Flat(t)| <= |types|
  {
  }

  lemma PatchLength(types: seq<LaneType>, q: int, m: seq<Lane>)
    ensures |Patch(types, q, m)| == |types|
  {
  }

  lemma ShowsPatch(types: seq<LaneType>, t: Type, at: nat, pos: nat, k: nat, q: nat, m: seq<Lane>)
    requires Inside(types, t, at, pos) && AllShown(types, t, at, pos, k)
    requires at <= q && q + |m| <= at + |Flat(t)| && Plain(m) && TypesOf(m) == Part(types, q, |m|) && Sits(t, q - at, m, k)
    ensures ShownAt(Patch(types, q, m), t, at, pos, k)
  {
    hide Flat, Plain, TypesOf, Part, Sits, ShownAt, Patch;
  }

  lemma EachShown(types: seq<LaneType>, t: Type, at: nat, pos: nat, k: nat)
    requires Inside(types, t, at, pos) && at + |Flat(t)| <= |types| && pos + |Flat(t)| <= |types|
    requires forall q: nat, m: seq<Lane> {:trigger Patch(types, q, m)} ::
               at <= q && q + |m| <= at + |Flat(t)| && Plain(m) && TypesOf(m) == Part(types, q, |m|) && Sits(t, q - at, m, k)
               ==> ShownAt(Patch(types, q, m), t, at, pos, k)
    ensures AllShown(types, t, at, pos, k)
  {
    hide Flat, Plain, TypesOf, Part, Sits, ShownAt, Patch;
  }

  lemma SealedAllShown(types: seq<LaneType>, t: Type, at: nat, pos: nat, k: nat)
    requires t.Sealed? && Inside(types, t, at, pos) && AllShown(types, t, at, pos, k)
    ensures Inside(types, t.inner, at, pos) && AllShown(types, t.inner, at, pos, k)
  {
    hide Flat, Part, Sits, ShownAt, Patch, Plain, TypesOf;
    SealedMarks(t, at);
    forall q: nat, m: seq<Lane> | at <= q && q + |m| <= at + |Flat(t)| && Plain(m) && TypesOf(m) == Part(types, q, |m|) && Sits(t.inner, q - at, m, k)
      ensures ShownAt(Patch(types, q, m), t.inner, at, pos, k)
    {
      SealedSits(t, q - at, m, k);
      assert ShownAt(Patch(types, q, m), t, at, pos, k);
      SealedShown(Patch(types, q, m), t, at, pos, k);
    }
  }

  lemma SealedShown(lanes: seq<Lane>, t: Type, at: nat, pos: nat, k: nat)
    requires t.Sealed? && at + |Flat(t)| <= |lanes| && pos + |Flat(t)| <= |lanes| && ShownAt(lanes, t, at, pos, k)
    ensures at + |Flat(t.inner)| <= |lanes| && pos + |Flat(t.inner)| <= |lanes| && ShownAt(lanes, t.inner, at, pos, k)
  {
    hide *;
    SealedMarks(t, at);
    var b := Shower(lanes, t, at, pos, k);
    SealedLifts(HOST, t, Part(lanes, at, |Flat(t)|), b);
    SealedLifts(HOST, t, Part(lanes, pos, |Flat(t)|), b);
    PartLength(lanes, at, |Flat(t)|);
    PartLength(lanes, pos, |Flat(t)|);
    Unwraps(t.name, LiftStored(HOST, t.inner, Part(lanes, pos, |Flat(t)|), b), Lift(HOST, t.inner, Part(lanes, at, |Flat(t)|), b));
    ShowsHere(lanes, t.inner, at, pos, k, b);
  }

  lemma PartLength<T>(s: seq<T>, from: nat, n: nat)
    requires from + n <= |s|
    ensures |Part(s, from, n)| == n
  {
  }

  lemma Unwraps(name: Text, a: Result<Value>, b: Result<Value>)
    ensures b.Ok? && Sealing(name, a) == Sealing(name, b) ==> a == b
    ensures b.Ok? && Tagging(name, a) == Tagging(name, b) ==> a == b
    ensures Tagging(name, b).Ok? ==> b.Ok?
  {
  }

  lemma OnlyAllShown(types: seq<LaneType>, cases: seq<Case>, at: nat, pos: nat, k: nat)
    requires |cases| == 1 && cases[0].payload.Some? && Inside(types, Variant(cases), at, pos) && AllShown(types, Variant(cases), at, pos, k)
    ensures Inside(types, cases[0].payload.value, at + 1, pos + 1) && AllShown(types, cases[0].payload.value, at + 1, pos + 1, k)
  {
    hide Flat, Sits, ShownAt, Patch, Plain, TypesOf, Part;
    OnlyFlat(cases);
    OnlyMarks(cases, 0);
    var t := cases[0].payload.value;
    OnlyInside(types, cases, at, pos);
    forall q: nat, m: seq<Lane> | at + 1 <= q && q + |m| <= at + 1 + |Flat(t)| && Plain(m) && TypesOf(m) == Part(types, q, |m|) && Sits(t, q - (at + 1), m, k)
      ensures ShownAt(Patch(types, q, m), t, at + 1, pos + 1, k)
    {
      assert q - (at + 1) == q - at - 1;
      SitsInOnly(cases, q - at, m, k);
      assert ShownAt(Patch(types, q, m), Variant(cases), at, pos, k);
      OnlyShown(Patch(types, q, m), cases, at, pos, k);
    }
  }

  lemma OnlyInside(types: seq<LaneType>, cases: seq<Case>, at: nat, pos: nat)
    requires |cases| == 1 && cases[0].payload.Some? && Inside(types, Variant(cases), at, pos)
    ensures |Flat(Variant(cases))| == 1 + |Flat(cases[0].payload.value)|
    ensures Inside(types, cases[0].payload.value, at + 1, pos + 1)
  {
    hide Flat, Part;
    OnlyFlat(cases);
    OnlyMarks(cases, 0);
    var t := cases[0].payload.value;
    PartPart(types, at, |Flat(Variant(cases))|, 1, |Flat(t)|);
    TailPart(LaneI32, Flat(t));
  }

  lemma TailPart<T>(first: T, rest: seq<T>)
    ensures Part([first] + rest, 1, |rest|) == rest
  {
  }

  lemma SitsInOnly(cases: seq<Case>, at: int, m: seq<Lane>, k: nat)
    requires |cases| == 1 && cases[0].payload.Some? && at >= 1 && Sits(cases[0].payload.value, at - 1, m, k)
    ensures Sits(Variant(cases), at, m, k)
  {
    hide Flat;
  }

  lemma OnlyShown(lanes: seq<Lane>, cases: seq<Case>, at: nat, pos: nat, k: nat)
    requires |cases| == 1 && cases[0].payload.Some?
    requires at + |Flat(Variant(cases))| <= |lanes| && pos + |Flat(Variant(cases))| <= |lanes| && ShownAt(lanes, Variant(cases), at, pos, k)
    ensures |Flat(Variant(cases))| == 1 + |Flat(cases[0].payload.value)|
    ensures ShownAt(lanes, cases[0].payload.value, at + 1, pos + 1, k)
  {
    hide *;
    OnlyFlat(cases);
    OnlyMarks(cases, 0);
    var t, width := cases[0].payload.value, |Flat(Variant(cases))|;
    var b := Shower(lanes, Variant(cases), at, pos, k);
    var declared, stored := Part(lanes, at, width), Part(lanes, pos, width);
    OnlyLifts(HOST, cases, declared, b);
    OnlyLifts(HOST, cases, stored, b);
    PartTail(lanes, at, width);
    PartTail(lanes, pos, width);
    Unwraps(cases[0].name, LiftStored(HOST, t, stored[1..], b), Lift(HOST, t, declared[1..], b));
    ShowsHere(lanes, t, at + 1, pos + 1, k, b);
  }

  lemma PartTail<T>(s: seq<T>, from: nat, n: nat)
    requires 0 < n && from + n <= |s|
    ensures |Part(s, from, n)| == n && Part(s, from, n)[1..] == Part(s, from + 1, n - 1)
  {
  }

  /* ---------- leaves ---------- */

  lemma PatchAt(types: seq<LaneType>, t: Type, at: nat, m: seq<Lane>)
    requires at + |Flat(t)| <= |types| && |m| == |Flat(t)|
    ensures Part(Patch(types, at, m), at, |Flat(t)|) == m
  {
  }

  lemma ZeroThere(types: seq<LaneType>, at: nat, m: seq<Lane>, pos: nat, n: nat, i: nat)
    requires i < n && pos + n <= |types| && !(at <= pos + i < at + |m|)
    ensures Part(Patch(types, at, m), pos, n)[i] == ZeroLane(types[pos + i])
  {
  }

  lemma ZeroMemory(t: LaneType)
    ensures Memory32(ZeroLane(t)).Err? || Memory32(ZeroLane(t)).value == 0
  {
  }

  /** A scalar that is not in place shows zero instead of one. */
  lemma ScalarInPlace(types: seq<LaneType>, t: Type, at: nat, pos: nat, k: nat)
    requires t.Boolean? || t.Integer64? || t.Float32? || t.Float64?
    requires Inside(types, t, at, pos) && AllShown(types, t, at, pos, k)
    ensures at == pos
  {
    hide Patch, Zeroed;
    var one := if t.Boolean? then I32(1) else if t.Integer64? then I64(1) else if t.Float32? then F32(1) else F64(1);
    assert |Flat(t)| == 1 && Flat(t) == [TypeOf(one)];
    assert Lifts(t, [one], k);
    assert TypesOf([one]) == Flat(t);
    var lanes := Patch(types, at, [one]);
    PatchLength(types, at, [one]);
    ShowsPatch(types, t, at, pos, k, at, [one]);
    PatchAt(types, t, at, [one]);
    OneThere(types, at, one, pos);
    var b := Shower(lanes, t, at, pos, k);
  }

  lemma OneThere(types: seq<LaneType>, at: nat, one: Lane, pos: nat)
    requires at < |types| && pos < |types|
    ensures at != pos ==> Part(Patch(types, at, [one]), pos, 1)[0] == ZeroLane(types[pos])
  {
    if at != pos { ZeroThere(types, at, [one], pos, 1, 0); }
  }

  /** A text or an array that is not in place shows nothing instead of one element. */
  lemma PairInPlace(types: seq<LaneType>, t: Type, at: nat, pos: nat, k: nat)
    requires (t.TextType? || t.Array?) && Proper(t) && Room(t) <= k
    requires Inside(types, t, at, pos) && AllShown(types, t, at, pos, k)
    ensures at == pos
  {
    hide Patch, Zeroed, ReadMemory, LayoutOf;
    var m := [I32(0), I32(1)];
    assert Flat(t) == [LaneI32, LaneI32] == TypesOf(m);
    forall b | Zeroed(b, k) ensures Lift(HOST, t, m, b).Ok? && Long(Lift(HOST, t, m, b).value, 1) {
      OneLifts(t, k, b);
    }
    assert Lifts(t, m, k);
    var lanes := Patch(types, at, m);
    PatchLength(types, at, m);
    ShowsPatch(types, t, at, pos, k, at, m);
    var b := Shower(lanes, t, at, pos, k);
    PatchAt(types, t, at, m);
    SecondThere(types, at, pos);
    if at != pos { NoneStored(t, Part(lanes, pos, 2), b); }
  }

  predicate Long(v: Value, n: nat) {
    (v.Str? && |v.text| == n) || (v.List? && |v.items| == n)
  }

  lemma SecondThere(types: seq<LaneType>, at: nat, pos: nat)
    requires at + 2 <= |types| && pos + 2 <= |types|
    ensures var l := Part(Patch(types, at, [I32(0), I32(1)]), pos, 2)[1];
            at == pos || Memory32(l).Err? || Memory32(l).value == 0
  {
    if at <= pos + 1 < at + 2 {
      assert at == pos || pos + 1 == at;
    } else {
      ZeroThere(types, at, [I32(0), I32(1)], pos, 2, 1);
      ZeroMemory(types[pos + 1]);
    }
  }

  lemma OneLifts(t: Type, k: nat, b: seq<Byte>)
    requires (t.TextType? || t.Array?) && Proper(t) && Room(t) <= k && Zeroed(b, k)
    ensures Lift(HOST, t, [I32(0), I32(1)], b).Ok? && Long(Lift(HOST, t, [I32(0), I32(1)], b).value, 1)
  {
    hide ReadMemory, LayoutOf;
    assert Memory32(I32(0)) == Ok(0) && Memory32(I32(1)) == Ok(1);
    if t.Array? {
      ReadsZeros(t.element, b, 0, k);
      assert Repeat(t.element, 1)[1..] == [] && Strides(0, Size(t.element), 1)[0] == 0;
      assert ReadAll(HOST, Repeat(t.element, 1), Strides(0, Size(t.element), 1), b).Ok?;
    }
  }

  lemma NoneStored(t: Type, lanes: seq<Lane>, b: seq<Byte>)
    requires (t.TextType? || t.Array?) && |lanes| == 2 && (Memory32(lanes[1]).Err? || Memory32(lanes[1]).value == 0)
    ensures LiftStored(HOST, t, lanes, b).Ok? ==> Long(LiftStored(HOST, t, lanes, b).value, 0)
  {
    hide ReadMemory, LayoutOf;
    assert HOST.decode([]) == Some([]);
  }

  /** A variant that is not in place shows its first case for its second. */
  lemma VariantInPlace(types: seq<LaneType>, cases: seq<Case>, at: nat, pos: nat, k: nat)
    requires |cases| != 1 && Proper(Variant(cases)) && Room(Variant(cases)) <= k
    requires Inside(types, Variant(cases), at, pos) && AllShown(types, Variant(cases), at, pos, k)
    ensures at == pos
  {
    hide *;
    ProperCases(cases);
    var t, joined := Variant(cases), JoinAll(PayloadTypes(cases));
    FlatVariant(cases);
    InsideWidth(types, t, at, pos);
    var second := [I32(1)] + Patch(joined, 0, []);
    TagTypes(1, joined);
    CaseSits(cases, 1, k);
    PartOf(types, t, at, pos);
    ShowsPatch(types, t, at, pos, k, at, second);
    ShowsNone(types, t, at, pos, k);
    if at != pos {
      var b := Shower(Patch(types, at, second), t, at, pos, k);
      var c := Shower(Patch(types, at, []), t, at, pos, k);
      PatchAt(types, t, at, second);
      ZeroCase(cases, 1, k, b);
      ZeroCase(cases, 0, k, c);
      FirstZero(types, cases, at, pos, k);
      TagThere(types, at, joined, pos, |Flat(t)|);
      TagNone(types, at, pos, |Flat(t)|);
      FirstName(cases, Part(Patch(types, at, second), pos, |Flat(t)|), b);
      FirstName(cases, Part(Patch(types, at, []), pos, |Flat(t)|), c);
      TwoNames(cases);
    }
  }

  lemma TwoNames(cases: seq<Case>)
    requires DistinctCases(cases) && |cases| > 1
    ensures cases[0].name != cases[1].name
  {
  }

  lemma TagTypes(tag: int, joined: seq<LaneType>)
    requires 0 <= tag < 2
    ensures var m := [I32(tag)] + Patch(joined, 0, []);
            |m| == 1 + |joined| && Plain(m) && TypesOf(m) == [LaneI32] + joined && m != []
  {
  }

  lemma PartOf(types: seq<LaneType>, t: Type, at: nat, pos: nat)
    requires Inside(types, t, at, pos)
    ensures at + |Flat(t)| <= |types| && Part(types, at, |Flat(t)|) == Flat(t)
  {
  }

  lemma CaseSits(cases: seq<Case>, tag: nat, k: nat)
    requires Proper(Variant(cases)) && Room(Variant(cases)) <= k && tag < |cases| && tag < 2 && |cases| != 1
    ensures Sits(Variant(cases), 0, [I32(tag)] + Patch(JoinAll(PayloadTypes(cases)), 0, []), k)
  {
    hide *;
    var m := [I32(tag)] + Patch(JoinAll(PayloadTypes(cases)), 0, []);
    FlatVariant(cases);
    TagTypes(tag, JoinAll(PayloadTypes(cases)));
    forall b | Zeroed(b, k) ensures Lift(HOST, Variant(cases), m, b).Ok? {
      ZeroCase(cases, tag, k, b);
    }
    ManyCases(cases);
    LeafSitsAt(Variant(cases), m, k);
  }

  lemma ManyCases(cases: seq<Case>)
    requires |cases| != 1
    ensures IsLeaf(Variant(cases))
  {
  }

  lemma LeafSitsAt(t: Type, m: seq<Lane>, k: nat)
    requires IsLeaf(t) && |m| == |Flat(t)| && forall b :: Zeroed(b, k) ==> Lift(HOST, t, m, b).Ok?
    ensures Sits(t, 0, m, k)
  {
    hide Flat, Zeroed, Lift;
  }

  lemma ShowsNone(types: seq<LaneType>, t: Type, at: nat, pos: nat, k: nat)
    requires Inside(types, t, at, pos) && AllShown(types, t, at, pos, k)
    ensures at + |Flat(t)| <= |Patch(types, at, [])| && pos + |Flat(t)| <= |Patch(types, at, [])|
    ensures ShownAt(Patch(types, at, []), t, at, pos, k)
  {
    hide Flat;
    assert Part(types, at, 0) == [] && TypesOf([]) == [];
    ShowsPatch(types, t, at, pos, k, at, []);
  }

  lemma FirstZero(types: seq<LaneType>, cases: seq<Case>, at: nat, pos: nat, k: nat)
    requires Inside(types, Variant(cases), at, pos)
    ensures at + |Flat(Variant(cases))| <= |types|
    ensures Part(Patch(types, at, []), at, |Flat(Variant(cases))|) == [I32(0)] + Patch(JoinAll(PayloadTypes(cases)), 0, [])
  {
    hide Flat, JoinAll, PayloadTypes;
    FlatVariant(cases);
    PatchPart(types, at, [], at, |Flat(Variant(cases))|);
    assert Patch(Flat(Variant(cases)), 0, []) == [I32(0)] + Patch(JoinAll(PayloadTypes(cases)), 0, []);
  }

  lemma TagThere(types: seq<LaneType>, at: nat, joined: seq<LaneType>, pos: nat, n: nat)
    requires n == 1 + |joined| && at + n <= |types| && pos + n <= |types| && at != pos
    ensures var l := Part(Patch(types, at, [I32(1)] + Patch(joined, 0, [])), pos, n)[0]; Memory32(l).Err? || Memory32(l).value == 0
  {
    var m := [I32(1)] + Patch(joined, 0, []);
    if at <= pos < at + |m| {
      assert m[pos - at] == ZeroLane(joined[pos - at - 1]);
      ZeroMemory(joined[pos - at - 1]);
    } else {
      ZeroThere(types, at, m, pos, n, 0);
      ZeroMemory(types[pos]);
    }
  }

  lemma TagNone(types: seq<LaneType>, at: nat, pos: nat, n: nat)
    requires 0 < n && pos + n <= |types|
    ensures var l := Part(Patch(types, at, []), pos, n)[0]; Memory32(l).Err? || Memory32(l).value == 0
  {
    ZeroMemory(types[pos]);
  }

  lemma FirstName(cases: seq<Case>, lanes: seq<Lane>, b: seq<Byte>)
    requires lanes != [] && (Memory32(lanes[0]).Err? || Memory32(lanes[0]).value == 0) && cases != []
    ensures var r := LiftStored(HOST, Variant(cases), lanes, b);
            r.Ok? ==> r.value.Tagged? && r.value.name == SortCases(cases)[0].name
  {
    hide Flat, Narrow, SortCases;
  }

  /* ---------- the cases of a variant in place ---------- */

  lemma {:induction false} PlainSurvives(lanes: seq<Lane>, types: seq<LaneType>, joined: seq<LaneType>)
    requires TypesOf(lanes) == types && WidensAll(types, joined) && Plain(lanes)
    ensures Widen(lanes, types, joined).Ok?
    ensures var wide := Widen(lanes, types, joined).value;
            TypesOf(wide) == joined && Plain(wide) && Narrow(wide, joined, types) == Ok(lanes)
    decreases |joined|
  {
    hide ConvertLane, Widens, ZeroLane;
    if joined == [] {
      assert types == [] && lanes == [];
    } else if lanes == [] {
      assert TypesOf([]) == types;
      ZeroIsPlain(joined[0]);
      PlainSurvives([], [], joined[1..]);
      var rest := Widen([], [], joined[1..]).value;
      MorePlain(ZeroLane(joined[0]), rest);
      assert joined == [joined[0]] + joined[1..];
    } else {
      var first, others := lanes[0], lanes[1..];
      assert TypeOf(first) == types[0] && Widens(types[0], joined[0]);
      assert TypesOf(others) == types[1..] && Plain(others) && WidensAll(types[1..], joined[1..]);
      PlainConverts(first, joined[0]);
      PlainSurvives(others, types[1..], joined[1..]);
      var wide, rest := ConvertLane(first, types[0], joined[0]).value, Widen(others, types[1..], joined[1..]).value;
      MorePlain(wide, rest);
      assert ([wide] + rest)[1..] == rest;
      assert joined == [joined[0]] + joined[1..] && lanes == [first] + others;
    }
  }

  lemma MorePlain(first: Lane, rest: seq<Lane>)
    requires Plain(rest) && (first.I32? ==> -0x8000_0000 <= first.number < 0x8000_0000)
    ensures Plain([first] + rest) && TypesOf([first] + rest) == [TypeOf(first)] + TypesOf(rest)
  {
  }

  lemma ZeroIsPlain(t: LaneType)
    ensures TypeOf(ZeroLane(t)) == t && (ZeroLane(t).I32? ==> ZeroLane(t).number == 0)
  {
  }

  lemma PlainConverts(l: Lane, to: LaneType)
    requires Widens(TypeOf(l), to) && (l.I32? ==> -0x8000_0000 <= l.number < 0x8000_0000)
    ensures ConvertLane(l, TypeOf(l), to).Ok?
    ensures var wide := ConvertLane(l, TypeOf(l), to).value;
            && TypeOf(wide) == to && (wide.I32? ==> -0x8000_0000 <= wide.number < 0x8000_0000)
            && ConvertLane(wide, to, TypeOf(l)) == Ok(l)
  {
    match l
    case I32(n) => if to == LaneI64 { WideBack(n % 0x1_0000_0000); SignedBack(n); }
    case I64(_) =>
    case F32(b) => if to == LaneI64 { WideBack(b); } else { SignedTag(b); }
    case F64(b) => if to == LaneI64 { WideBack(b); }
  }

  lemma SignedBack(n: int)
    requires -0x8000_0000 <= n < 0x8000_0000
    ensures ToSigned32(n % 0x1_0000_0000) == n
  {
  }

  /** The lanes of a case whose payload has these lanes. */
  function CaseLanes(cases: seq<Case>, c: nat, payload: seq<Lane>): seq<Lane>
    requires c < |cases| <= 0x1_0000_0000
  {
    var widened := Widen(payload, Flat(PayloadType(cases[c])), JoinAll(PayloadTypes(cases)));
    [I32(ToSigned32(c))] + if widened.Ok? then widened.value else []
  }

  lemma CaseOfLanes(cases: seq<Case>, c: nat, payload: seq<Lane>, b: seq<Byte>)
    requires c < |cases| <= 0x1_0000_0000 && TypesOf(payload) == Flat(PayloadType(cases[c])) && Plain(payload)
    ensures var m := CaseLanes(cases, c, payload);
            && |m| == |Flat(Variant(cases))| && m != [] && Plain(m) && TypesOf(m) == Flat(Variant(cases))
            && Lift(HOST, Variant(cases), m, b) ==
               (if cases[c].payload.None? then Ok(Tagged(cases[c].name, None))
                else Tagging(cases[c].name, Lift(HOST, cases[c].payload.value, payload, b)))
            && var sorted := SortCases(cases)[c];
               (LiftStored(HOST, Variant(cases), m, b).Ok? ==>
                  LiftStored(HOST, Variant(cases), m, b).value.Tagged? && LiftStored(HOST, Variant(cases), m, b).value.name == sorted.name)
               && (sorted == cases[c] && sorted.payload.Some? ==>
                     LiftStored(HOST, Variant(cases), m, b) == Tagging(sorted.name, LiftStored(HOST, sorted.payload.value, payload, b)))
  {
    hide JoinAll, PayloadTypes, Flat, Plain, TypesOf, Widen, Narrow, SortCases, Widens, WidensAll;
    FlatVariant(cases);
    var joined, types := JoinAll(PayloadTypes(cases)), Flat(PayloadType(cases[c]));
    CaseWidens(cases, c);
    PlainSurvives(payload, types, joined);
    var wide := Widen(payload, types, joined).value;
    MorePlain(I32(ToSigned32(c)), wide);
    LaneTypes(wide);
    SignedTag(c);
    var m := CaseLanes(cases, c, payload);
    assert m == [I32(ToSigned32(c))] + wide && m[1..] == wide;
    LaneTypes(m);
  }

  lemma LaneTypes(lanes: seq<Lane>)
    ensures |TypesOf(lanes)| == |lanes|
  {
  }

  lemma SignedTag(c: nat)
    requires c < 0x1_0000_0000
    ensures -0x8000_0000 <= ToSigned32(c) < 0x8000_0000 && Memory32(I32(ToSigned32(c))) == Ok(c)
  {
  }

  lemma CaseWidens(cases: seq<Case>, c: nat)
    requires c < |cases|
    ensures WidensAll(Flat(PayloadType(cases[c])), JoinAll(PayloadTypes(cases)))
  {
    PayloadCase(cases, c);
    JoinAllIsWideEnough(PayloadTypes(cases), c);
  }

  /** A variant in place shows each case for itself, and shows the payloads. */
  lemma CaseShown(types: seq<LaneType>, cases: seq<Case>, at: nat, k: nat, c: nat, payload: seq<Lane>)
    requires |cases| != 1 && c < |cases| && Proper(Variant(cases)) && Inside(types, Variant(cases), at, at)
    requires AllShown(types, Variant(cases), at, at, k) && TypesOf(payload) == Flat(PayloadType(cases[c])) && Plain(payload)
    requires cases[c].payload.Some? ==> Lifts(cases[c].payload.value, payload, k)
    ensures SortCases(cases)[c] == cases[c]
    ensures cases[c].payload.Some? ==> ShownAt(payload, cases[c].payload.value, 0, 0, k)
  {
    hide *;
    ProperCases(cases);
    var t, m := Variant(cases), CaseLanes(cases, c, payload);
    forall b | Zeroed(b, k) ensures Lift(HOST, t, m, b).Ok? {
      CaseOfLanes(cases, c, payload, b);
      if cases[c].payload.Some? {
        LiftsHere(cases[c].payload.value, payload, k, b);
        Seals(cases[c].name, Lift(HOST, cases[c].payload.value, payload, b));
      }
    }
    CaseOfLanes(cases, c, payload, []);
    ManyCases(cases);
    LeafSitsAt(t, m, k);
    InsideWidth(types, t, at, at);
    PartOf(types, t, at, at);
    PatchLength(types, at, m);
    ShowsPatch(types, t, at, at, k, at, m);
    PatchAt(types, t, at, m);
    var b := Shower(Patch(types, at, m), t, at, at, k);
    CaseOfLanes(cases, c, payload, b);
    TagsOf(cases[c].name, if cases[c].payload.None? then Err(TypeFault) else Lift(HOST, cases[c].payload.value, payload, b));
    SameName(cases, c);
    if cases[c].payload.Some? {
      var inner := cases[c].payload.value;
      PayloadCase(cases, c);
      Unwraps(cases[c].name, LiftStored(HOST, inner, payload, b), Lift(HOST, inner, payload, b));
      LaneTypes(payload);
      WholePart(payload);
      ShowsHere(payload, inner, 0, 0, k, b);
    }
  }

  lemma LiftsHere(t: Type, lanes: seq<Lane>, k: nat, b: seq<Byte>)
    requires Lifts(t, lanes, k) && Zeroed(b, k)
    ensures Lift(HOST, t, lanes, b).Ok?
  {
  }

  lemma WholePart<T>(s: seq<T>)
    ensures Part(s, 0, |s|) == s
  {
  }

  lemma TagsOf(name: Text, payload: Result<Value>)
    ensures Tagging(name, payload).Ok? ==> Tagging(name, payload).value.Tagged? && Tagging(name, payload).value.name == name
  {
  }

  lemma SameName(cases: seq<Case>, c: nat)
    requires DistinctCases(cases) && c < |cases|
    ensures SortCases(cases)[c].name == cases[c].name ==> SortCases(cases)[c] == cases[c]
  {
    assert SortCases(cases)[c] in cases;
  }

  /* ---------- exactness ---------- */

  lemma PlainPatch(types: seq<LaneType>, q: nat, m: seq<Lane>)
    requires q + |m| <= |types| && Plain(m) && TypesOf(m) == Part(types, q, |m|)
    ensures Plain(Patch(types, q, m)) && TypesOf(Patch(types, q, m)) == types
  {
    forall i | 0 <= i < |types| ensures TypeOf(Patch(types, q, m)[i]) == types[i] {
      if q <= i < q + |m| {
        assert TypesOf(m)[i - q] == types[i];
      } else {
        ZeroIsPlain(types[i]);
      }
    }
  }

  /** A type of which all plain lanes that lift are shown. */
  ghost predicate PlainShown(t: Type, k: nat) {
    forall lanes :: Plain(lanes) && TypesOf(lanes) == Flat(t) && Lifts(t, lanes, k) ==> |lanes| == |Flat(t)| && ShownAt(lanes, t, 0, 0, k)
  }

  lemma PlainIsAll(t: Type, k: nat)
    requires PlainShown(t, k) && Proper(t) && Room(t) <= k
    ensures Inside(Flat(t), t, 0, 0) && AllShown(Flat(t), t, 0, 0, k)
  {
    hide *;
    var types := Flat(t);
    WholePart(types);
    WholeInside(t);
    forall q: nat, m: seq<Lane> | 0 <= q && q + |m| <= 0 + |Flat(t)| && Plain(m) && TypesOf(m) == Part(types, q, |m|) && Sits(t, q - 0, m, k)
      ensures ShownAt(Patch(types, q, m), t, 0, 0, k)
    {
      PatchLength(types, q, m);
      PlainPatch(types, q, m);
      forall b | Zeroed(b, k) ensures Lift(HOST, t, Patch(types, q, m), b).Ok? {
        PatchLifts(t, q, m, k, b);
      }
      AreShown(t, Patch(types, q, m), k);
    }
    EachShown(types, t, 0, 0, k);
  }

  lemma WholeInside(t: Type)
    ensures Inside(Flat(t), t, 0, 0)
  {
    hide Flat;
  }

  lemma AreShown(t: Type, lanes: seq<Lane>, k: nat)
    requires PlainShown(t, k) && Plain(lanes) && TypesOf(lanes) == Flat(t) && forall b :: Zeroed(b, k) ==> Lift(HOST, t, lanes, b).Ok?
    ensures |lanes| == |Flat(t)| && ShownAt(lanes, t, 0, 0, k)
  {
    hide Plain, TypesOf, Flat, Zeroed, Lift, ShownAt;
    assert Lifts(t, lanes, k);
  }

  lemma {:induction false} Needed(types: seq<LaneType>, t: Type, at: nat, pos: nat, k: nat)
    requires Proper(t) && Room(t) <= k && Inside(types, t, at, pos) && AllShown(types, t, at, pos, k)
    ensures Aligned(t, at, pos) && CasesStraight(t)
    decreases Depth(t), 1
  {
    hide Proper, Room, Inside, AllShown;
    match t
    case Sealed(_, inner) =>
      SealedAllShown(types, t, at, pos, k);
      SealedSits(t, 0, [], k);
      Needed(types, inner, at, pos, k);
    case Record(fields) => NeededRecord(types, fields, at, pos, k);
    case Variant(cases) =>
      if |cases| == 1 {
        if cases[0].payload.Some? {
          OnlyAllShown(types, cases, at, pos, k);
          ProperCases(cases);
          assert cases[0] in cases;
          CaseRoom(cases, 0);
          Needed(types, cases[0].payload.value, at + 1, pos + 1, k);
        }
      } else {
        VariantInPlace(types, cases, at, pos, k);
        NeededCases(types, cases, at, k);
      }
    case Unit =>
    case TextType => PairInPlace(types, t, at, pos, k);
    case Array(_) => PairInPlace(types, t, at, pos, k);
    case Boolean => ScalarInPlace(types, t, at, pos, k);
    case Integer64 => ScalarInPlace(types, t, at, pos, k);
    case Float32 => ScalarInPlace(types, t, at, pos, k);
    case Float64 => ScalarInPlace(types, t, at, pos, k);
  }

  lemma NeededRecord(types: seq<LaneType>, fields: seq<Field>, at: nat, pos: nat, k: nat)
    requires Proper(Record(fields)) && Room(Record(fields)) <= k
    requires Inside(types, Record(fields), at, pos) && AllShown(types, Record(fields), at, pos, k)
    ensures Aligned(Record(fields), at, pos) && CasesStraight(Record(fields))
    decreases Depth(Record(fields)), 0
  {
    hide Proper, Room, Inside, AllShown, Start, SortFields, CasesStraight;
    var sorted := SortFields(fields);
    forall i, j | 0 <= i < |fields| && 0 <= j < |sorted| && fields[i] == sorted[j]
      ensures Aligned(fields[i].of, at + Start(FieldTypes(fields), i), pos + Start(FieldTypes(sorted), j)) && CasesStraight(fields[i].of)
    {
      NeededField(types, fields, at, pos, k, i, j);
    }
    forall f | f in fields ensures CasesStraight(f.of) {
      assert f in sorted;
      var j :| 0 <= j < |sorted| && sorted[j] == f;
      assert fields[Place(fields, f)] == sorted[j];
    }
    EachStraight(fields);
  }

  lemma EachStraight(fields: seq<Field>)
    requires forall f :: f in fields ==> CasesStraight(f.of)
    ensures CasesStraight(Record(fields))
  {
  }

  lemma NeededField(types: seq<LaneType>, fields: seq<Field>, at: nat, pos: nat, k: nat, i: nat, j: nat)
    requires Proper(Record(fields)) && Room(Record(fields)) <= k && i < |fields| && j < |fields| && fields[i] == SortFields(fields)[j]
    requires Inside(types, Record(fields), at, pos) && AllShown(types, Record(fields), at, pos, k)
    ensures Aligned(fields[i].of, at + Start(FieldTypes(fields), i), pos + Start(FieldTypes(SortFields(fields)), j)) && CasesStraight(fields[i].of)
    decreases Depth(Record(fields)), 0, 0
  {
    hide *;
    ProperIsDistinct(Record(fields));
    ProperFields(fields);
    assert fields[i] in fields;
    FieldDepth(fields, i);
    FieldRoom(fields, i);
    FieldAllShown(types, fields, at, pos, k, i, j);
    Needed(types, fields[i].of, at + Start(FieldTypes(fields), i), pos + Start(FieldTypes(SortFields(fields)), j), k);
  }

  lemma NeededCases(types: seq<LaneType>, cases: seq<Case>, at: nat, k: nat)
    requires |cases| != 1 && Proper(Variant(cases)) && Room(Variant(cases)) <= k
    requires Inside(types, Variant(cases), at, at) && AllShown(types, Variant(cases), at, at, k)
    ensures CasesStraight(Variant(cases))
    decreases Depth(Variant(cases)), 0
  {
    hide Proper, Room, Inside, AllShown, Flat, Plain, TypesOf, Lifts, ShownAt, Aligned, SortCases;
    ProperCases(cases);
    forall c: nat | c < |cases| ensures SortCases(cases)[c] == cases[c] && (cases[c].payload.Some? ==> Straight(cases[c].payload.value)) {
      NeededCase(types, cases, at, k, c);
    }
    assert SortCases(cases) == cases;
    forall x | x in cases && x.payload.Some? ensures Straight(x.payload.value) {
      var c :| 0 <= c < |cases| && cases[c] == x;
    }
  }

  lemma NeededCase(types: seq<LaneType>, cases: seq<Case>, at: nat, k: nat, c: nat)
    requires |cases| != 1 && c < |cases| && Proper(Variant(cases)) && Room(Variant(cases)) <= k
    requires Inside(types, Variant(cases), at, at) && AllShown(types, Variant(cases), at, at, k)
    ensures SortCases(cases)[c] == cases[c]
    ensures cases[c].payload.Some? ==> Straight(cases[c].payload.value)
    decreases Depth(Variant(cases)), 0, c
  {
    hide *;
    ProperCases(cases);
    PayloadCase(cases, c);
    var inner := PayloadType(cases[c]);
    NoLanesAt(Flat(inner));
    PlainPatch(Flat(inner), 0, []);
    if cases[c].payload.Some? {
      assert cases[c] in cases;
      CaseRoom(cases, c);
      CaseIsNarrower(cases, c);
      forall b | Zeroed(b, k) ensures Lift(HOST, inner, Patch(Flat(inner), 0, []), b).Ok? {
        NothingSits(inner, k);
        PatchLifts(inner, 0, [], k, b);
      }
      AreLifted(inner, Patch(Flat(inner), 0, []), k);
      forall lanes | Plain(lanes) && TypesOf(lanes) == Flat(inner) && Lifts(inner, lanes, k) ensures |lanes| == |Flat(inner)| && ShownAt(lanes, inner, 0, 0, k) {
        LaneTypes(lanes);
        CaseShown(types, cases, at, k, c, lanes);
      }
      AllPlainShown(inner, k);
      PlainIsAll(inner, k);
      Needed(Flat(inner), inner, 0, 0, k);
      IsStraight(inner);
    }
    CaseShown(types, cases, at, k, c, Patch(Flat(inner), 0, []));
  }

  lemma NoLanesAt(types: seq<LaneType>)
    ensures Plain([]) && TypesOf([]) == Part(types, 0, 0) && |types| >= 0
  {
  }

  lemma AreLifted(t: Type, lanes: seq<Lane>, k: nat)
    requires forall b :: Zeroed(b, k) ==> Lift(HOST, t, lanes, b).Ok?
    ensures Lifts(t, lanes, k)
  {
  }

  lemma AllPlainShown(t: Type, k: nat)
    requires forall lanes :: Plain(lanes) && TypesOf(lanes) == Flat(t) && Lifts(t, lanes, k) ==> |lanes| == |Flat(t)| && ShownAt(lanes, t, 0, 0, k)
    ensures PlainShown(t, k)
  {
  }

  lemma IsStraight(t: Type)
    requires Aligned(t, 0, 0) && CasesStraight(t)
    ensures Straight(t)
  {
  }

  /** Storing where nothing else lies and reading there. */
  lemma LawShows(t: Type, lanes: seq<Lane>, k: nat)
    requires MemoryShows(t) && Lifts(t, lanes, k) && |lanes| == |Flat(t)| && k > 0
    ensures ShownAt(lanes, t, 0, 0, k)
  {
    hide Lift, LiftStored, WriteFlat, ReadMemory, LayoutOf, Flat;
    var bytes := seq(k + Size(t), _ => 0);
    assert Zeroed(bytes, k);
    assert ReadsBack(HOST, t, lanes, k, bytes, bytes);
    var other := WriteFlat(t, lanes, k, bytes).value;
    WriteFlatStaysInside(t, lanes, k, bytes);
    assert Zeroed(other, k);
    assert ReadsBack(HOST, t, lanes, k, bytes, other);
    StoreThenLoad(HOST, t, lanes, k, bytes, other);
    WholePart(lanes);
    ShowsHere(lanes, t, 0, 0, k, other);
  }

  /** Memory shows whatever lifts exactly for the straight types. */
  lemma MemoryShowsIff(t: Type)
    requires Proper(t)
    ensures MemoryShows(t) <==> Straight(t)
  {
    hide Straight, Proper, ReadsBack, Lift, Flat, Plain, TypesOf, Lifts, ShownAt;
    ProperIsDistinct(t);
    if Straight(t) {
      forall p, lanes, at: nat, bytes, other | at + Size(t) <= |bytes| && Lift(p, t, lanes, other).Ok?
        ensures ReadsBack(p, t, lanes, at, bytes, other)
      {
        StraightReadsBack(p, t, lanes, at, bytes, other);
      }
    }
    if MemoryShows(t) {
      LawIsStraight(t);
    }
  }

  lemma LawIsStraight(t: Type)
    requires Proper(t) && MemoryShows(t)
    ensures Straight(t)
  {
    hide *;
    var k := Room(t);
    forall lanes | Plain(lanes) && TypesOf(lanes) == Flat(t) && Lifts(t, lanes, k) ensures |lanes| == |Flat(t)| && ShownAt(lanes, t, 0, 0, k) {
      LaneTypes(lanes);
      LawShows(t, lanes, k);
    }
    AllPlainShown(t, k);
    PlainIsAll(t, k);
    Needed(Flat(t), t, 0, 0, k);
    IsStraight(t);
  }

  const UNIT_FIRST: seq<Field> := [Field([98], Unit), Field([97], Boolean)]

  /** Out of name order, a field without lanes does no harm. */
  lemma UnitsMayComeFirst()
    ensures Proper(Record(UNIT_FIRST)) && Straight(Record(UNIT_FIRST)) && !FieldsInOrder(UNIT_FIRST)
  {
    hide SortFields, FieldTypes, Flat, FlatAll, Start;
    TwoFields(Unit);
    assert !Before(UNIT_FIRST[0].name, UNIT_FIRST[1].name);
  }

  /** Two booleans out of name order do. */
  lemma BooleansMayNot()
    ensures Proper(Record(OUT_OF_ORDER)) && !Straight(Record(OUT_OF_ORDER))
  {
    hide SortFields, FieldTypes, Flat, FlatAll, Start, Aligned;
    TwoFields(Boolean);
    FirstAligned(OUT_OF_ORDER);
    LeafInPlace();
  }

  lemma FirstAligned(fields: seq<Field>)
    requires |fields| == 2 && SortFields(fields)[1] == fields[0]
    ensures Aligned(Record(fields), 0, 0) ==>
              Aligned(fields[0].of, Start(FieldTypes(fields), 0), Start(FieldTypes(SortFields(fields)), 1))
  {
    hide *;
    if Aligned(Record(fields), 0, 0) { FieldAligned(fields, 0, 0, 0, 1); }
  }

  lemma LeafInPlace()
    ensures !Aligned(Boolean, 0, 1)
  {
  }

  lemma TwoFields(t: Type)
    requires t == Unit || t == Boolean
    ensures var a, b := Field([97], Boolean), Field([98], t);
            && SortFields([b, a]) == [a, b]
            && Start(FieldTypes([b, a]), 0) == 0 && Start(FieldTypes([b, a]), 1) == |Flat(t)|
            && Start(FieldTypes([a, b]), 0) == 0 && Start(FieldTypes([a, b]), 1) == 1
            && |Flat(Unit)| == 0 && |Flat(Boolean)| == 1
  {
    var a, b := Field([97], Boolean), Field([98], t);
    assert [b, a][1..] == [a] && [a][1..] == [];
    assert SortFields([a]) == InsertField(a, []) == [a];
    assert InsertField(b, [a]) == [a] + InsertField(b, []);
    StartNext(FieldTypes([b, a]), 0);
    StartNext(FieldTypes([a, b]), 0);
    NoneBefore(FieldTypes([b, a]));
    NoneBefore(FieldTypes([a, b]));
  }
}
