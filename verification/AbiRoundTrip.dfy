/** What is lowered lifts back, what is written reads back, and parameters survive both paths. */
module AbiRoundTrips {
  import opened AbiLayouts
  import opened AbiLanes
  import opened AbiMarshals
  import opened AbiStoreLoads
  import opened AbiStoreOrders

  /* ---------- types and values ---------- */

  /** Enough for flat lanes: distinct field names, and straight types only inside arrays. */
  ghost predicate Liftable(t: Type)
    decreases Depth(t), 0
  {
    match t
    case Array(element) => Stowable(element)
    case Sealed(_, inner) => Liftable(inner)
    case Record(fields) => DistinctNames(fields) && forall f :: f in fields ==> Liftable(f.of)
    case Variant(cases) => forall c :: c in cases && c.payload.Some? ==> Liftable(c.payload.value)
    case _ => true
  }

  /** Enough for memory: straight all the way down. */
  ghost predicate Stowable(t: Type)
    decreases Depth(t), 1
  {
    Straight(t) && Liftable(t)
  }

  lemma {:induction false} LiftableIsDistinct(t: Type)
    requires Liftable(t)
    ensures FieldsDistinct(t)
    decreases Depth(t)
  {
    match t
    case Sealed(_, inner) => LiftableIsDistinct(inner);
    case Record(fields) =>
      forall f | f in fields ensures FieldsDistinct(f.of) { LiftableIsDistinct(f.of); }
    case Variant(cases) =>
      forall c | c in cases && c.payload.Some? ensures FieldsDistinct(c.payload.value) { LiftableIsDistinct(c.payload.value); }
    case _ =>
  }

  /** Fields and cases in name order all the way down, which ABI 4 calls canonical. */
  ghost predicate Canonical(t: Type)
    decreases Depth(t)
  {
    match t
    case Array(element) => Canonical(element)
    case Sealed(_, inner) => Canonical(inner)
    case Record(fields) => FieldsInOrder(fields) && forall f :: f in fields ==> Canonical(f.of)
    case Variant(cases) =>
      CasesInOrder(cases) && forall c :: c in cases && c.payload.Some? ==> Canonical(c.payload.value)
    case _ => true
  }

  /** The types of ABI 4 can be kept in memory. */
  lemma {:induction false} CanonicalIsStowable(t: Type, at: nat)
    requires Canonical(t)
    ensures Aligned(t, at, at) && CasesStraight(t) && Stowable(t)
    decreases Depth(t), at
  {
    hide Start;
    match t
    case Array(element) => CanonicalIsStowable(element, 0);
    case Sealed(_, inner) =>
      CanonicalIsStowable(inner, at);
      CanonicalIsStowable(inner, 0);
    case Record(fields) =>
      CanonicalFields(fields, at);
      CanonicalFields(fields, 0);
    case Variant(cases) => CanonicalCases(cases, at);
    case _ =>
  }

  lemma CanonicalFields(fields: seq<Field>, at: nat)
    requires Canonical(Record(fields))
    ensures Aligned(Record(fields), at, at) && CasesStraight(Record(fields)) && Liftable(Record(fields))
    decreases Depth(Record(fields)), at, 0
  {
    hide Start, SortFields, Canonical;
    CanonicalParts(Record(fields));
    forall f | f in fields ensures CasesStraight(f.of) && Liftable(f.of) {
      CanonicalIsStowable(f.of, 0);
    }
    forall i, j | 0 <= i < |fields| && 0 <= j < |fields| && fields[i] == fields[j]
      ensures Aligned(fields[i].of, at + Start(FieldTypes(fields), i), at + Start(FieldTypes(fields), j))
    {
      assert i == j;
      assert fields[i] in fields;
      CanonicalIsStowable(fields[i].of, at + Start(FieldTypes(fields), i));
    }
  }

  lemma CanonicalCases(cases: seq<Case>, at: nat)
    requires Canonical(Variant(cases))
    ensures Aligned(Variant(cases), at, at) && CasesStraight(Variant(cases)) && Stowable(Variant(cases))
    decreases Depth(Variant(cases)), at, 0
  {
    hide SortCases, Canonical;
    CanonicalParts(Variant(cases));
    forall c | c in cases && c.payload.Some? ensures Straight(c.payload.value) && Liftable(c.payload.value) {
      CanonicalIsStowable(c.payload.value, 0);
    }
    if |cases| == 1 && cases[0].payload.Some? {
      assert cases[0] in cases;
      CanonicalIsStowable(cases[0].payload.value, at + 1);
      CanonicalIsStowable(cases[0].payload.value, 1);
    }
  }

  lemma CanonicalParts(t: Type)
    requires Canonical(t)
    ensures t.Record? ==> SortFields(t.fields) == t.fields && DistinctNames(t.fields) && forall f :: f in t.fields ==> Canonical(f.of)
    ensures t.Variant? ==> SortCases(t.cases) == t.cases && forall c :: c in t.cases && c.payload.Some? ==> Canonical(c.payload.value)
  {
    if t.Record? {
      SortedFieldsStay(t.fields);
      forall i, j | 0 <= i < j < |t.fields| ensures t.fields[i].name != t.fields[j].name {
        BeforeIsAsymmetric(t.fields[i].name, t.fields[j].name);
      }
    } else if t.Variant? {
      SortedCasesStay(t.cases);
    }
  }

  /** The host value has the ABI type and its arrays fit a memory32 guest; `ok` says which strings
      are admitted. A JavaScript array has fewer than 2^32 elements. */
  ghost predicate HasType(t: Type, v: Value, ok: Text -> bool)
    decreases Depth(t)
  {
    match t
    case Unit => v.Nothing?
    case Boolean => v.Flag?
    case Integer64 => v.Integer? && -0x8000_0000_0000_0000 <= v.integer < 0x8000_0000_0000_0000
    case Float32 => v.Single?
    case Float64 => v.Double?
    case TextType => v.Str? && ok(v.text)
    case Array(element) =>
      && v.List? && |v.items| <= 0xffff_ffff && Size(element) * |v.items| <= 0xffff_ffff
      && forall x :: x in v.items ==> HasType(element, x, ok)
    case Sealed(name, inner) => v.Seal? && v.seal == name && HasType(inner, v.inner, ok)
    case Record(fields) =>
      v.Rec? && |v.members| == |fields| && forall f :: f in fields ==> f.name in v.members && HasType(f.of, v.members[f.name], ok)
    case Variant(cases) =>
      v.Tagged? && FindCase(cases, v.name).Some? && FindCase(cases, v.name).value <= 0xffff_ffff &&
      var selected := cases[FindCase(cases, v.name).value];
      assert selected in cases;
      selected.payload.Some? == v.payload.Some? &&
      (v.payload.Some? ==> HasType(selected.payload.value, v.payload.value, ok))
  }

  /** The strings that decode from their own encoding: those without lone surrogates. */
  ghost function WellFormed(p: Platform): Text -> bool {
    text => p.decode(p.encode(text)) == Some(text)
  }

  /* ---------- lanes ---------- */

  ghost predicate GoodLanes(lanes: seq<Lane>) {
    forall i :: 0 <= i < |lanes| && lanes[i].I32? ==> Memory32(lanes[i]).Ok?
  }

  lemma {:induction false} WidensThenNarrows(lanes: seq<Lane>, types: seq<LaneType>, joined: seq<LaneType>)
    requires TypesOf(lanes) == types && WidensAll(types, joined) && GoodLanes(lanes)
    ensures Widen(lanes, types, joined).Ok?
    ensures var wide := Widen(lanes, types, joined).value;
            && TypesOf(wide) == joined && GoodLanes(wide)
            && Narrow(wide, joined, types).Ok? && SameLanes(Narrow(wide, joined, types).value, lanes)
    decreases |joined|
  {
    hide ConvertLane, SameLane, Memory32, Widens, ZeroLane, TypesOf, GoodLanes, SameLanes, WidensAll;
    if joined == [] {
      NoLanes(lanes, types);
    } else if lanes == [] {
      NoTypes(types);
      ZeroFits(joined[0]);
      NoneWiden(joined[1..]);
      WidensThenNarrows([], [], joined[1..]);
      OneMore(ZeroLane(joined[0]), Widen([], [], joined[1..]).value);
      NoSame();
    } else {
      Rest(lanes, types, joined);
      NarrowsBack(lanes[0], joined[0]);
      WidensThenNarrows(lanes[1..], types[1..], joined[1..]);
      var wide := Widen(lanes[1..], types[1..], joined[1..]).value;
      var first := ConvertLane(lanes[0], types[0], joined[0]).value;
      assert ([first] + wide)[1..] == wide;
      OneMore(first, wide);
      OneMoreSame(ConvertLane(first, joined[0], types[0]).value, Narrow(wide, joined[1..], types[1..]).value, lanes);
    }
  }

  lemma NoLanes(lanes: seq<Lane>, types: seq<LaneType>)
    requires TypesOf(lanes) == types && WidensAll(types, [])
    ensures types == [] && lanes == [] && SameLanes([], lanes) && GoodLanes([]) && TypesOf([]) == []
  {
  }

  lemma NoTypes(types: seq<LaneType>)
    requires TypesOf([]) == types
    ensures types == []
  {
  }

  lemma NoneWiden(joined: seq<LaneType>)
    ensures TypesOf([]) == [] && WidensAll([], joined) && GoodLanes([])
  {
  }

  lemma NoSame()
    ensures SameLanes([], [])
  {
  }

  lemma OneMore(first: Lane, rest: seq<Lane>)
    requires GoodLanes(rest) && (first.I32? ==> Memory32(first).Ok?)
    ensures GoodLanes([first] + rest) && TypesOf([first] + rest) == [TypeOf(first)] + TypesOf(rest)
  {
  }

  lemma OneMoreSame(first: Lane, rest: seq<Lane>, lanes: seq<Lane>)
    requires lanes != [] && SameLane(first, lanes[0]) && SameLanes(rest, lanes[1..])
    ensures SameLanes([first] + rest, lanes)
  {
    hide SameLane;
  }

  lemma Rest(lanes: seq<Lane>, types: seq<LaneType>, joined: seq<LaneType>)
    requires TypesOf(lanes) == types && WidensAll(types, joined) && GoodLanes(lanes) && lanes != []
    ensures types != [] && joined != [] && TypeOf(lanes[0]) == types[0] && Widens(types[0], joined[0])
    ensures TypesOf(lanes[1..]) == types[1..] && WidensAll(types[1..], joined[1..]) && GoodLanes(lanes[1..])
    ensures lanes[0].I32? ==> Memory32(lanes[0]).Ok?
  {
    hide Widens;
  }

  lemma ZeroFits(t: LaneType)
    ensures TypeOf(ZeroLane(t)) == t && (ZeroLane(t).I32? ==> Memory32(ZeroLane(t)).Ok?)
  {
  }

  lemma {:induction false} NarrowsSame(a: seq<Lane>, b: seq<Lane>, joined: seq<LaneType>, types: seq<LaneType>)
    requires SameLanes(a, b)
    ensures Narrow(a, joined, types).Ok? <==> Narrow(b, joined, types).Ok?
    ensures Narrow(a, joined, types).Err? ==> Narrow(a, joined, types) == Narrow(b, joined, types)
    ensures Narrow(a, joined, types).Ok? ==> SameLanes(Narrow(a, joined, types).value, Narrow(b, joined, types).value)
    decreases |types|
  {
    if types != [] && a != [] && joined != [] {
      ConvertsSame(a[0], b[0], joined[0], types[0]);
      NarrowsSame(a[1..], b[1..], joined[1..], types[1..]);
    }
  }

  /** Lifting does not depend on how an `i32` lane is presented. */
  lemma {:induction false} LiftsSame(p: Platform, t: Type, a: seq<Lane>, b: seq<Lane>, bytes: seq<Byte>)
    requires SameLanes(a, b)
    ensures Lift(p, t, a, bytes) == Lift(p, t, b, bytes)
    decreases Depth(t), 1, 0
  {
    if |a| == |Flat(t)| {
      match t
      case Sealed(_, inner) => LiftsSame(p, inner, a, b, bytes);
      case Record(fields) =>
        RecordDepth(fields, fields);
        LiftsAllSame(p, FieldTypes(fields), a, b, bytes);
      case Variant(cases) =>
        if Memory32(a[0]).Ok? && Memory32(a[0]).value < |cases| && cases[Memory32(a[0]).value].payload.Some? {
          var selected := cases[Memory32(a[0]).value];
          assert selected in cases;
          NarrowsSame(a[1..], b[1..], JoinAll(PayloadTypes(cases)), Flat(selected.payload.value));
          var payload := Narrow(a[1..], JoinAll(PayloadTypes(cases)), Flat(selected.payload.value));
          if payload.Ok? {
            LiftsSame(p, selected.payload.value, payload.value,
                      Narrow(b[1..], JoinAll(PayloadTypes(cases)), Flat(selected.payload.value)).value, bytes);
          }
        }
      case _ =>
    }
  }

  lemma {:induction false} LiftsAllSame(p: Platform, types: seq<Type>, a: seq<Lane>, b: seq<Lane>, bytes: seq<Byte>)
    requires SameLanes(a, b)
    ensures LiftAll(p, types, a, bytes) == LiftAll(p, types, b, bytes)
    decreases MaxDepth(types), 2, |types|
  {
    if types != [] && |Flat(types[0])| <= |a| {
      var width := |Flat(types[0])|;
      MaxDepthBound(types[1..], MaxDepth(types));
      LiftsSame(p, types[0], a[..width], b[..width], bytes);
      LiftsAllSame(p, types[1..], a[width..], b[width..], bytes);
    }
  }

  /* ---------- the guest's memory ---------- */

  /** A memory32 guest: at most 2^32 bytes, and everything handed out is inside. */
  ghost predicate HeapOk(h: Heap) {
    |h.bytes| <= 0x1_0000_0000 && forall a :: a in h.owned ==> a < |h.bytes|
  }

  /** The bytes at these addresses, but for `[low, high)`, are the same in both. */
  ghost predicate Kept(a: seq<Byte>, b: seq<Byte>, where: set<nat>, low: nat, high: nat) {
    forall x {:trigger x in where} :: x in where && !(low <= x < high) ==> x < |a| && x < |b| && a[x] == b[x]
  }

  /** From one heap to a later one: what was handed out stays so, and keeps its bytes outside
      `[low, high)`. */
  ghost predicate Extends(h: Heap, g: Heap, low: nat, high: nat) {
    HeapOk(g) && h.owned <= g.owned && |h.bytes| <= |g.bytes| && Kept(h.bytes, g.bytes, h.owned, low, high)
  }

  /** What the guest's allocator promises: an aligned range inside memory, disjoint from all earlier
      ones, whose bytes it leaves alone; null is never the address of anything. It may refuse. */
  ghost predicate GrantOk(h: Heap, n: nat, alignment: nat, grant: Grant) {
    grant.Granted? ==>
      && Extends(h, grant.heap, 0, 0)
      && (forall a {:trigger a in grant.heap.owned} ::
            a in grant.heap.owned <==> a in h.owned || grant.pointer <= a < grant.pointer + n)
      && (forall a {:trigger a in h.owned} :: a in h.owned ==> !(grant.pointer <= a < grant.pointer + n))
      && grant.pointer < 0x1_0000_0000 && grant.pointer + n <= |grant.heap.bytes|
      && (alignment > 0 ==> grant.pointer % alignment == 0)
      && (n > 0 ==> grant.pointer != 0)
  }

  ghost predicate GoodAllocator(p: Platform) {
    forall h: Heap, n: nat, alignment: nat :: HeapOk(h) ==> GrantOk(h, n, alignment, p.allocate(h, n, alignment))
  }

  lemma ExtendsTrans(h: Heap, g: Heap, k: Heap, low: nat, high: nat)
    requires Extends(h, g, low, high) && Extends(g, k, low, high)
    ensures Extends(h, k, low, high)
  {
  }

  lemma ExtendsWider(h: Heap, g: Heap, low: nat, high: nat, lower: nat, higher: nat)
    requires Extends(h, g, low, high) && (low == high || (lower <= low && high <= higher))
    ensures Extends(h, g, lower, higher)
  {
  }

  lemma ExtendsSame(h: Heap)
    requires HeapOk(h)
    ensures Extends(h, h, 0, 0)
  {
  }

  lemma TypesOfAppend(a: seq<Lane>, b: seq<Lane>)
    ensures TypesOf(a + b) == TypesOf(a) + TypesOf(b)
    ensures GoodLanes(a) && GoodLanes(b) ==> GoodLanes(a + b)
  {
  }

  /** Lowering yields lanes of the flat type, and touches no byte that was handed out before. */
  lemma {:induction false} LowerKeeps(p: Platform, ok: Text -> bool, t: Type, v: Value, h: Heap)
    requires GoodAllocator(p) && HeapOk(h) && Lower(p, t, v, h).Ok?
    requires HasType(t, v, ok)
    ensures Extends(h, Lower(p, t, v, h).value.heap, 0, 0)
    ensures TypesOf(Lower(p, t, v, h).value.lanes) == Flat(t) && GoodLanes(Lower(p, t, v, h).value.lanes)
    decreases Depth(t), 2, 0
  {
    match t
    case Sealed(_, inner) => LowerKeeps(p, ok, inner, v.inner, h);
    case Record(fields) =>
      RecordDepth(fields, fields);
      forall i | 0 <= i < |fields| && Pick(v.members, fields)[i].Some?
        ensures HasType(FieldTypes(fields)[i], Pick(v.members, fields)[i].value, ok)
      {
        assert fields[i] in fields;
      }
      LowerAllKeeps(p, ok, FieldTypes(fields), Pick(v.members, fields), h);
    case Variant(cases) => LowerVariantKeeps(p, ok, cases, v.name, v.payload, h);
    case TextType => LowerTextKeeps(p, v.text, h);
    case Array(element) => LowerArrayKeeps(p, ok, element, v.items, h);
    case _ => ExtendsSame(h);
  }

  lemma LowerTextKeeps(p: Platform, text: Text, h: Heap)
    requires GoodAllocator(p) && HeapOk(h) && LowerText(p, text, h).Ok?
    ensures Extends(h, LowerText(p, text, h).value.heap, 0, 0)
    ensures TypesOf(LowerText(p, text, h).value.lanes) == [LaneI32, LaneI32] && GoodLanes(LowerText(p, text, h).value.lanes)
  {
    var data := p.encode(text);
    var grant := p.allocate(h, |data|, 1);
    assert GrantOk(h, |data|, 1, grant);
    var g := LowerText(p, text, h).value.heap;
  }

  lemma LowerArrayKeeps(p: Platform, ok: Text -> bool, element: Type, items: seq<Value>, h: Heap)
    requires GoodAllocator(p) && HeapOk(h) && LowerArray(p, element, items, h).Ok?
    requires |items| <= 0xffff_ffff && forall x :: x in items ==> HasType(element, x, ok)
    ensures Extends(h, LowerArray(p, element, items, h).value.heap, 0, 0)
    ensures TypesOf(LowerArray(p, element, items, h).value.lanes) == [LaneI32, LaneI32]
    ensures GoodLanes(LowerArray(p, element, items, h).value.lanes)
    decreases Depth(Array(element)), 1, 0
  {
    hide *;
    var size, n := Size(element) * |items|, |items|;
    var alignment := LayoutOf(element).alignment;
    var grant := p.allocate(h, size, alignment);
    LowersArray(p, element, items, h);
    Grants(p, h, size, alignment);
    GrantedHeap(h, size, alignment, grant);
    ArrayDepth(element, n);
    StridesFit(element, grant.pointer, n);
    EachElement(element, items, ok);
    var slots := Strides(grant.pointer, Size(element), n);
    var k := WriteValues(p, Repeat(element, n), items, slots, grant.heap).value;
    WriteValuesKeeps(p, ok, Repeat(element, n), items, slots, grant.heap, grant.pointer, grant.pointer + size);
    FillsGrant(h, size, alignment, grant, k);
    PairOfLanes(grant.pointer, n);
  }

  lemma PairOfLanes(pointer: nat, n: nat)
    requires pointer <= 0xffff_ffff && n <= 0xffff_ffff
    ensures TypesOf([I32(pointer), I32(n)]) == [LaneI32, LaneI32] && GoodLanes([I32(pointer), I32(n)])
  {
  }

  lemma EachElement(element: Type, items: seq<Value>, ok: Text -> bool)
    requires forall x :: x in items ==> HasType(element, x, ok)
    ensures forall i :: 0 <= i < |items| ==> HasType(Repeat(element, |items|)[i], items[i], ok)
  {
  }

  /** Filling a range that was just granted leaves everything older alone. */
  lemma FillsGrant(h: Heap, n: nat, alignment: nat, grant: Grant, k: Heap)
    requires GrantOk(h, n, alignment, grant) && grant.Granted?
    requires Extends(grant.heap, k, grant.pointer, grant.pointer + n)
    ensures Extends(h, k, 0, 0)
  {
  }

  lemma LowerVariantKeeps(p: Platform, ok: Text -> bool, cases: seq<Case>, name: Text, payload: Option<Value>, h: Heap)
    requires GoodAllocator(p) && HeapOk(h) && LowerVariant(p, cases, name, payload, h).Ok?
    requires HasType(Variant(cases), Tagged(name, payload), ok)
    ensures Extends(h, LowerVariant(p, cases, name, payload, h).value.heap, 0, 0)
    ensures TypesOf(LowerVariant(p, cases, name, payload, h).value.lanes) == Flat(Variant(cases))
    ensures GoodLanes(LowerVariant(p, cases, name, payload, h).value.lanes)
    decreases Depth(Variant(cases)), 1, 0
  {
    hide GoodAllocator, HeapOk, Extends, JoinAll, Widen, TypesOf, WidensAll, GoodLanes;
    var index := FindCase(cases, name).value;
    var selected := cases[index];
    assert selected in cases;
    VariantDepth(cases, cases);
    var lowered := if payload.None? then Lowered([], h) else Lower(p, selected.payload.value, payload.value, h).value;
    if payload.Some? {
      LowerKeeps(p, ok, selected.payload.value, payload.value, h);
    } else {
      ExtendsSame(h);
      NoneWiden([]);
    }
    SmallIndex(index);
    JoinAllIsWideEnough(PayloadTypes(cases), index);
    assert PayloadTypes(cases)[index] == PayloadType(selected);
    WidensThenNarrows(lowered.lanes, Flat(PayloadType(selected)), JoinAll(PayloadTypes(cases)));
    TypesOfAppend([I32(index)], Widen(lowered.lanes, Flat(PayloadType(selected)), JoinAll(PayloadTypes(cases))).value);
  }

  lemma SmallIndex(index: nat)
    requires index <= 0xffff_ffff
    ensures GoodLanes([I32(index)]) && TypesOf([I32(index)]) == [LaneI32]
  {
  }

  lemma {:induction false} LowerAllKeeps(p: Platform, ok: Text -> bool, types: seq<Type>, values: seq<Option<Value>>, h: Heap)
    requires GoodAllocator(p) && HeapOk(h) && |types| == |values| && LowerAll(p, types, values, h).Ok?
    requires forall i :: 0 <= i < |types| && values[i].Some? ==> HasType(types[i], values[i].value, ok)
    ensures Extends(h, LowerAll(p, types, values, h).value.heap, 0, 0)
    ensures TypesOf(LowerAll(p, types, values, h).value.lanes) == FlatAll(types)
    ensures GoodLanes(LowerAll(p, types, values, h).value.lanes)
    decreases MaxDepth(types), 4, |types|
  {
    if types == [] {
      ExtendsSame(h);
    } else {
      MaxDepthBound(types[1..], MaxDepth(types));
      LowerKeeps(p, ok, types[0], values[0].value, h);
      var first := Lower(p, types[0], values[0].value, h).value;
      LowerAllKeeps(p, ok, types[1..], values[1..], first.heap);
      var rest := LowerAll(p, types[1..], values[1..], first.heap).value;
      ExtendsTrans(h, first.heap, rest.heap, 0, 0);
      TypesOfAppend(first.lanes, rest.lanes);
    }
  }

  lemma WriteKeeps(p: Platform, ok: Text -> bool, t: Type, v: Value, at: nat, h: Heap)
    requires GoodAllocator(p) && HeapOk(h) && HasType(t, v, ok) && Write(p, t, v, at, h).Ok?
    ensures Extends(h, Write(p, t, v, at, h).value, at, at + Size(t))
    decreases Depth(t), 3, 0
  {
    LowerKeeps(p, ok, t, v, h);
    var lowered := Lower(p, t, v, h).value;
    WriteFlatStaysInside(t, lowered.lanes, at, lowered.heap.bytes);
  }

  lemma {:induction false} WriteValuesKeeps(
    p: Platform, ok: Text -> bool, types: seq<Type>, values: seq<Value>, slots: seq<nat>, h: Heap, low: nat, high: nat)
    requires GoodAllocator(p) && HeapOk(h) && |types| == |values| == |slots| && Fits(types, slots, low, high)
    requires forall i :: 0 <= i < |types| ==> HasType(types[i], values[i], ok)
    requires WriteValues(p, types, values, slots, h).Ok?
    ensures low <= high && Extends(h, WriteValues(p, types, values, slots, h).value, low, high)
    decreases MaxDepth(types), 4, |types|
  {
    FitsWithin(types, slots, low, high);
    if types == [] {
      ExtendsSame(h);
      ExtendsWider(h, h, 0, 0, low, high);
    } else {
      MaxDepthBound(types[1..], MaxDepth(types));
      var next := slots[0] + Size(types[0]);
      WriteKeeps(p, ok, types[0], values[0], slots[0], h);
      var first := Write(p, types[0], values[0], slots[0], h).value;
      WriteValuesKeeps(p, ok, types[1..], values[1..], slots[1..], first, next, high);
      var last := WriteValues(p, types, values, slots, h).value;
      ExtendsWider(h, first, slots[0], next, low, high);
      ExtendsWider(first, last, next, high, low, high);
      ExtendsTrans(h, first, last, low, high);
    }
  }

  /* ---------- round trips ---------- */

  ghost predicate Owns(h: Heap, low: nat, high: nat) {
    forall x {:trigger x in h.owned} :: low <= x < high ==> x in h.owned
  }

  /** `b` still shows what was handed out between `h` and `g`, and what `[low, high)` holds in `g`. */
  ghost predicate Shows(b: seq<Byte>, g: Heap, h: Heap, low: nat, high: nat) {
    |g.bytes| <= |b| &&
    forall x {:trigger x in g.owned} ::
      x in g.owned && (x !in h.owned || low <= x < high) ==> x < |g.bytes| && b[x] == g.bytes[x]
  }

  /** Lifting a lowered value gives it back, in any later memory that still shows its allocations. */
  lemma {:induction false} LowerThenLift(p: Platform, t: Type, v: Value, h: Heap, b: seq<Byte>)
    requires GoodAllocator(p) && HeapOk(h) && Liftable(t) && HasType(t, v, WellFormed(p)) && Lower(p, t, v, h).Ok?
    requires Shows(b, Lower(p, t, v, h).value.heap, h, 0, 0)
    ensures Lift(p, t, Lower(p, t, v, h).value.lanes, b) == Ok(v)
    decreases Depth(t), 2, 0
  {
    match t
    case Sealed(_, inner) => LowerThenLift(p, inner, v.inner, h, b);
    case Record(fields) => LowerThenLiftRecord(p, fields, v.members, h, b);
    case Variant(cases) => LowerThenLiftVariant(p, cases, v.name, v.payload, h, b);
    case TextType => LowerThenLiftText(p, v.text, h, b);
    case Array(element) => LowerThenLiftArray(p, element, v.items, h, b);
    case _ =>
  }

  lemma LowerThenLiftText(p: Platform, text: Text, h: Heap, b: seq<Byte>)
    requires GoodAllocator(p) && HeapOk(h) && WellFormed(p)(text) && LowerText(p, text, h).Ok?
    requires Shows(b, LowerText(p, text, h).value.heap, h, 0, 0)
    ensures Lift(p, TextType, LowerText(p, text, h).value.lanes, b) == Ok(Str(text))
  {
    var data := p.encode(text);
    var grant := p.allocate(h, |data|, 1);
    assert GrantOk(h, |data|, 1, grant);
    var g, at := LowerText(p, text, h).value.heap, grant.pointer;
    assert g.bytes[at..at + |data|] == data;
    forall i | 0 <= i < |data| ensures b[at + i] == data[i] {
      assert at + i in g.owned && g.bytes[at..at + |data|][i] == g.bytes[at + i];
    }
    assert b[at..at + |data|] == data;
  }

  lemma LowerThenLiftArray(p: Platform, element: Type, items: seq<Value>, h: Heap, b: seq<Byte>)
    requires GoodAllocator(p) && HeapOk(h) && Stowable(element)
    requires HasType(Array(element), List(items), WellFormed(p)) && LowerArray(p, element, items, h).Ok?
    requires Shows(b, LowerArray(p, element, items, h).value.heap, h, 0, 0)
    ensures Lift(p, Array(element), LowerArray(p, element, items, h).value.lanes, b) == Ok(List(items))
    decreases Depth(Array(element)), 1, 0
  {
    hide *;
    var size, n := Size(element) * |items|, |items|;
    var alignment := LayoutOf(element).alignment;
    var grant := p.allocate(h, size, alignment);
    LowersArray(p, element, items, h);
    var slots := Strides(grant.pointer, Size(element), n);
    var k := WriteValues(p, Repeat(element, n), items, slots, grant.heap);
    Grants(p, h, size, alignment);
    TypedItems(element, items, WellFormed(p));
    ArrayDepth(element, n);
    StridesFit(element, grant.pointer, n);
    EachElement(element, items, WellFormed(p));
    EachStowable(element, n);
    GrantedHeap(h, size, alignment, grant);
    WriteValuesKeeps(p, WellFormed(p), Repeat(element, n), items, slots, grant.heap, grant.pointer, grant.pointer + size);
    GrantShows(h, size, alignment, grant, k.value, b);
    WriteThenReadAll(p, Repeat(element, n), items, slots, grant.heap, grant.pointer, grant.pointer + size, b);
    LiftsArray(p, element, grant.pointer, n, items, b);
  }

  lemma TypedItems(element: Type, items: seq<Value>, ok: Text -> bool)
    requires HasType(Array(element), List(items), ok)
    ensures |items| <= 0xffff_ffff && Size(element) * |items| <= 0xffff_ffff && forall x :: x in items ==> HasType(element, x, ok)
  {
  }

  lemma Grants(p: Platform, h: Heap, n: nat, alignment: nat)
    requires GoodAllocator(p) && HeapOk(h)
    ensures GrantOk(h, n, alignment, p.allocate(h, n, alignment))
  {
    hide HeapOk, GrantOk;
  }

  lemma GrantedHeap(h: Heap, n: nat, alignment: nat, grant: Grant)
    requires GrantOk(h, n, alignment, grant) && grant.Granted?
    ensures HeapOk(grant.heap) && grant.pointer < 0x1_0000_0000
  {
  }

  lemma GrantShows(h: Heap, n: nat, alignment: nat, grant: Grant, k: Heap, b: seq<Byte>)
    requires GrantOk(h, n, alignment, grant) && grant.Granted?
    requires Extends(grant.heap, k, grant.pointer, grant.pointer + n) && Shows(b, k, h, 0, 0)
    ensures Owns(grant.heap, grant.pointer, grant.pointer + n)
    ensures Shows(b, k, grant.heap, grant.pointer, grant.pointer + n)
    ensures grant.pointer < 0x1_0000_0000 && grant.pointer + n <= |b|
    ensures (alignment > 0 ==> grant.pointer % alignment == 0) && (n > 0 ==> grant.pointer != 0)
  {
  }

  lemma LowersArray(p: Platform, element: Type, items: seq<Value>, h: Heap)
    requires LowerArray(p, element, items, h).Ok?
    ensures var size, n := Size(element) * |items|, |items|;
            var grant := p.allocate(h, size, LayoutOf(element).alignment);
            && grant.Granted?
            && var k := WriteValues(p, Repeat(element, n), items, Strides(grant.pointer, Size(element), n), grant.heap);
               k.Ok? && LowerArray(p, element, items, h) == Ok(Lowered([I32(grant.pointer), I32(n)], k.value))
  {
    hide LayoutOf, Strides, Repeat, WriteValues;
  }

  lemma LiftsArray(p: Platform, element: Type, pointer: nat, n: nat, items: seq<Value>, b: seq<Byte>)
    requires pointer < 0x1_0000_0000 && n < 0x1_0000_0000 && pointer + Size(element) * n <= |b|
    requires ReadAll(p, Repeat(element, n), Strides(pointer, Size(element), n), b) == Ok(items)
    ensures Lift(p, Array(element), [I32(pointer), I32(n)], b) == Ok(List(items))
  {
    hide LayoutOf, Strides, Repeat, ReadAll;
    assert Memory32(I32(pointer)) == Ok(pointer) && Memory32(I32(n)) == Ok(n);
  }

  lemma EachStowable(element: Type, n: nat)
    requires Stowable(element)
    ensures forall i :: 0 <= i < n ==> Stowable(Repeat(element, n)[i])
  {
  }

  lemma LowerThenLiftVariant(p: Platform, cases: seq<Case>, name: Text, payload: Option<Value>, h: Heap, b: seq<Byte>)
    requires GoodAllocator(p) && HeapOk(h) && Liftable(Variant(cases))
    requires HasType(Variant(cases), Tagged(name, payload), WellFormed(p)) && LowerVariant(p, cases, name, payload, h).Ok?
    requires Shows(b, LowerVariant(p, cases, name, payload, h).value.heap, h, 0, 0)
    ensures Lift(p, Variant(cases), LowerVariant(p, cases, name, payload, h).value.lanes, b) == Ok(Tagged(name, payload))
    decreases Depth(Variant(cases)), 1, 0
  {
    hide WellFormed, HeapOk, Shows, GoodAllocator, Extends, GoodLanes, SameLanes, JoinAll, Widen, Narrow, WidensAll, TypesOf, Lower, Lift, Flat;
    var index := FindCase(cases, name).value;
    var selected, joined := cases[index], JoinAll(PayloadTypes(cases));
    assert selected in cases;
    VariantDepth(cases, cases);
    LowerVariantKeeps(p, WellFormed(p), cases, name, payload, h);
    var lanes := LowerVariant(p, cases, name, payload, h).value.lanes;
    LaneCount(lanes, Flat(Variant(cases)));
    LiftsCase(p, cases, index, lanes, b);
    if payload.Some? {
      var inner := selected.payload.value;
      var lowered := Lower(p, inner, payload.value, h).value;
      LowerKeeps(p, WellFormed(p), inner, payload.value, h);
      JoinAllIsWideEnough(PayloadTypes(cases), index);
      WidensThenNarrows(lowered.lanes, Flat(inner), joined);
      LowerThenLift(p, inner, payload.value, h, b);
      LiftsSame(p, inner, Narrow(Widen(lowered.lanes, Flat(inner), joined).value, joined, Flat(inner)).value, lowered.lanes, b);
    }
  }

  lemma LiftsCase(p: Platform, cases: seq<Case>, index: nat, lanes: seq<Lane>, b: seq<Byte>)
    requires |lanes| == |Flat(Variant(cases))| && index < |cases| && index <= 0xffff_ffff && lanes != [] && lanes[0] == I32(index)
    ensures cases[index].payload.None? ==> Lift(p, Variant(cases), lanes, b) == Ok(Tagged(cases[index].name, None))
    ensures cases[index].payload.Some? ==>
              var payload := Narrow(lanes[1..], JoinAll(PayloadTypes(cases)), Flat(cases[index].payload.value));
              payload.Ok? ==> Lift(p, Variant(cases), lanes, b) == Tagging(cases[index].name, Lift(p, cases[index].payload.value, payload.value, b))
  {
    hide Flat, JoinAll, Narrow, PayloadTypes;
  }

  lemma LaneCount(lanes: seq<Lane>, types: seq<LaneType>)
    requires TypesOf(lanes) == types
    ensures |lanes| == |types|
  {
  }

  lemma LowerThenLiftRecord(p: Platform, fields: seq<Field>, members: map<Text, Value>, h: Heap, b: seq<Byte>)
    requires GoodAllocator(p) && HeapOk(h) && Liftable(Record(fields))
    requires HasType(Record(fields), Rec(members), WellFormed(p)) && Lower(p, Record(fields), Rec(members), h).Ok?
    requires Shows(b, Lower(p, Record(fields), Rec(members), h).value.heap, h, 0, 0)
    ensures Lift(p, Record(fields), Lower(p, Record(fields), Rec(members), h).value.lanes, b) == Ok(Rec(members))
    decreases Depth(Record(fields)), 1, 0
  {
    hide WellFormed, HeapOk, Shows, GoodAllocator, LowerAll, LiftAll, Collect, TypesOf;
    RecordDepth(fields, fields);
    var types, values := FieldTypes(fields), seq(|fields|, i requires 0 <= i < |fields| => members[fields[i].name]);
    forall i | 0 <= i < |fields| ensures HasType(types[i], values[i], WellFormed(p)) && Liftable(types[i]) {
      assert fields[i] in fields;
    }
    assert Pick(members, fields) == AllSome(values);
    LowerAllThenLift(p, types, values, h, b);
    LaneCount(LowerAll(p, types, AllSome(values), h).value.lanes, FlatAll(types));
    CollectsAll(fields, members);
  }

  /** Setting every field of a record with distinct names gives exactly its members. */
  lemma CollectsAll(fields: seq<Field>, members: map<Text, Value>)
    requires DistinctNames(fields) && |members| == |fields| && forall f :: f in fields ==> f.name in members
    ensures Collect(fields, seq(|fields|, i requires 0 <= i < |fields| => members[fields[i].name])) == members
  {
    hide DistinctNames, Collect;
    var values := seq(|fields|, i requires 0 <= i < |fields| => members[fields[i].name]);
    Collects(fields, values);
    var names := set f | f in fields :: f.name;
    NamesCount(fields);
    assert names <= members.Keys;
    SameSize(names, members.Keys);
    assert |members.Keys| == |members|;
    forall name | name in members ensures name in Collect(fields, values) {
      assert name in names;
    }
  }

  lemma SameSize<T>(a: set<T>, b: set<T>)
    requires a <= b && |a| == |b|
    ensures a == b
  {
    forall x | x in b ensures x in a {
      Larger(a, b, x);
    }
  }

  lemma {:induction false} Larger<T>(a: set<T>, b: set<T>, x: T)
    requires a <= b && x in b
    ensures x in a || |a| < |b|
  {
    if a != {} && x !in a {
      var y :| y in a;
      Larger(a - {y}, b - {y}, x);
    }
  }

  lemma {:induction false} NamesCount(fields: seq<Field>)
    requires DistinctNames(fields)
    ensures |set f | f in fields :: f.name| == |fields|
  {
    if fields != [] {
      var last := |fields| - 1;
      NamesCount(fields[..last]);
      assert (set f | f in fields :: f.name) == (set f | f in fields[..last] :: f.name) + {fields[last].name};
    }
  }

  lemma {:induction false} LowerAllThenLift(p: Platform, types: seq<Type>, values: seq<Value>, h: Heap, b: seq<Byte>)
    requires GoodAllocator(p) && HeapOk(h) && |types| == |values| && LowerAll(p, types, AllSome(values), h).Ok?
    requires forall i :: 0 <= i < |types| ==> HasType(types[i], values[i], WellFormed(p)) && Liftable(types[i])
    requires Shows(b, LowerAll(p, types, AllSome(values), h).value.heap, h, 0, 0)
    ensures LiftAll(p, types, LowerAll(p, types, AllSome(values), h).value.lanes, b) == Ok(values)
    ensures TypesOf(LowerAll(p, types, AllSome(values), h).value.lanes) == FlatAll(types)
    decreases MaxDepth(types), 4, |types|
  {
    hide WellFormed, HasType, Liftable, GoodAllocator, HeapOk, Extends, Shows, Lower, Lift, TypesOf, GoodLanes;
    LowerAllKeeps(p, WellFormed(p), types, AllSome(values), h);
    if types != [] {
      MaxDepthBound(types[1..], MaxDepth(types));
      assert AllSome(values)[1..] == AllSome(values[1..]);
      var first := Lower(p, types[0], values[0], h).value;
      LowerKeeps(p, WellFormed(p), types[0], values[0], h);
      LowerAllKeeps(p, WellFormed(p), types[1..], AllSome(values[1..]), first.heap);
      var rest := LowerAll(p, types[1..], AllSome(values[1..]), first.heap).value;
      LaneCount(first.lanes, Flat(types[0]));
      ExtendsHeap(h, first.heap, 0, 0);
      ShowsEach(h, first.heap, rest.heap, b);
      LowerThenLift(p, types[0], values[0], h, b);
      LowerAllThenLift(p, types[1..], values[1..], first.heap, b);
      assert (first.lanes + rest.lanes)[..|first.lanes|] == first.lanes;
      assert (first.lanes + rest.lanes)[|first.lanes|..] == rest.lanes;
      assert values == [values[0]] + values[1..];
    }
  }

  lemma ShowsEach(h: Heap, first: Heap, last: Heap, b: seq<Byte>)
    requires Extends(h, first, 0, 0) && Extends(first, last, 0, 0) && Shows(b, last, h, 0, 0)
    ensures Shows(b, first, h, 0, 0) && Shows(b, last, first, 0, 0)
  {
  }

  lemma StowableParts(t: Type)
    requires Stowable(t)
    ensures Straight(t) && Liftable(t) && FieldsDistinct(t)
  {
    LiftableIsDistinct(t);
  }

  /** Reading a written value gives it back. */
  lemma WriteThenRead(p: Platform, t: Type, v: Value, at: nat, h: Heap, b: seq<Byte>)
    requires GoodAllocator(p) && HeapOk(h) && Stowable(t) && HasType(t, v, WellFormed(p))
    requires Owns(h, at, at + Size(t)) && Write(p, t, v, at, h).Ok?
    requires Shows(b, Write(p, t, v, at, h).value, h, at, at + Size(t))
    ensures ReadMemory(p, t, b, at) == Ok(v)
    decreases Depth(t), 3, 0
  {
    hide Stowable, WellFormed, Lower, LayoutOf, HasType;
    var lowered := Lower(p, t, v, h).value;
    LowerKeeps(p, WellFormed(p), t, v, h);
    WriteFlatStaysInside(t, lowered.lanes, at, lowered.heap.bytes);
    StowableParts(t);
    LowerThenLift(p, t, v, h, b);
    StraightLifts(p, t, lowered.lanes, b);
    RoomInside(h, lowered.heap, WriteFlat(t, lowered.lanes, at, lowered.heap.bytes).value, at, at + Size(t), b);
    StoreThenLoad(p, t, lowered.lanes, at, lowered.heap.bytes, b);
  }

  lemma RoomInside(h: Heap, g: Heap, stored: seq<Byte>, low: nat, high: nat, b: seq<Byte>)
    requires HeapOk(h) && Extends(h, g, 0, 0) && Owns(h, low, high) && low <= high && Outside(g.bytes, stored, low, high)
    requires Shows(b, g.(bytes := stored), h, low, high)
    ensures Agree(stored, b, low, high)
  {
    forall x | low <= x < high ensures x < |stored| && stored[x] == b[x] {
      assert x in g.(bytes := stored).owned;
    }
    if low < high {
      assert high - 1 in h.owned;
    }
  }

  lemma {:induction false} WriteThenReadAll(
    p: Platform, types: seq<Type>, values: seq<Value>, slots: seq<nat>, h: Heap, low: nat, high: nat, b: seq<Byte>)
    requires GoodAllocator(p) && HeapOk(h) && |types| == |values| == |slots| && Fits(types, slots, low, high)
    requires forall i :: 0 <= i < |types| ==> Stowable(types[i]) && HasType(types[i], values[i], WellFormed(p))
    requires Owns(h, low, high) && WriteValues(p, types, values, slots, h).Ok?
    requires Shows(b, WriteValues(p, types, values, slots, h).value, h, low, high)
    ensures ReadAll(p, types, slots, b) == Ok(values)
    decreases MaxDepth(types), 4, |types|
  {
    hide Stowable, WellFormed, HasType, GoodAllocator, HeapOk, Extends, Shows, Owns, LayoutOf, Write;
    if types != [] {
      MaxDepthBound(types[1..], MaxDepth(types));
      var next := slots[0] + Size(types[0]);
      var first := Write(p, types[0], values[0], slots[0], h).value;
      var last := WriteValues(p, types, values, slots, h).value;
      FitsWithin(types, slots, low, high);
      WriteKeeps(p, WellFormed(p), types[0], values[0], slots[0], h);
      WriteValuesKeeps(p, WellFormed(p), types[1..], values[1..], slots[1..], first, next, high);
      ExtendsHeap(h, first, slots[0], next);
      ShowsBoth(h, first, last, low, high, slots[0], next, b);
      WriteThenRead(p, types[0], values[0], slots[0], h, b);
      WriteThenReadAll(p, types[1..], values[1..], slots[1..], first, next, high, b);
      assert values == [values[0]] + values[1..];
    }
  }

  lemma ExtendsHeap(h: Heap, g: Heap, low: nat, high: nat)
    requires Extends(h, g, low, high)
    ensures HeapOk(g)
  {
  }

  /** Bytes that show a block after both parts were written show each part after its own writing. */
  lemma ShowsBoth(h: Heap, first: Heap, last: Heap, low: nat, high: nat, slot: nat, next: nat, b: seq<Byte>)
    requires HeapOk(h) && Owns(h, low, high) && low <= slot <= next <= high
    requires Extends(h, first, slot, next) && Extends(first, last, next, high)
    requires Shows(b, last, h, low, high)
    ensures Owns(h, slot, next) && Owns(first, next, high)
    ensures Shows(b, first, h, slot, next) && Shows(b, last, first, next, high)
  {
  }

  /** Parameters survive the boundary, as flat lanes and as a parameter block. */
  lemma ParametersRoundTrip(p: Platform, types: seq<Type>, values: seq<Value>, h: Heap, b: seq<Byte>)
    requires GoodAllocator(p) && HeapOk(h) && LowerParameters(p, types, values, h).Ok?
    requires |types| == |values| && forall i :: 0 <= i < |types| ==> HasType(types[i], values[i], WellFormed(p))
    requires forall i :: 0 <= i < |types| ==>
               if |FlatAll(types)| <= MAXIMUM_FLAT_PARAMETERS then Liftable(types[i]) else Stowable(types[i])
    requires Shows(b, LowerParameters(p, types, values, h).value.heap, h, 0, 0)
    ensures LiftParameters(p, types, LowerParameters(p, types, values, h).value.lanes, b) == Ok(values)
  {
    hide Stowable, WellFormed, HasType, Liftable, LowerAll, LiftAll, FlatAll, ReadAll, WriteValues, Slots, Fits, Block;
    if |FlatAll(types)| <= MAXIMUM_FLAT_PARAMETERS {
      LowerAllThenLift(p, types, values, h, b);
      LaneCount(LowerAll(p, types, AllSome(values), h).value.lanes, FlatAll(types));
    } else {
      var layout := Block(types);
      var grant := p.allocate(h, layout.size, layout.alignment);
      assert GrantOk(h, layout.size, layout.alignment, grant);
      BlockHolds(types, grant.pointer);
      BlockTakesRoom(types);
      var slots := Slots(types, grant.pointer, 0);
      WriteThenReadAll(p, types, values, slots, grant.heap, grant.pointer, grant.pointer + layout.size, b);
      WriteValuesKeeps(p, WellFormed(p), types, values, slots, grant.heap, grant.pointer, grant.pointer + layout.size);
    }
  }

  lemma BlockTakesRoom(types: seq<Type>)
    ensures FlatAll(types) != [] ==> Block(types).size > 0
    ensures Block(types).alignment > 0
  {
    if FlatAll(types) != [] {
      var k := SomeLanes(types);
      LanesTakeRoom(types[k]);
      EndHolds(types, 0, k);
    }
  }

  /* ---------- lowering succeeds ---------- */

  /** The only thing that stops a well-typed value is an allocator that refuses. */
  lemma {:induction false} OnlyTheAllocatorRefuses(p: Platform, t: Type, v: Value, h: Heap)
    requires GoodAllocator(p) && HeapOk(h) && Liftable(t) && HasType(t, v, WellFormed(p))
    ensures Lower(p, t, v, h).Ok? || Lower(p, t, v, h) == Err(Refused)
    decreases Depth(t), 2, 0
  {
    match t
    case Sealed(_, inner) => OnlyTheAllocatorRefuses(p, inner, v.inner, h);
    case TextType => Grants(p, h, |p.encode(v.text)|, 1);
    case Array(element) => ArrayRefusals(p, element, v.items, h);
    case Record(fields) =>
      RecordDepth(fields, fields);
      var values := seq(|fields|, i requires 0 <= i < |fields| => v.members[fields[i].name]);
      forall i | 0 <= i < |fields| ensures HasType(FieldTypes(fields)[i], values[i], WellFormed(p)) && Liftable(FieldTypes(fields)[i]) {
        assert fields[i] in fields;
      }
      assert Pick(v.members, fields) == AllSome(values);
      AllRefusals(p, FieldTypes(fields), values, h);
    case Variant(cases) => VariantRefusals(p, cases, v.name, v.payload, h);
    case _ =>
  }

  lemma VariantRefusals(p: Platform, cases: seq<Case>, name: Text, payload: Option<Value>, h: Heap)
    requires GoodAllocator(p) && HeapOk(h) && Liftable(Variant(cases)) && HasType(Variant(cases), Tagged(name, payload), WellFormed(p))
    ensures LowerVariant(p, cases, name, payload, h).Ok? || LowerVariant(p, cases, name, payload, h) == Err(Refused)
    decreases Depth(Variant(cases)), 1, 0
  {
    hide WellFormed, HeapOk, GoodAllocator, Extends, GoodLanes, JoinAll, Widen, WidensAll, TypesOf, Lower;
    var index := FindCase(cases, name).value;
    var selected := cases[index];
    assert selected in cases;
    VariantDepth(cases, cases);
    JoinAllIsWideEnough(PayloadTypes(cases), index);
    PayloadCase(cases, index);
    if payload.Some? {
      OnlyTheAllocatorRefuses(p, selected.payload.value, payload.value, h);
      if Lower(p, selected.payload.value, payload.value, h).Ok? {
        LowerKeeps(p, WellFormed(p), selected.payload.value, payload.value, h);
        WidensThenNarrows(Lower(p, selected.payload.value, payload.value, h).value.lanes, Flat(PayloadType(selected)), JoinAll(PayloadTypes(cases)));
      }
    } else {
      NoneWiden([]);
      WidensThenNarrows([], Flat(PayloadType(selected)), JoinAll(PayloadTypes(cases)));
    }
  }

  lemma ArrayRefusals(p: Platform, element: Type, items: seq<Value>, h: Heap)
    requires GoodAllocator(p) && HeapOk(h) && Stowable(element) && HasType(Array(element), List(items), WellFormed(p))
    ensures LowerArray(p, element, items, h).Ok? || LowerArray(p, element, items, h) == Err(Refused)
    decreases Depth(Array(element)), 1, 0
  {
    hide WellFormed, HeapOk, GoodAllocator, Stowable, WriteValues, Fits, Strides, Repeat, LayoutOf, HasType, Extends;
    var n := |items|;
    var size := Size(element) * n;
    TypedItems(element, items, WellFormed(p));
    Grants(p, h, size, LayoutOf(element).alignment);
    var grant := p.allocate(h, size, LayoutOf(element).alignment);
    if grant.Granted? {
      ArrayDepth(element, n);
      StridesFit(element, grant.pointer, n);
      EachElement(element, items, WellFormed(p));
      EachStowable(element, n);
      GrantedHeap(h, size, LayoutOf(element).alignment, grant);
      ValuesRefusals(p, Repeat(element, n), items, Strides(grant.pointer, Size(element), n), grant.heap, grant.pointer, grant.pointer + size);
    }
  }

  lemma {:induction false} AllRefusals(p: Platform, types: seq<Type>, values: seq<Value>, h: Heap)
    requires GoodAllocator(p) && HeapOk(h) && |types| == |values|
    requires forall i :: 0 <= i < |types| ==> HasType(types[i], values[i], WellFormed(p)) && Liftable(types[i])
    ensures LowerAll(p, types, AllSome(values), h).Ok? || LowerAll(p, types, AllSome(values), h) == Err(Refused)
    decreases MaxDepth(types), 4, |types|
  {
    hide WellFormed, HasType, Liftable, GoodAllocator, HeapOk, Lower, TypesOf, GoodLanes;
    if types != [] {
      MaxDepthBound(types[1..], MaxDepth(types));
      assert AllSome(values)[1..] == AllSome(values[1..]);
      OnlyTheAllocatorRefuses(p, types[0], values[0], h);
      if Lower(p, types[0], values[0], h).Ok? {
        LowerKeeps(p, WellFormed(p), types[0], values[0], h);
        AllRefusals(p, types[1..], values[1..], Lower(p, types[0], values[0], h).value.heap);
      }
    }
  }

  lemma WriteRefusals(p: Platform, t: Type, v: Value, at: nat, h: Heap)
    requires GoodAllocator(p) && HeapOk(h) && Stowable(t) && HasType(t, v, WellFormed(p)) && at + Size(t) <= |h.bytes|
    ensures Write(p, t, v, at, h).Ok? || Write(p, t, v, at, h) == Err(Refused)
    decreases Depth(t), 3, 0
  {
    hide WellFormed, HasType, Stowable, Liftable, GoodAllocator, HeapOk, Lower, TypesOf, GoodLanes, LayoutOf, WriteFlat;
    StowableParts(t);
    OnlyTheAllocatorRefuses(p, t, v, h);
    if Lower(p, t, v, h).Ok? {
      var lowered := Lower(p, t, v, h).value;
      LowerKeeps(p, WellFormed(p), t, v, h);
      ShowsItself(lowered.heap, h);
      LowerThenLift(p, t, v, h, lowered.heap.bytes);
      StraightLifts(p, t, lowered.lanes, lowered.heap.bytes);
      Storable(p, t, lowered.lanes, at, lowered.heap.bytes, lowered.heap.bytes);
    }
  }

  lemma ShowsItself(g: Heap, h: Heap)
    requires HeapOk(g)
    ensures Shows(g.bytes, g, h, 0, 0)
  {
  }

  lemma {:induction false} ValuesRefusals(
    p: Platform, types: seq<Type>, values: seq<Value>, slots: seq<nat>, h: Heap, low: nat, high: nat)
    requires GoodAllocator(p) && HeapOk(h) && |types| == |values| == |slots| && Fits(types, slots, low, high) && high <= |h.bytes|
    requires forall i :: 0 <= i < |types| ==> Stowable(types[i]) && HasType(types[i], values[i], WellFormed(p))
    ensures WriteValues(p, types, values, slots, h).Ok? || WriteValues(p, types, values, slots, h) == Err(Refused)
    decreases MaxDepth(types), 4, |types|
  {
    hide WellFormed, HasType, Stowable, GoodAllocator, HeapOk, Write, LayoutOf;
    if types != [] {
      MaxDepthBound(types[1..], MaxDepth(types));
      FitsWithin(types, slots, low, high);
      WriteRefusals(p, types[0], values[0], slots[0], h);
      if Write(p, types[0], values[0], slots[0], h).Ok? {
        WriteKeeps(p, WellFormed(p), types[0], values[0], slots[0], h);
        ValuesRefusals(p, types[1..], values[1..], slots[1..], Write(p, types[0], values[0], slots[0], h).value,
                       slots[0] + Size(types[0]), high);
      }
    }
  }

  /** Well-typed parameters fail only when the allocator refuses, or when their block would not fit a
      32-bit memory. */
  lemma OnlyTheAllocatorRefusesParameters(p: Platform, types: seq<Type>, values: seq<Value>, h: Heap)
    requires GoodAllocator(p) && HeapOk(h) && |types| == |values|
    requires forall i :: 0 <= i < |types| ==> HasType(types[i], values[i], WellFormed(p))
    requires forall i :: 0 <= i < |types| ==>
               if |FlatAll(types)| <= MAXIMUM_FLAT_PARAMETERS then Liftable(types[i]) else Stowable(types[i])
    ensures var lowered := LowerParameters(p, types, values, h);
            if |FlatAll(types)| > MAXIMUM_FLAT_PARAMETERS && Block(types).size > 0xffff_ffff then lowered == Err(RangeFault)
            else lowered.Ok? || lowered == Err(Refused)
  {
    hide WellFormed, HasType, Liftable, Stowable, GoodAllocator, HeapOk, LowerAll, WriteValues, Slots, Fits, Block, FlatAll, Extends;
    if |FlatAll(types)| <= MAXIMUM_FLAT_PARAMETERS {
      AllRefusals(p, types, values, h);
    } else if Block(types).size <= 0xffff_ffff {
      var layout := Block(types);
      Grants(p, h, layout.size, layout.alignment);
      var grant := p.allocate(h, layout.size, layout.alignment);
      if grant.Granted? {
        GrantedHeap(h, layout.size, layout.alignment, grant);
        GrantedRoom(h, layout.size, layout.alignment, grant);
        BlockHolds(types, grant.pointer);
        ValuesRefusals(p, types, values, Slots(types, grant.pointer, 0), grant.heap, grant.pointer, grant.pointer + layout.size);
      }
    }
  }

  lemma GrantedRoom(h: Heap, n: nat, alignment: nat, grant: Grant)
    requires GrantOk(h, n, alignment, grant) && grant.Granted?
    ensures grant.pointer + n <= |grant.heap.bytes|
  {
  }
}
