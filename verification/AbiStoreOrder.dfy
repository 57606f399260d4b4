/** For which types memory shows the value that was stored: those whose varying parts take the same
    lanes in declared order and in name order. */
module AbiStoreOrders {
  import opened AbiLayouts
  import opened AbiLanes
  import opened AbiMarshals
  import opened AbiStoreLoads

  /* ---------- names ---------- */

  ghost predicate DistinctNames(fields: seq<Field>) {
    forall i, j :: 0 <= i < j < |fields| ==> fields[i].name != fields[j].name
  }

  /** Records have distinct field names; what arrays hold is not looked at. */
  ghost predicate FieldsDistinct(t: Type)
    decreases Depth(t)
  {
    match t
    case Sealed(_, inner) => FieldsDistinct(inner)
    case Record(fields) => DistinctNames(fields) && forall f :: f in fields ==> FieldsDistinct(f.of)
    case Variant(cases) => forall c :: c in cases && c.payload.Some? ==> FieldsDistinct(c.payload.value)
    case _ => true
  }

  function Place(fields: seq<Field>, f: Field): (k: nat)
    requires f in fields
    ensures k < |fields| && fields[k] == f
  {
    if fields[0] == f then 0 else Place(fields[1..], f) + 1
  }

  lemma PlaceOf(fields: seq<Field>, k: nat)
    requires DistinctNames(fields) && k < |fields|
    ensures Place(fields, fields[k]) == k
  {
  }

  /* ---------- where the lanes of each part begin ---------- */

  /** The lanes before the part at `i`. */
  function Start(types: seq<Type>, i: nat): nat
    requires i <= |types|
  {
    |FlatAll(types[..i])|
  }

  lemma {:induction false} FlatAppend(a: seq<Type>, b: seq<Type>)
    ensures FlatAll(a + b) == FlatAll(a) + FlatAll(b)
  {
    if a == [] {
      assert a + b == b;
    } else {
      assert (a + b)[1..] == a[1..] + b;
      FlatAppend(a[1..], b);
    }
  }

  lemma StartNext(types: seq<Type>, i: nat)
    requires i < |types|
    ensures Start(types, i + 1) == Start(types, i) + |Flat(types[i])|
  {
    assert types[..i + 1] == types[..i] + [types[i]];
    FlatAppend(types[..i], [types[i]]);
    assert [types[i]][1..] == [];
  }

  lemma {:induction false} StartsRise(types: seq<Type>, i: nat, j: nat)
    requires i < j <= |types|
    ensures Start(types, i) + |Flat(types[i])| <= Start(types, j)
    decreases j
  {
    StartNext(types, j - 1);
    if i < j - 1 { StartsRise(types, i, j - 1); }
  }

  lemma StartEnd(types: seq<Type>, i: nat)
    requires i < |types|
    ensures Start(types, i) + |Flat(types[i])| <= |FlatAll(types)|
    ensures Start(types, 0) == 0 && Start(types, |types|) == |FlatAll(types)|
  {
    assert types[..|types|] == types;
    StartsRise(types, i, |types|);
  }

  lemma StartTail(types: seq<Type>, i: nat)
    requires 0 < i <= |types|
    ensures Start(types, i) == |Flat(types[0])| + Start(types[1..], i - 1)
  {
    assert types[..i][1..] == types[1..][..i - 1];
  }

  /** `n` elements from `from` on. */
  function Part<T>(s: seq<T>, from: nat, n: nat): (r: seq<T>)
    requires from + n <= |s|
    ensures |r| == n && forall i {:trigger r[i]} :: 0 <= i < n ==> r[i] == s[from + i]
  {
    s[from..from + n]
  }

  lemma {:induction false} LiftAllEach(p: Platform, types: seq<Type>, lanes: seq<Lane>, b: seq<Byte>, i: nat)
    requires LiftAll(p, types, lanes, b).Ok? && i < |types|
    ensures Start(types, i) + |Flat(types[i])| <= |lanes|
    ensures Lift(p, types[i], Part(lanes, Start(types, i), |Flat(types[i])|), b) == Ok(LiftAll(p, types, lanes, b).value[i])
  {
    hide Lift, Flat;
    var width := |Flat(types[0])|;
    if i == 0 {
      assert types[..0] == [];
      assert Part(lanes, 0, width) == lanes[..width];
    } else {
      StartTail(types, i);
      LiftAllEach(p, types[1..], lanes[width..], b, i - 1);
      assert Part(lanes[width..], Start(types[1..], i - 1), |Flat(types[i])|) == Part(lanes, Start(types, i), |Flat(types[i])|);
    }
  }

  lemma {:induction false} LiftEachAll(p: Platform, types: seq<Type>, lanes: seq<Lane>, b: seq<Byte>)
    requires |FlatAll(types)| <= |lanes|
    requires forall i :: 0 <= i < |types| ==>
               Start(types, i) + |Flat(types[i])| <= |lanes|
               && Lift(p, types[i], Part(lanes, Start(types, i), |Flat(types[i])|), b).Ok?
    ensures LiftAll(p, types, lanes, b).Ok?
  {
    hide Lift, Flat;
    if types != [] {
      var width, rest := |Flat(types[0])|, types[1..];
      assert types[..0] == [];
      assert Part(lanes, 0, width) == lanes[..width];
      forall i | 0 <= i < |rest|
        ensures Start(rest, i) + |Flat(rest[i])| <= |lanes[width..]|
                && Lift(p, rest[i], Part(lanes[width..], Start(rest, i), |Flat(rest[i])|), b).Ok?
      {
        StartTail(types, i + 1);
        assert rest[i] == types[i + 1];
        assert Part(lanes[width..], Start(rest, i), |Flat(rest[i])|) == Part(lanes, Start(types, i + 1), |Flat(types[i + 1])|);
      }
      LiftEachAll(p, rest, lanes[width..], b);
    }
  }

  lemma {:induction false} StoredAllEach(p: Platform, types: seq<Type>, lanes: seq<Lane>, b: seq<Byte>, i: nat)
    requires LiftStoredAll(p, types, lanes, b).Ok? && i < |types|
    ensures Start(types, i) + |Flat(types[i])| <= |lanes|
    ensures LiftStored(p, types[i], Part(lanes, Start(types, i), |Flat(types[i])|), b) == Ok(LiftStoredAll(p, types, lanes, b).value[i])
  {
    hide LiftStored, Flat;
    var width := |Flat(types[0])|;
    if i == 0 {
      assert types[..0] == [];
      assert Part(lanes, 0, width) == lanes[..width];
    } else {
      StartTail(types, i);
      StoredAllEach(p, types[1..], lanes[width..], b, i - 1);
      assert Part(lanes[width..], Start(types[1..], i - 1), |Flat(types[i])|) == Part(lanes, Start(types, i), |Flat(types[i])|);
    }
  }

  lemma {:induction false} StoredEachAll(p: Platform, types: seq<Type>, lanes: seq<Lane>, values: seq<Value>, b: seq<Byte>)
    requires |FlatAll(types)| <= |lanes| && |types| == |values|
    requires forall i :: 0 <= i < |types| ==>
               Start(types, i) + |Flat(types[i])| <= |lanes|
               && LiftStored(p, types[i], Part(lanes, Start(types, i), |Flat(types[i])|), b) == Ok(values[i])
    ensures LiftStoredAll(p, types, lanes, b) == Ok(values)
  {
    hide LiftStored, Flat;
    if types != [] {
      var width, rest := |Flat(types[0])|, types[1..];
      assert types[..0] == [];
      assert Part(lanes, 0, width) == lanes[..width];
      forall i | 0 <= i < |rest|
        ensures Start(rest, i) + |Flat(rest[i])| <= |lanes[width..]|
                && LiftStored(p, rest[i], Part(lanes[width..], Start(rest, i), |Flat(rest[i])|), b) == Ok(values[1..][i])
      {
        StartTail(types, i + 1);
        assert rest[i] == types[i + 1];
        assert Part(lanes[width..], Start(rest, i), |Flat(rest[i])|) == Part(lanes, Start(types, i + 1), |Flat(types[i + 1])|);
      }
      StoredEachAll(p, rest, lanes[width..], values[1..], b);
      assert values == [values[0]] + values[1..];
    }
  }

  /* ---------- the condition ---------- */

  /** Every part that can vary takes the same lanes in declared order, from `at` on, as in name order,
      from `pos` on. The discriminant of an only case never varies. */
  ghost predicate Aligned(t: Type, at: nat, pos: nat)
    decreases Depth(t)
  {
    match t
    case Unit => true
    case Sealed(_, inner) => Aligned(inner, at, pos)
    case Record(fields) =>
      var sorted := SortFields(fields);
      forall i, j :: 0 <= i < |fields| && 0 <= j < |sorted| && fields[i] == sorted[j] ==>
        assert fields[i] in fields;
        Aligned(fields[i].of, at + Start(FieldTypes(fields), i), pos + Start(FieldTypes(sorted), j))
    case Variant(cases) =>
      if |cases| == 1 then cases[0].payload.Some? ==> Aligned(cases[0].payload.value, at + 1, pos + 1) else at == pos
    case _ => at == pos
  }

  /** Parts that vary are aligned, and where a discriminant chooses, cases are in name order and their
      payloads are alike. */
  ghost predicate Straight(t: Type)
    decreases Depth(t), 1
  {
    Aligned(t, 0, 0) && CasesStraight(t)
  }

  ghost predicate CasesStraight(t: Type)
    decreases Depth(t), 0
  {
    match t
    case Sealed(_, inner) => CasesStraight(inner)
    case Record(fields) => forall f :: f in fields ==> CasesStraight(f.of)
    case Variant(cases) =>
      if |cases| == 1 then cases[0].payload.Some? ==> CasesStraight(cases[0].payload.value)
      else SortCases(cases) == cases && forall c :: c in cases && c.payload.Some? ==> Straight(c.payload.value)
    case _ => true
  }

  /* ---------- the lanes in both orders ---------- */

  function Range(at: int, n: nat): (r: seq<int>)
    ensures |r| == n && forall i :: 0 <= i < n ==> r[i] == at + i
  {
    seq(n, i => at + i)
  }

  const NEVER_VARIES: int := -1

  /** The lanes of a type in declared order, by number. */
  function Declared(t: Type, at: nat): seq<int>
    decreases Depth(t), 1, 0
  {
    match t
    case Sealed(_, inner) => Declared(inner, at)
    case Record(fields) =>
      RecordDepth(fields, fields);
      DeclaredAll(FieldTypes(fields), at)
    case Variant(cases) =>
      if |cases| == 1 then
        [NEVER_VARIES] + if cases[0].payload.Some? then Declared(cases[0].payload.value, at + 1) else []
      else Range(at, |Flat(t)|)
    case _ => Range(at, |Flat(t)|)
  }

  function DeclaredAll(types: seq<Type>, at: nat): seq<int>
    decreases MaxDepth(types), 2, |types|
  {
    if types == [] then []
    else
      MaxDepthBound(types[1..], MaxDepth(types));
      Declared(types[0], at) + DeclaredAll(types[1..], at + |Flat(types[0])|)
  }

  /** The same lanes in name order. */
  function Stored(t: Type, at: nat): seq<int>
    decreases Depth(t), 1, 0
  {
    match t
    case Sealed(_, inner) => Stored(inner, at)
    case Record(fields) =>
      RecordDepth(fields, SortFields(fields));
      StoredAll(SortFields(fields), fields, at)
    case Variant(cases) =>
      if |cases| == 1 then
        [NEVER_VARIES] + if cases[0].payload.Some? then Stored(cases[0].payload.value, at + 1) else []
      else Range(at, |Flat(t)|)
    case _ => Range(at, |Flat(t)|)
  }

  function StoredAll(part: seq<Field>, fields: seq<Field>, at: nat): seq<int>
    requires forall f :: f in part ==> f in fields
    decreases MaxDepth(FieldTypes(part)), 2, |part|
  {
    if part == [] then []
    else
      assert FieldTypes(part)[1..] == FieldTypes(part[1..]) && FieldTypes(part)[0] == part[0].of;
      MaxDepthBound(FieldTypes(part)[1..], MaxDepth(FieldTypes(part)));
      Stored(part[0].of, at + Start(FieldTypes(fields), Place(fields, part[0]))) + StoredAll(part[1..], fields, at)
  }

  /** An only case adds its payload's lanes unchanged. */
  lemma OnlyCase(t: Type)
    ensures JoinAll([t]) == Flat(t)
  {
    assert [t][..0] == [];
    assert Join([], Flat(t)) == Flat(t);
  }

  lemma OnlyFlat(cases: seq<Case>)
    requires |cases| == 1
    ensures JoinAll(PayloadTypes(cases)) == Flat(PayloadType(cases[0]))
    ensures Flat(Variant(cases)) == [LaneI32] + Flat(PayloadType(cases[0]))
    ensures SortCases(cases) == cases
    ensures cases[0].payload.Some? ==> Depth(cases[0].payload.value) < Depth(Variant(cases))
  {
    assert PayloadTypes(cases) == [PayloadType(cases[0])];
    OnlyCase(PayloadType(cases[0]));
    assert cases[0] in cases && cases[1..] == [];
  }

  lemma {:induction false} DeclaredMarks(t: Type, at: nat)
    ensures |Declared(t, at)| == |Flat(t)|
    ensures forall j :: 0 <= j < |Declared(t, at)| ==> Declared(t, at)[j] in {NEVER_VARIES, at + j}
    decreases Depth(t), 1, 0
  {
    match t
    case Sealed(_, inner) => DeclaredMarks(inner, at);
    case Record(fields) =>
      RecordDepth(fields, fields);
      DeclaredAllMarks(FieldTypes(fields), at);
    case Variant(cases) =>
      if |cases| == 1 {
        OnlyFlat(cases);
        if cases[0].payload.Some? { DeclaredMarks(cases[0].payload.value, at + 1); }
      }
    case _ =>
  }

  lemma {:induction false} DeclaredAllMarks(types: seq<Type>, at: nat)
    ensures |DeclaredAll(types, at)| == |FlatAll(types)|
    ensures forall j :: 0 <= j < |DeclaredAll(types, at)| ==> DeclaredAll(types, at)[j] in {NEVER_VARIES, at + j}
    decreases MaxDepth(types), 2, |types|
  {
    hide Declared, Flat;
    if types != [] {
      MaxDepthBound(types[1..], MaxDepth(types));
      DeclaredMarks(types[0], at);
      DeclaredAllMarks(types[1..], at + |Flat(types[0])|);
    }
  }

  lemma {:induction false} DeclaredAllAt(types: seq<Type>, at: nat, i: nat)
    requires i < |types|
    ensures |DeclaredAll(types, at)| == |FlatAll(types)| && Start(types, i) + |Flat(types[i])| <= |FlatAll(types)|
    ensures Part(DeclaredAll(types, at), Start(types, i), |Flat(types[i])|) == Declared(types[i], at + Start(types, i))
    decreases |types|
  {
    hide Declared, Flat;
    StartEnd(types, i);
    DeclaredAllMarks(types, at);
    DeclaredMarks(types[0], at);
    var width := |Flat(types[0])|;
    if i > 0 {
      StartTail(types, i);
      DeclaredAllAt(types[1..], at + width, i - 1);
      assert Part(DeclaredAll(types, at), Start(types, i), |Flat(types[i])|)
          == Part(DeclaredAll(types[1..], at + width), Start(types[1..], i - 1), |Flat(types[i])|);
    } else {
      assert types[..0] == [];
    }
  }

  /* ---------- both orders hold the same lanes ---------- */

  function Marks(f: Field, fields: seq<Field>, at: nat): seq<int>
    requires f in fields
  {
    Stored(f.of, at + Start(FieldTypes(fields), Place(fields, f)))
  }

  lemma StoredCons(f: Field, part: seq<Field>, fields: seq<Field>, at: nat)
    requires f in fields && forall g :: g in part ==> g in fields
    ensures forall g :: g in [f] + part ==> g in fields
    ensures StoredAll([f] + part, fields, at) == Marks(f, fields, at) + StoredAll(part, fields, at)
  {
    assert ([f] + part)[1..] == part;
  }

  lemma {:induction false} InsertMarks(f: Field, sorted: seq<Field>, fields: seq<Field>, at: nat)
    requires f in fields && forall g :: g in sorted ==> g in fields
    ensures multiset(StoredAll(InsertField(f, sorted), fields, at)) == multiset(Marks(f, fields, at)) + multiset(StoredAll(sorted, fields, at))
  {
    hide Marks, StoredAll, Stored, Start, Place;
    if sorted == [] || !Before(sorted[0].name, f.name) {
      StoredCons(f, sorted, fields, at);
    } else {
      assert forall g :: g in sorted[1..] ==> g in sorted;
      InsertMarks(f, sorted[1..], fields, at);
      StoredCons(sorted[0], InsertField(f, sorted[1..]), fields, at);
      assert sorted == [sorted[0]] + sorted[1..];
      StoredCons(sorted[0], sorted[1..], fields, at);
    }
  }

  lemma {:induction false} SortMarks(part: seq<Field>, fields: seq<Field>, at: nat)
    requires forall g :: g in part ==> g in fields
    ensures multiset(StoredAll(SortFields(part), fields, at)) == multiset(StoredAll(part, fields, at))
  {
    hide Marks, StoredAll, Stored, Start, Place, InsertField;
    if part != [] {
      assert part == [part[0]] + part[1..];
      assert forall g :: g in part[1..] ==> g in part;
      SortMarks(part[1..], fields, at);
      InsertMarks(part[0], SortFields(part[1..]), fields, at);
      StoredCons(part[0], part[1..], fields, at);
    } else {
      assert SortFields(part) == part;
    }
  }

  /** One varying value of its own. */
  predicate IsLeaf(t: Type) {
    !t.Sealed? && !t.Record? && !(t.Variant? && |t.cases| == 1)
  }

  lemma LeafMarks(t: Type, at: nat)
    requires IsLeaf(t)
    ensures Stored(t, at) == Declared(t, at) == Range(at, |Flat(t)|)
  {
    hide Flat;
  }

  lemma RecordMarks(fields: seq<Field>, at: nat)
    ensures Stored(Record(fields), at) == StoredAll(SortFields(fields), fields, at)
    ensures Declared(Record(fields), at) == DeclaredAll(FieldTypes(fields), at)
    ensures Flat(Record(fields)) == FlatAll(FieldTypes(fields))
  {
    hide DeclaredAll, StoredAll, SortFields, FlatAll;
  }

  lemma OnlyMarks(cases: seq<Case>, at: nat)
    requires |cases| == 1
    ensures cases[0].payload.Some? ==>
              && Stored(Variant(cases), at) == [NEVER_VARIES] + Stored(cases[0].payload.value, at + 1)
              && Declared(Variant(cases), at) == [NEVER_VARIES] + Declared(cases[0].payload.value, at + 1)
    ensures cases[0].payload.None? ==> Stored(Variant(cases), at) == Declared(Variant(cases), at) == [NEVER_VARIES]
    ensures cases[0].payload.Some? ==> cases[0].payload.value == PayloadType(cases[0]) && cases[0] in cases
  {
  }

  lemma {:induction false} SameMarks(t: Type, at: nat)
    requires FieldsDistinct(t)
    ensures multiset(Stored(t, at)) == multiset(Declared(t, at)) && |Stored(t, at)| == |Flat(t)|
    decreases Depth(t), 1, 0
  {
    hide Stored, Declared, StoredAll, DeclaredAll, SortFields, Flat, DistinctNames;
    DeclaredMarks(t, at);
    if IsLeaf(t) {
      LeafMarks(t, at);
    } else if t.Sealed? {
      SealedMarks(t, at);
      SameMarks(t.inner, at);
    } else if t.Record? {
      var fields := t.fields;
      RecordMarks(fields, at);
      RecordDepth(fields, fields);
      SortMarks(fields, fields, at);
      assert fields[0..] == fields && FieldTypes(fields)[0..] == FieldTypes(fields);
      NoneBefore(FieldTypes(fields));
      SameMarksAll(fields, at, 0);
    } else {
      OnlyMarks(t.cases, at);
      OnlyFlat(t.cases);
      if t.cases[0].payload.Some? { SameMarks(t.cases[0].payload.value, at + 1); }
    }
    SameLength(Stored(t, at), Declared(t, at));
  }

  lemma SealedMarks(t: Type, at: nat)
    requires t.Sealed?
    ensures Stored(t, at) == Stored(t.inner, at) && Declared(t, at) == Declared(t.inner, at) && Flat(t) == Flat(t.inner)
  {
  }

  lemma NoneBefore(types: seq<Type>)
    ensures Start(types, 0) == 0
  {
  }

  lemma SameLength(a: seq<int>, b: seq<int>)
    requires multiset(a) == multiset(b)
    ensures |a| == |b|
  {
    assert |multiset(a)| == |a| && |multiset(b)| == |b|;
  }

  lemma {:induction false} SameMarksAll(fields: seq<Field>, at: nat, k: nat)
    requires k <= |fields| && DistinctNames(fields) && forall f :: f in fields ==> FieldsDistinct(f.of)
    ensures forall f :: f in fields[k..] ==> f in fields
    ensures multiset(StoredAll(fields[k..], fields, at)) == multiset(DeclaredAll(FieldTypes(fields)[k..], at + Start(FieldTypes(fields), k)))
    decreases Depth(Record(fields)), 0, |fields| - k
  {
    hide FieldsDistinct, DistinctNames, Stored, StoredAll, Declared, DeclaredAll, Flat, Place, Depth, MaxDepth, Start;
    var types := FieldTypes(fields);
    if k < |fields| {
      var f := fields[k];
      SameMarksAll(fields, at, k + 1);
      StartNext(types, k);
      PlaceOf(fields, k);
      FieldDepth(fields, k);
      assert f in fields;
      SameMarks(f.of, at + Start(types, k));
      assert fields[k..] == [f] + fields[k + 1..];
      StoredCons(f, fields[k + 1..], fields, at);
      assert types[k..] == [f.of] + types[k + 1..];
      DeclaredCons(f.of, types[k + 1..], at + Start(types, k));
      MarksAt(fields, k, at);
    } else {
      NoMarks(fields, at + Start(types, k), at);
      assert fields[k..] == [] && types[k..] == [];
    }
  }

  lemma NoMarks(fields: seq<Field>, at: nat, from: nat)
    ensures StoredAll([], fields, from) == [] && DeclaredAll([], at) == []
  {
  }

  lemma MarksAt(fields: seq<Field>, k: nat, at: nat)
    requires k < |fields| && fields[k] in fields && Place(fields, fields[k]) == k
    ensures Marks(fields[k], fields, at) == Stored(fields[k].of, at + Start(FieldTypes(fields), k))
  {
    hide Stored, Start;
  }

  lemma DeclaredCons(t: Type, types: seq<Type>, at: nat)
    ensures DeclaredAll([t] + types, at) == Declared(t, at) + DeclaredAll(types, at + |Flat(t)|)
  {
    hide Declared, Flat;
    assert ([t] + types)[1..] == types;
  }

  lemma FieldDepth(fields: seq<Field>, k: nat)
    requires k < |fields|
    ensures Depth(fields[k].of) < Depth(Record(fields))
  {
    assert fields[k] in fields;
  }

  /* ---------- aligned types hold their lanes in place ---------- */

  lemma {:induction false} AlignedMarks(t: Type, at: nat, pos: nat)
    requires FieldsDistinct(t) && Aligned(t, at, pos)
    ensures |Stored(t, at)| == |Flat(t)|
    ensures forall j :: 0 <= j < |Stored(t, at)| ==> Stored(t, at)[j] in {NEVER_VARIES, pos + j}
    decreases Depth(t), 1, 0
  {
    hide *;
    SameMarks(t, at);
    if IsLeaf(t) {
      LeafMarks(t, at);
      LeafAligned(t, at, pos);
      RangeInPlace(at, |Flat(t)|);
    } else if t.Sealed? {
      SealedMarks(t, at);
      InnerAligned(t, at, pos);
      AlignedMarks(t.inner, at, pos);
    } else if t.Record? {
      var fields := t.fields;
      RecordMarks(fields, at);
      assert SortFields(fields)[0..] == SortFields(fields);
      NoneBefore(FieldTypes(SortFields(fields)));
      AlignedMarksAll(fields, at, pos, 0);
    } else {
      KindOf(t);
      OnlyMarks(t.cases, at);
      OnlyFlat(t.cases);
      PayloadAligned(t.cases, at, pos);
      if t.cases[0].payload.Some? { AlignedMarks(t.cases[0].payload.value, at + 1, pos + 1); }
    }
  }

  lemma KindOf(t: Type)
    ensures !IsLeaf(t) && !t.Sealed? && !t.Record? ==> t.Variant? && |t.cases| == 1
  {
  }

  lemma RangeInPlace(at: int, n: nat)
    ensures forall j :: 0 <= j < |Range(at, n)| ==> Range(at, n)[j] in {NEVER_VARIES, at + j}
  {
  }

  lemma InnerAligned(t: Type, at: nat, pos: nat)
    requires t.Sealed? && FieldsDistinct(t) && Aligned(t, at, pos)
    ensures FieldsDistinct(t.inner) && Aligned(t.inner, at, pos) && Depth(t.inner) < Depth(t)
  {
  }

  lemma PayloadAligned(cases: seq<Case>, at: nat, pos: nat)
    requires |cases| == 1 && FieldsDistinct(Variant(cases)) && Aligned(Variant(cases), at, pos)
    ensures cases[0].payload.Some? ==> FieldsDistinct(cases[0].payload.value) && Aligned(cases[0].payload.value, at + 1, pos + 1)
  {
    assert cases[0] in cases;
  }

  lemma LeafAligned(t: Type, at: nat, pos: nat)
    requires IsLeaf(t) && Aligned(t, at, pos)
    ensures t.Unit? || at == pos
    ensures t.Unit? ==> Flat(t) == []
  {
  }

  lemma FieldAligned(fields: seq<Field>, at: nat, pos: nat, i: nat, k: nat)
    requires Aligned(Record(fields), at, pos) && i < |fields| && k < |fields| && fields[i] == SortFields(fields)[k]
    ensures Aligned(fields[i].of, at + Start(FieldTypes(fields), i), pos + Start(FieldTypes(SortFields(fields)), k))
  {
    hide Start;
  }

  lemma FieldsAreDistinct(fields: seq<Field>)
    requires FieldsDistinct(Record(fields))
    ensures DistinctNames(fields) && forall f :: f in fields ==> FieldsDistinct(f.of)
  {
  }

  lemma {:induction false} AlignedMarksAll(fields: seq<Field>, at: nat, pos: nat, k: nat)
    requires FieldsDistinct(Record(fields)) && Aligned(Record(fields), at, pos) && k <= |fields|
    ensures forall f :: f in SortFields(fields)[k..] ==> f in fields
    ensures var marks := StoredAll(SortFields(fields)[k..], fields, at);
            forall j :: 0 <= j < |marks| ==> marks[j] in {NEVER_VARIES, pos + Start(FieldTypes(SortFields(fields)), k) + j}
    decreases Depth(Record(fields)), 0, |fields| - k
  {
    hide FieldsDistinct, Aligned, Stored, StoredAll, Flat, FlatAll, Place, Depth, Start, SortFields, DistinctNames;
    var sorted := SortFields(fields);
    var types := FieldTypes(sorted);
    forall f | f in sorted[k..] ensures f in fields {
      assert f in sorted;
    }
    if k < |fields| {
      assert sorted[k] in sorted;
      var i := Place(fields, sorted[k]);
      FieldDepth(fields, i);
      FieldsAreDistinct(fields);
      assert fields[i] in fields;
      FieldAligned(fields, at, pos, i, k);
      AlignedMarks(sorted[k].of, at + Start(FieldTypes(fields), i), pos + Start(types, k));
      AlignedMarksAll(fields, at, pos, k + 1);
      StartNext(types, k);
      assert sorted[k..] == [sorted[k]] + sorted[k + 1..];
      StoredCons(sorted[k], sorted[k + 1..], fields, at);
      MarksAt(fields, i, at);
    } else {
      NoMarks(fields, at, at);
      assert sorted[k..] == [];
    }
  }

  /** All lanes are where they were declared. */
  lemma InPlace(t: Type)
    requires FieldsDistinct(t) && Aligned(t, 0, 0)
    ensures Stored(t, 0) == Declared(t, 0)
  {
    hide FieldsDistinct, Aligned, Stored, Declared;
    AlignedMarks(t, 0, 0);
    DeclaredMarks(t, 0);
    SameMarks(t, 0);
    SamePlaces(Stored(t, 0), Declared(t, 0));
  }

  lemma SamePlaces(a: seq<int>, b: seq<int>)
    requires multiset(a) == multiset(b) && |a| == |b|
    requires forall j :: 0 <= j < |a| ==> a[j] in {NEVER_VARIES, j} && b[j] in {NEVER_VARIES, j}
    ensures a == b
  {
    forall j | 0 <= j < |a| ensures a[j] == b[j] {
      assert j in multiset(a) <==> j in multiset(b);
      assert a[j] in a && b[j] in b;
    }
  }

  /* ---------- records do not depend on the order of their fields ---------- */

  lemma {:induction false} Collects(fields: seq<Field>, values: seq<Value>)
    requires DistinctNames(fields) && |fields| == |values|
    ensures forall i :: 0 <= i < |fields| ==>
              fields[i].name in Collect(fields, values) && Collect(fields, values)[fields[i].name] == values[i]
    ensures forall name :: name in Collect(fields, values) ==> exists f :: f in fields && f.name == name
  {
    if fields != [] {
      var last := |fields| - 1;
      Collects(fields[..last], values[..last]);
    }
  }

  lemma {:induction false} InsertedDistinct(f: Field, sorted: seq<Field>)
    requires DistinctNames(sorted) && forall g :: g in sorted ==> g.name != f.name
    ensures DistinctNames(InsertField(f, sorted))
  {
    if sorted != [] && Before(sorted[0].name, f.name) {
      var rest := sorted[1..];
      assert forall g :: g in rest ==> g in sorted;
      InsertedDistinct(f, rest);
      forall g | g in InsertField(f, rest) ensures g.name != sorted[0].name {
        if g != f {
          var i :| 0 <= i < |rest| && rest[i] == g;
          assert sorted[i + 1] == g;
        }
      }
      FirstDistinct(sorted[0], InsertField(f, rest));
    } else {
      FirstDistinct(f, sorted);
    }
  }

  lemma FirstDistinct(f: Field, rest: seq<Field>)
    requires DistinctNames(rest) && forall g :: g in rest ==> g.name != f.name
    ensures DistinctNames([f] + rest)
  {
    forall i, j | 0 <= i < j < |[f] + rest| ensures ([f] + rest)[i].name != ([f] + rest)[j].name {
      assert rest[j - 1] in rest;
    }
  }

  lemma {:induction false} SortedDistinct(fields: seq<Field>)
    requires DistinctNames(fields)
    ensures DistinctNames(SortFields(fields))
  {
    if fields != [] {
      var rest := fields[1..];
      SortedDistinct(rest);
      forall g | g in SortFields(rest) ensures g.name != fields[0].name {
        var i :| 0 <= i < |rest| && rest[i] == g;
        assert fields[i + 1] == g;
      }
      InsertedDistinct(fields[0], SortFields(rest));
    }
  }

  lemma SameMembers(fields: seq<Field>, values: seq<Value>, sorted: seq<Field>, moved: seq<Value>)
    requires |fields| == |values| && |sorted| == |moved| && DistinctNames(fields) && DistinctNames(sorted)
    requires forall f :: f in fields <==> f in sorted
    requires forall j :: 0 <= j < |sorted| ==> sorted[j] in fields && moved[j] == values[Place(fields, sorted[j])]
    ensures Collect(fields, values) == Collect(sorted, moved)
  {
    hide Collect, Place, DistinctNames;
    Collects(fields, values);
    Collects(sorted, moved);
    forall j | 0 <= j < |sorted| ensures Collect(fields, values)[sorted[j].name] == moved[j] {
      assert fields[Place(fields, sorted[j])] == sorted[j];
    }
    forall name | name in Collect(fields, values) ensures name in Collect(sorted, moved) {
      var f :| f in fields && f.name == name;
      var j :| 0 <= j < |sorted| && sorted[j] == f;
    }
    forall name | name in Collect(sorted, moved)
      ensures name in Collect(fields, values) && Collect(fields, values)[name] == Collect(sorted, moved)[name]
    {
      var f :| f in sorted && f.name == name;
      var j :| 0 <= j < |sorted| && sorted[j] == f;
      assert Collect(sorted, moved)[sorted[j].name] == moved[j];
    }
  }

  /* ---------- what is in place lifts the same ---------- */

  /** The lanes that the marks name; one that never varies is zero. */
  function Pull(lanes: seq<Lane>, marks: seq<int>): (r: seq<Lane>)
    ensures |r| == |marks|
  {
    seq(|marks|, i requires 0 <= i < |marks| => if 0 <= marks[i] < |lanes| then lanes[marks[i]] else I32(0))
  }

  lemma PullPart(lanes: seq<Lane>, marks: seq<int>, from: nat, n: nat)
    requires from + n <= |marks|
    ensures Part(Pull(lanes, marks), from, n) == Pull(lanes, Part(marks, from, n))
  {
  }

  lemma {:induction false} SameNarrow(lanes: seq<Lane>, types: seq<LaneType>)
    requires |lanes| == |types|
    ensures Narrow(lanes, types, types) == Ok(lanes)
  {
    if types != [] {
      SameNarrow(lanes[1..], types[1..]);
      assert lanes == [lanes[0]] + lanes[1..];
    }
  }

  lemma ZeroTag(l: Lane)
    ensures Memory32(l).Ok? && Memory32(l).value < 1 ==> l == I32(0)
  {
    if l.I32? && -0x8000_0000 <= l.number < 0 {
      assert l.number % 0x1_0000_0000 == l.number + 0x1_0000_0000;
    }
  }

  /** An only case: its discriminant is zero and its payload takes the lanes behind. */
  lemma OnlyLifts(p: Platform, cases: seq<Case>, lanes: seq<Lane>, b: seq<Byte>)
    requires |cases| == 1
    ensures Lift(p, Variant(cases), lanes, b).Ok? || LiftStored(p, Variant(cases), lanes, b).Ok? ==>
              |lanes| == |Flat(Variant(cases))| && lanes[0] == I32(0)
    ensures |lanes| == |Flat(Variant(cases))| && lanes[0] == I32(0) ==>
              if cases[0].payload.None? then
                && Lift(p, Variant(cases), lanes, b) == Ok(Tagged(cases[0].name, None))
                && LiftStored(p, Variant(cases), lanes, b) == Ok(Tagged(cases[0].name, None))
              else
                && Lift(p, Variant(cases), lanes, b) == Tagging(cases[0].name, Lift(p, cases[0].payload.value, lanes[1..], b))
                && LiftStored(p, Variant(cases), lanes, b) == Tagging(cases[0].name, LiftStored(p, cases[0].payload.value, lanes[1..], b))
  {
    hide Flat, Narrow, SortCases, JoinAll, PayloadTypes;
    OnlyFlat(cases);
    if |lanes| == |Flat(Variant(cases))| {
      ZeroTag(lanes[0]);
      if Memory32(lanes[0]).Err? || Memory32(lanes[0]).value >= 1 {
        assert Lift(p, Variant(cases), lanes, b) == LiftVariant(p, cases, lanes, b);
        assert LiftStored(p, Variant(cases), lanes, b) == LiftStoredVariant(p, cases, lanes, b);
        assert LiftVariant(p, cases, lanes, b).Err?;
        assert LiftStoredVariant(p, cases, lanes, b).Err?;
      }
      SameNarrow(lanes[1..], Flat(PayloadType(cases[0])));
    }
  }

  lemma {:induction false} TagsAreZero(p: Platform, t: Type, lanes: seq<Lane>, at: nat, b: seq<Byte>)
    requires Lift(p, t, lanes, b).Ok?
    ensures |lanes| == |Declared(t, at)|
    ensures forall j :: 0 <= j < |lanes| && Declared(t, at)[j] == NEVER_VARIES ==> lanes[j] == I32(0)
    decreases Depth(t), 1, 0
  {
    hide Lift, LiftStored, Declared, DeclaredAll, Flat, FlatAll;
    DeclaredMarks(t, at);
    LiftsCount(p, t, lanes, b);
    if IsLeaf(t) {
      LeafMarks(t, at);
    } else if t.Sealed? {
      SealedMarks(t, at);
      SealedLifts(p, t, lanes, b);
      TagsAreZero(p, t.inner, lanes, at, b);
    } else if t.Record? {
      RecordMarks(t.fields, at);
      RecordLifts(p, t.fields, lanes, b);
      RecordDepth(t.fields, t.fields);
      TagsAreZeroAll(p, FieldTypes(t.fields), lanes, at, b);
    } else {
      OnlyMarks(t.cases, at);
      OnlyFlat(t.cases);
      OnlyLifts(p, t.cases, lanes, b);
      if t.cases[0].payload.Some? { TagsAreZero(p, t.cases[0].payload.value, lanes[1..], at + 1, b); }
    }
  }

  lemma LiftsCount(p: Platform, t: Type, lanes: seq<Lane>, b: seq<Byte>)
    ensures Lift(p, t, lanes, b).Ok? || LiftStored(p, t, lanes, b).Ok? ==> |lanes| == |Flat(t)|
  {
    hide Flat;
  }

  lemma SealedLifts(p: Platform, t: Type, lanes: seq<Lane>, b: seq<Byte>)
    requires t.Sealed?
    ensures |lanes| == |Flat(t)| ==>
              && Lift(p, t, lanes, b) == Sealing(t.name, Lift(p, t.inner, lanes, b))
              && LiftStored(p, t, lanes, b) == Sealing(t.name, LiftStored(p, t.inner, lanes, b))
    ensures Lift(p, t, lanes, b).Ok? ==> Lift(p, t.inner, lanes, b).Ok?
  {
    hide Flat;
  }

  lemma RecordLifts(p: Platform, fields: seq<Field>, lanes: seq<Lane>, b: seq<Byte>)
    ensures var t, sorted := Record(fields), SortFields(fields);
            var declared, stored := LiftAll(p, FieldTypes(fields), lanes, b), LiftStoredAll(p, FieldTypes(sorted), lanes, b);
            && (|lanes| == |Flat(t)| ==> Lift(p, t, lanes, b) == Assembled(fields, declared) && LiftStored(p, t, lanes, b) == Assembled(sorted, stored))
            && (Lift(p, t, lanes, b).Ok? ==> declared.Ok? && Lift(p, t, lanes, b) == Ok(Rec(Collect(fields, declared.value))))
            && (LiftStored(p, t, lanes, b).Ok? ==> stored.Ok? && LiftStored(p, t, lanes, b) == Ok(Rec(Collect(sorted, stored.value))))
  {
    hide Flat, LiftAll, LiftStoredAll, SortFields, Collect;
  }

  lemma {:induction false} TagsAreZeroAll(p: Platform, types: seq<Type>, lanes: seq<Lane>, at: nat, b: seq<Byte>)
    requires LiftAll(p, types, lanes, b).Ok? && |lanes| == |FlatAll(types)|
    ensures |lanes| == |DeclaredAll(types, at)|
    ensures forall j :: 0 <= j < |lanes| && DeclaredAll(types, at)[j] == NEVER_VARIES ==> lanes[j] == I32(0)
    decreases MaxDepth(types), 2, |types|
  {
    hide Lift, Declared, Flat;
    DeclaredAllMarks(types, at);
    if types != [] {
      var width := |Flat(types[0])|;
      MaxDepthBound(types[1..], MaxDepth(types));
      TagsAreZero(p, types[0], lanes[..width], at, b);
      TagsAreZeroAll(p, types[1..], lanes[width..], at + width, b);
    }
  }

  /** The parts of a type, each taking its lanes from the same list in declared and in name order. */
  lemma {:induction false} Walk(p: Platform, t: Type, at: nat, lanes: seq<Lane>, b: seq<Byte>)
    requires FieldsDistinct(t) && CasesStraight(t) && Lift(p, t, Pull(lanes, Declared(t, at)), b).Ok?
    ensures LiftStored(p, t, Pull(lanes, Stored(t, at)), b) == Lift(p, t, Pull(lanes, Declared(t, at)), b)
    decreases Depth(t), 1, 0
  {
    hide Lift, LiftStored, Declared, DeclaredAll, Stored, StoredAll, Flat, FlatAll, Pull, FieldsDistinct, CasesStraight;
    if IsLeaf(t) {
      LeafMarks(t, at);
      LeafLifts(p, t, Pull(lanes, Declared(t, at)), b);
    } else if t.Sealed? {
      SealedMarks(t, at);
      SameMarks(t, at);
      DeclaredMarks(t, at);
      SealedNames(t);
      SealedLifts(p, t, Pull(lanes, Declared(t, at)), b);
      SealedLifts(p, t, Pull(lanes, Stored(t, at)), b);
      Walk(p, t.inner, at, lanes, b);
    } else if t.Record? {
      WalkRecord(p, t.fields, at, lanes, b);
    } else {
      OnlyMarks(t.cases, at);
      OnlyFlat(t.cases);
      SameMarks(t, at);
      DeclaredMarks(t, at);
      OnlyNames(t.cases);
      OnlyLifts(p, t.cases, Pull(lanes, Declared(t, at)), b);
      OnlyLifts(p, t.cases, Pull(lanes, Stored(t, at)), b);
      PullOnly(lanes, t.cases, at);
      if t.cases[0].payload.Some? { Walk(p, t.cases[0].payload.value, at + 1, lanes, b); }
    }
  }

  lemma SealedNames(t: Type)
    requires t.Sealed?
    ensures FieldsDistinct(t) == FieldsDistinct(t.inner) && CasesStraight(t) == CasesStraight(t.inner)
  {
  }

  lemma OnlyNames(cases: seq<Case>)
    requires |cases| == 1
    ensures cases[0].payload.Some? ==>
              && (FieldsDistinct(Variant(cases)) ==> FieldsDistinct(cases[0].payload.value))
              && (CasesStraight(Variant(cases)) ==> CasesStraight(cases[0].payload.value))
  {
    assert cases[0] in cases;
  }

  lemma PullOnly(lanes: seq<Lane>, cases: seq<Case>, at: nat)
    requires |cases| == 1
    ensures |Pull(lanes, Declared(Variant(cases), at))| > 0 && Pull(lanes, Declared(Variant(cases), at))[0] == I32(0)
    ensures |Pull(lanes, Stored(Variant(cases), at))| > 0 && Pull(lanes, Stored(Variant(cases), at))[0] == I32(0)
    ensures cases[0].payload.Some? ==>
              && Pull(lanes, Declared(Variant(cases), at))[1..] == Pull(lanes, Declared(cases[0].payload.value, at + 1))
              && Pull(lanes, Stored(Variant(cases), at))[1..] == Pull(lanes, Stored(cases[0].payload.value, at + 1))
  {
    hide Declared, Stored;
    OnlyMarks(cases, at);
  }

  lemma {:induction false} StoredAllAt(part: seq<Field>, fields: seq<Field>, at: nat, j: nat)
    requires j < |part| && forall f :: f in part ==> f in fields && FieldsDistinct(f.of)
    ensures |StoredAll(part, fields, at)| == |FlatAll(FieldTypes(part))|
    ensures Start(FieldTypes(part), j) + |Flat(part[j].of)| <= |StoredAll(part, fields, at)|
    ensures Part(StoredAll(part, fields, at), Start(FieldTypes(part), j), |Flat(part[j].of)|) == Marks(part[j], fields, at)
    decreases |part|
  {
    hide Stored, Flat, FlatAll, Start, Place, FieldsDistinct, StoredAll, Marks, FieldTypes;
    var first, rest := part[0], part[1..];
    assert part == [first] + rest && forall f :: f in rest ==> f in part;
    assert first in part;
    StoredCons(first, rest, fields, at);
    FieldMarks(first, fields, at);
    TypesTail(part);
    StartEnd(FieldTypes(part), j);
    StoredAllLength(part, fields, at);
    if j > 0 {
      StartTail(FieldTypes(part), j);
      StoredAllAt(rest, fields, at, j - 1);
      assert Part(StoredAll(part, fields, at), Start(FieldTypes(part), j), |Flat(part[j].of)|)
          == Part(StoredAll(rest, fields, at), Start(FieldTypes(rest), j - 1), |Flat(part[j].of)|);
    }
  }

  lemma FieldMarks(f: Field, fields: seq<Field>, at: nat)
    requires f in fields && FieldsDistinct(f.of)
    ensures |Marks(f, fields, at)| == |Flat(f.of)|
  {
    hide FieldsDistinct, Stored, Declared, Flat, Start, Place;
    SameMarks(f.of, at + Start(FieldTypes(fields), Place(fields, f)));
  }

  lemma TypesTail(part: seq<Field>)
    requires part != []
    ensures FieldTypes(part)[1..] == FieldTypes(part[1..]) && FieldTypes(part)[0] == part[0].of
    ensures FlatAll(FieldTypes(part)) == Flat(part[0].of) + FlatAll(FieldTypes(part[1..]))
  {
  }

  lemma {:induction false} StoredAllLength(part: seq<Field>, fields: seq<Field>, at: nat)
    requires forall f :: f in part ==> f in fields && FieldsDistinct(f.of)
    ensures |StoredAll(part, fields, at)| == |FlatAll(FieldTypes(part))|
  {
    hide Stored, Flat, Start, Place, FieldsDistinct, StoredAll;
    if part == [] {
      NoMarks(fields, at, at);
    } else {
      assert part == [part[0]] + part[1..] && forall f :: f in part[1..] ==> f in part;
      assert part[0] in part;
      StoredCons(part[0], part[1..], fields, at);
      FieldMarks(part[0], fields, at);
      TypesTail(part);
      StoredAllLength(part[1..], fields, at);
    }
  }

  lemma WalkRecord(p: Platform, fields: seq<Field>, at: nat, lanes: seq<Lane>, b: seq<Byte>)
    requires FieldsDistinct(Record(fields)) && CasesStraight(Record(fields))
    requires Lift(p, Record(fields), Pull(lanes, Declared(Record(fields), at)), b).Ok?
    ensures LiftStored(p, Record(fields), Pull(lanes, Stored(Record(fields), at)), b)
         == Lift(p, Record(fields), Pull(lanes, Declared(Record(fields), at)), b)
    decreases Depth(Record(fields)), 0, 1
  {
    hide *;
    var sorted := SortFields(fields);
    var declared, stored := Pull(lanes, Declared(Record(fields), at)), Pull(lanes, Stored(Record(fields), at));
    RecordMarks(fields, at);
    SameMarks(Record(fields), at);
    DeclaredMarks(Record(fields), at);
    RecordLifts(p, fields, declared, b);
    RecordLifts(p, fields, stored, b);
    var values := LiftAll(p, FieldTypes(fields), declared, b).value;
    FieldsAreDistinct(fields);
    SortedDistinct(fields);
    var moved := seq(|sorted|, j requires 0 <= j < |sorted| => assert sorted[j] in sorted; values[Place(fields, sorted[j])]);
    SortedLength(fields);
    forall j | 0 <= j < |sorted|
      ensures Start(FieldTypes(sorted), j) + |Flat(FieldTypes(sorted)[j])| <= |stored|
      ensures LiftStored(p, FieldTypes(sorted)[j], Part(stored, Start(FieldTypes(sorted), j), |Flat(FieldTypes(sorted)[j])|), b) == Ok(moved[j])
    {
      WalkField(p, fields, at, lanes, b, j);
    }
    StoredEachAll(p, FieldTypes(sorted), stored, moved, b);
    SameMembers(fields, values, sorted, moved);
    Assembles(fields, values);
    Assembles(sorted, moved);
  }

  lemma Assembles(fields: seq<Field>, values: seq<Value>)
    requires |fields| == |values|
    ensures Assembled(fields, Ok(values)) == Ok(Rec(Collect(fields, values)))
  {
  }

  lemma {:induction false} SortedLength(fields: seq<Field>)
    requires forall f :: f in fields ==> FieldsDistinct(f.of)
    ensures |FlatAll(FieldTypes(SortFields(fields)))| == |FlatAll(FieldTypes(fields))|
  {
    SortMarks(fields, fields, 0);
    StoredAllLength(fields, fields, 0);
    StoredAllLength(SortFields(fields), fields, 0);
    SameLength(StoredAll(SortFields(fields), fields, 0), StoredAll(fields, fields, 0));
  }

  lemma WalkField(p: Platform, fields: seq<Field>, at: nat, lanes: seq<Lane>, b: seq<Byte>, j: nat)
    requires FieldsDistinct(Record(fields)) && CasesStraight(Record(fields)) && j < |fields|
    requires Lift(p, Record(fields), Pull(lanes, Declared(Record(fields), at)), b).Ok?
    requires LiftAll(p, FieldTypes(fields), Pull(lanes, Declared(Record(fields), at)), b).Ok?
    ensures var sorted := SortFields(fields);
            var stored, values := Pull(lanes, Stored(Record(fields), at)), LiftAll(p, FieldTypes(fields), Pull(lanes, Declared(Record(fields), at)), b).value;
            && sorted[j] in fields
            && Start(FieldTypes(sorted), j) + |Flat(FieldTypes(sorted)[j])| <= |stored|
            && LiftStored(p, FieldTypes(sorted)[j], Part(stored, Start(FieldTypes(sorted), j), |Flat(FieldTypes(sorted)[j])|), b)
               == Ok(values[Place(fields, sorted[j])])
    decreases Depth(Record(fields)), 0, 0
  {
    hide *;
    var sorted, types := SortFields(fields), FieldTypes(fields);
    var declared, stored := Pull(lanes, Declared(Record(fields), at)), Pull(lanes, Stored(Record(fields), at));
    assert sorted[j] in sorted;
    var i := Place(fields, sorted[j]);
    FieldsAreDistinct(fields);
    FieldsStraight(fields);
    RecordMarks(fields, at);
    FieldDepth(fields, i);
    assert fields[i] in fields;
    DeclaredAllAt(types, at, i);
    TypeAt(fields, i);
    TypeAt(sorted, j);
    forall f | f in sorted ensures f in fields && FieldsDistinct(f.of) {
    }
    StoredAllAt(sorted, fields, at, j);
    LiftAllEach(p, types, declared, b, i);
    PullPart(lanes, DeclaredAll(types, at), Start(types, i), |Flat(types[i])|);
    PullPart(lanes, StoredAll(sorted, fields, at), Start(FieldTypes(sorted), j), |Flat(sorted[j].of)|);
    Walk(p, fields[i].of, at + Start(types, i), lanes, b);
    PlaceOf(fields, i);
    MarksAt(fields, i, at);
  }

  lemma TypeAt(fields: seq<Field>, i: nat)
    requires i < |fields|
    ensures FieldTypes(fields)[i] == fields[i].of
  {
  }

  lemma FieldsStraight(fields: seq<Field>)
    requires CasesStraight(Record(fields))
    ensures forall f :: f in fields ==> CasesStraight(f.of)
  {
  }

  lemma LeafLifts(p: Platform, t: Type, lanes: seq<Lane>, b: seq<Byte>)
    requires IsLeaf(t) && FieldsDistinct(t) && CasesStraight(t) && Lift(p, t, lanes, b).Ok?
    ensures LiftStored(p, t, lanes, b) == Lift(p, t, lanes, b)
    decreases Depth(t), 0, 0
  {
    hide Flat, JoinAll, PayloadTypes, SortCases, Narrow, ReadArray, DecodeText, FieldsDistinct, Straight;
    LiftsCount(p, t, lanes, b);
    LeafCount(t);
    if t.Variant? && Memory32(lanes[0]).Ok? && Memory32(lanes[0]).value < |t.cases| {
      var selected := t.cases[Memory32(lanes[0]).value];
      assert selected in t.cases;
      if selected.payload.Some? {
        VariantDepth(t.cases, t.cases);
        var payload := Narrow(lanes[1..], JoinAll(PayloadTypes(t.cases)), Flat(selected.payload.value)).value;
        PayloadDistinct(t.cases, selected);
        StraightLifts(p, selected.payload.value, payload, b);
      }
    }
  }

  lemma LeafCount(t: Type)
    ensures t.Variant? ==> Flat(t) != []
  {
  }

  lemma PayloadDistinct(cases: seq<Case>, c: Case)
    requires FieldsDistinct(Variant(cases)) && c in cases && c.payload.Some?
    ensures FieldsDistinct(c.payload.value)
  {
  }

  /** Lanes that lift at all have the same value in name order. */
  lemma StraightLifts(p: Platform, t: Type, lanes: seq<Lane>, b: seq<Byte>)
    requires FieldsDistinct(t) && Straight(t) && Lift(p, t, lanes, b).Ok?
    ensures LiftStored(p, t, lanes, b) == Lift(p, t, lanes, b)
    decreases Depth(t), 2, 0
  {
    hide Lift, LiftStored, Declared, Stored, Aligned, CasesStraight, FieldsDistinct;
    InPlace(t);
    DeclaredMarks(t, 0);
    TagsAreZero(p, t, lanes, 0, b);
    assert Pull(lanes, Declared(t, 0)) == lanes;
    Walk(p, t, 0, lanes, b);
  }
}
