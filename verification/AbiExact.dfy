/** Exactly which lanes and bytes the ABI prescribes: what the round trips alone would leave open. */
module AbiExacts {
  import opened AbiLayouts
  import opened AbiLanes
  import opened AbiMarshals
  import opened AbiStoreLoads
  import opened AbiStoreOrders
  import opened AbiRoundTrips

  /* ---------- joined lanes ---------- */

  /** Case `k` has a lane at position `p` of its payload. */
  ghost predicate HasLane(types: seq<Type>, k: nat, p: nat) {
    k < |types| && p < |Flat(types[k])|
  }

  /** Among the first `n` cases, all that have a lane at `p` have the same. */
  ghost predicate AgreedAt(types: seq<Type>, n: nat, p: nat) {
    forall j: nat, k: nat :: j < n && k < n && HasLane(types, j, p) && HasLane(types, k, p) ==> Flat(types[j])[p] == Flat(types[k])[p]
  }

  ghost predicate NarrowAt(types: seq<Type>, n: nat, p: nat) {
    forall k: nat :: k < n && HasLane(types, k, p) ==> Flat(types[k])[p] == LaneI32 || Flat(types[k])[p] == LaneF32
  }

  ghost predicate NoneAt(types: seq<Type>, n: nat, p: nat) {
    forall k: nat :: k < n ==> !HasLane(types, k, p)
  }

  /** The lane that the first `n` cases share at `p`: their common one, else `i32` if all are `i32` or
      `f32`, else `i64`. */
  ghost predicate SharedAt(types: seq<Type>, n: nat, p: nat, lane: LaneType) {
    if AgreedAt(types, n, p) then forall k: nat :: k < n && HasLane(types, k, p) ==> lane == Flat(types[k])[p]
    else lane == if NarrowAt(types, n, p) then LaneI32 else LaneI64
  }

  lemma OneMoreCase(types: seq<Type>, n: nat, p: nat, before: seq<LaneType>)
    requires n < |types|
    requires p < |before| <==> !NoneAt(types, n, p)
    requires p < |before| ==> SharedAt(types, n, p, before[p])
    ensures p < |Join(before, Flat(types[n]))| <==> !NoneAt(types, n + 1, p)
    ensures p < |Join(before, Flat(types[n]))| ==> SharedAt(types, n + 1, p, Join(before, Flat(types[n]))[p])
  {
    hide Flat;
    if p < |before| {
      var k: nat :| k < n && HasLane(types, k, p);
      if p < |Flat(types[n])| {
        assert HasLane(types, n, p);
        WithLast(types, n, p, before[p], k);
      } else {
        WithoutLast(types, n, p);
      }
    } else {
      assert p < |Flat(types[n])| ==> HasLane(types, n, p);
    }
  }

  lemma WithoutLast(types: seq<Type>, n: nat, p: nat)
    requires !HasLane(types, n, p)
    ensures AgreedAt(types, n + 1, p) <==> AgreedAt(types, n, p)
    ensures NarrowAt(types, n + 1, p) <==> NarrowAt(types, n, p)
  {
    hide Flat;
  }

  lemma WithLast(types: seq<Type>, n: nat, p: nat, lane: LaneType, k: nat)
    requires k < n && HasLane(types, k, p) && HasLane(types, n, p) && SharedAt(types, n, p, lane)
    ensures AgreedAt(types, n + 1, p) <==> AgreedAt(types, n, p) && lane == Flat(types[n])[p]
    ensures NarrowAt(types, n + 1, p) <==> NarrowAt(types, n, p) && Flat(types[n])[p] in {LaneI32, LaneF32}
    ensures NarrowAt(types, n, p) <==> lane in {LaneI32, LaneF32}
  {
    hide Flat;
  }

  lemma {:induction false} JoinedPrefix(types: seq<Type>, n: nat, p: nat)
    requires n <= |types|
    ensures p < |JoinAll(types[..n])| <==> !NoneAt(types, n, p)
    ensures p < |JoinAll(types[..n])| ==> SharedAt(types, n, p, JoinAll(types[..n])[p])
    decreases n
  {
    hide Flat;
    if n > 0 {
      assert types[..n][..n - 1] == types[..n - 1] && types[..n][n - 1] == types[n - 1];
      JoinedPrefix(types, n - 1, p);
      OneMoreCase(types, n - 1, p, JoinAll(types[..n - 1]));
    }
  }

  /** The lanes of a variant's payload, position by position over all its cases: there is a lane
      wherever some case has one, and its type is the one that all cases with a lane there have in
      common; where they differ it is `i32` if all are `i32` or `f32`, and `i64` otherwise. */
  lemma JoinAllExactly(types: seq<Type>, p: nat)
    ensures p < |JoinAll(types)| <==> exists k: nat :: HasLane(types, k, p)
    ensures p < |JoinAll(types)| ==> SharedAt(types, |types|, p, JoinAll(types)[p])
  {
    hide Flat;
    assert types[..|types|] == types;
    JoinedPrefix(types, |types|, p);
    if exists k: nat :: HasLane(types, k, p) {
      var k: nat :| HasLane(types, k, p);
      assert k < |types|;
    }
  }

  /* ---------- bytes ---------- */

  lemma DivideTwice(value: nat, i: nat)
    ensures value / 0x100 / Power(i) == value / Power(i + 1)
  {
    var p := Power(i);
    var q, r := value / 0x100, value % 0x100;
    var a, b := q / p, q % p;
    assert value == 0x100 * (p * a + b) + r;
    assert value == (0x100 * p) * a + (0x100 * b + r) by {
      assert 0x100 * (p * a + b) == 0x100 * (p * a) + 0x100 * b;
      assert 0x100 * (p * a) == (0x100 * p) * a;
    }
    assert 0 <= 0x100 * b + r < 0x100 * p;
    Quotient(value, 0x100 * p, a, 0x100 * b + r);
  }

  lemma Quotient(x: nat, d: nat, q: nat, r: nat)
    requires d > 0 && x == d * q + r && r < d
    ensures x / d == q && x % d == r
  {
    var k, m := x / d, x % d;
    assert x == d * k + m;
    if k > q {
      Gap(k, q, d);
    } else if k < q {
      Gap(q, k, d);
    }
  }

  /** Numbers are stored little-endian, and read as they are stored: byte `i` has weight `0x100^i`. */
  lemma {:induction false} BytesAreLittleEndian(n: nat, value: nat, i: nat)
    requires i < n
    ensures Encode(n, value)[i] == value / Power(i) % 0x100
    ensures value < Power(n) ==> Decode(Encode(n, value)) == value
  {
    hide Decode;
    if i > 0 {
      assert Encode(n, value)[i] == Encode(n - 1, value / 0x100)[i - 1];
      BytesAreLittleEndian(n - 1, value / 0x100, i - 1);
      DivideTwice(value, i - 1);
    } else {
      assert Power(0) == 1;
    }
    if value < Power(n) { DecodeEncode(n, value); }
  }

  /* ---------- sizes ---------- */

  /** A discriminant has the smallest of the widths 1, 2 and 4 that tells all cases apart. */
  lemma DiscriminantIsSmallest(count: nat)
    requires count <= 0x1_0000_0000
    ensures DiscriminantSize(count) in {1, 2, 4} && count <= Power(DiscriminantSize(count))
    ensures forall n :: n in {1, 2, 4} && count <= Power(n) ==> DiscriminantSize(count) <= n
  {
    Powers();
  }

  function Width(l: LaneType): nat {
    if l == LaneI32 || l == LaneF32 then 4 else 8
  }

  function Widths(lanes: seq<LaneType>): nat {
    if lanes == [] then 0 else Width(lanes[0]) + Widths(lanes[1..])
  }

  /** A scalar, a string or an array takes in memory the room of its lanes, aligned to the first; a
      Boolean alone is narrower there, one byte. */
  lemma LeavesTakeTheirLanes(t: Type)
    requires !t.Record? && !t.Variant? && !t.Sealed?
    ensures t.Boolean? ==> Size(t) == 1 && Flat(t) == [LaneI32]
    ensures t.TextType? || t.Array? ==> |Flat(t)| == 2
    ensures !t.Boolean? ==> Size(t) == Widths(Flat(t))
    ensures LayoutOf(t).alignment == if t.Boolean? || t.Unit? then 1 else Width(Flat(t)[0])
  {
    assert Widths([LaneI32, LaneI32]) == 8 by {
      assert [LaneI32, LaneI32][1..] == [LaneI32];
    }
  }

  /** Every value of a block starts at the first place after the one before that its alignment allows. */
  lemma {:induction false} SlotsArePacked(types: seq<Type>, base: nat, offset: nat, i: nat)
    requires i < |types|
    ensures var slots, a := Slots(types, base, offset), LayoutOf(types[i]).alignment;
            var free := if i == 0 then base + offset else slots[i - 1] + Size(types[i - 1]);
            free <= slots[i] < free + a && (slots[i] - base) % a == 0
  {
    hide LayoutOf;
    if i > 0 {
      SlotsArePacked(types[1..], base, AlignTo(offset, LayoutOf(types[0]).alignment) + Size(types[0]), i - 1);
      assert types[1..][i - 1] == types[i];
      if i > 1 { assert types[1..][i - 2] == types[i - 1]; }
    }
  }

  lemma {:induction false} EndIsLast(types: seq<Type>, base: nat, offset: nat)
    requires types != []
    ensures base + End(types, offset) == Slots(types, base, offset)[|types| - 1] + Size(types[|types| - 1])
  {
    hide LayoutOf;
    if |types| > 1 {
      EndIsLast(types[1..], base, AlignTo(offset, LayoutOf(types[0]).alignment) + Size(types[0]));
    }
  }

  /** The alignment is the largest that a part needs. */
  ghost predicate LargestAlignment(types: seq<Type>, a: nat) {
    && (forall i :: 0 <= i < |types| ==> LayoutOf(types[i]).alignment <= a)
    && (a == 1 || exists i :: 0 <= i < |types| && LayoutOf(types[i]).alignment == a)
  }

  ghost predicate LargestSize(types: seq<Type>, n: nat) {
    && (forall i :: 0 <= i < |types| ==> Size(types[i]) <= n)
    && (n == 0 || exists i :: 0 <= i < |types| && Size(types[i]) == n)
  }

  lemma {:induction false} MaxAlignmentIsLargest(types: seq<Type>)
    ensures LargestAlignment(types, MaxAlignment(types))
  {
    hide LayoutOf;
    if types != [] {
      MaxAlignmentIsLargest(types[1..]);
      forall i | 0 <= i < |types| ensures LayoutOf(types[i]).alignment <= MaxAlignment(types) {
        if i > 0 { assert types[i] == types[1..][i - 1]; }
      }
      if MaxAlignment(types) != LayoutOf(types[0]).alignment && MaxAlignment(types) != 1 {
        var i :| 0 <= i < |types[1..]| && LayoutOf(types[1..][i]).alignment == MaxAlignment(types);
        assert types[i + 1] == types[1..][i];
      }
    }
  }

  lemma {:induction false} MaxSizeIsLargest(types: seq<Type>)
    ensures LargestSize(types, MaxSize(types))
  {
    hide LayoutOf;
    if types != [] {
      MaxSizeIsLargest(types[1..]);
      forall i | 0 <= i < |types| ensures Size(types[i]) <= MaxSize(types) {
        if i > 0 { assert types[i] == types[1..][i - 1]; }
      }
      if MaxSize(types) != Size(types[0]) && MaxSize(types) != 0 {
        var i :| 0 <= i < |types[1..]| && Size(types[1..][i]) == MaxSize(types);
        assert types[i + 1] == types[1..][i];
      }
    }
  }

  /** `size` is the least multiple of `a` that is not below `end`. */
  ghost predicate LeastMultiple(size: nat, end: nat, a: nat)
    requires a > 0
  {
    end <= size < end + a && size % a == 0
  }

  /** A block, which is a parameter block or a record's fields in name order, has no room to spare:
      its alignment is the largest of its values', and its size the next multiple of it. */
  lemma BlocksAreTight(types: seq<Type>)
    ensures LargestAlignment(types, Block(types).alignment)
    ensures LeastMultiple(Block(types).size,
              if types == [] then 0 else Slots(types, 0, 0)[|types| - 1] + Size(types[|types| - 1]), Block(types).alignment)
  {
    MaxAlignmentIsLargest(types);
    if types != [] { EndIsLast(types, 0, 0); }
  }

  ghost predicate TightVariant(cases: seq<Case>, l: Layout, a: nat, n: nat) {
    && a > 0 && LargestAlignment(PayloadTypes(SortCases(cases)), a) && LargestSize(PayloadTypes(SortCases(cases)), n)
    && LeastMultiple(PayloadOffset(cases), DiscriminantSize(|cases|), a)
    && l.alignment == (if a > DiscriminantSize(|cases|) then a else DiscriminantSize(|cases|))
    && LeastMultiple(l.size, PayloadOffset(cases) + n, l.alignment)
  }

  lemma VariantParts(cases: seq<Case>)
    ensures var types := PayloadTypes(SortCases(cases));
            var alignment := Max(DiscriminantSize(|cases|), MaxAlignment(types));
            LayoutOf(Variant(cases)) == Layout(alignment, AlignTo(PayloadOffset(cases) + MaxSize(types), alignment))
  {
    hide SortCases, MaxAlignment, MaxSize, AlignTo, DiscriminantSize, Depth, MaxDepth, CasesDepth, Max, PayloadTypes, PayloadType, Block,
      FieldTypes, SortFields, End, Divides;
    VariantDepth(cases, SortCases(cases));
  }

  /** Nor has a variant: the payload starts at the first place behind the discriminant that suits
      every case, and the whole is the largest payload behind that, rounded up. */
  lemma VariantsAreTight(cases: seq<Case>)
    ensures exists a: nat, n: nat :: TightVariant(cases, LayoutOf(Variant(cases)), a, n)
  {
    hide LayoutOf, AlignTo, MaxAlignment, MaxSize, SortCases, LargestAlignment, LargestSize;
    var types := PayloadTypes(SortCases(cases));
    VariantParts(cases);
    MaxAlignmentIsLargest(types);
    MaxSizeIsLargest(types);
    assert TightVariant(cases, LayoutOf(Variant(cases)), MaxAlignment(types), MaxSize(types));
  }

  /* ---------- names ---------- */

  /** Where two strings part: at the end of the first, or at a smaller code unit. */
  ghost predicate PartsAt(a: Text, b: Text, k: nat) {
    && k <= |a| && k < |b| && (forall i :: 0 <= i < k ==> a[i] == b[i])
    && (k < |a| ==> a[k] < b[k])
  }

  lemma PartsLater(a: Text, b: Text, k: nat)
    requires PartsAt(a, b, k) && a != [] && a[0] == b[0]
    ensures k > 0 && PartsAt(a[1..], b[1..], k - 1)
  {
  }

  lemma {:induction false} BeforeIsLexicographic(a: Text, b: Text)
    ensures Before(a, b) <==> exists k: nat :: PartsAt(a, b, k)
    decreases |a|
  {
    if a == [] {
      if b != [] { assert PartsAt(a, b, 0); }
    } else if b != [] {
      if a[0] == b[0] {
        BeforeIsLexicographic(a[1..], b[1..]);
        if Before(a, b) {
          var k: nat :| PartsAt(a[1..], b[1..], k);
          assert PartsAt(a, b, k + 1);
        }
        if k: nat :| PartsAt(a, b, k) { PartsLater(a, b, k); }
      } else if a[0] < b[0] {
        assert PartsAt(a, b, 0);
      }
    }
  }

  lemma {:induction false} NotAfterIsTransitive(a: Text, b: Text, c: Text)
    requires !Before(b, a) && !Before(c, b)
    ensures !Before(c, a)
    decreases |b|
  {
    if b != [] && a != [] && c != [] && a[0] == b[0] == c[0] {
      NotAfterIsTransitive(a[1..], b[1..], c[1..]);
    }
  }

  ghost predicate SortedNames(names: seq<Text>) {
    forall i, j :: 0 <= i < j < |names| ==> !Before(names[j], names[i])
  }

  lemma SmallestFirst(first: Text, names: seq<Text>)
    requires SortedNames(names) && (names != [] ==> !Before(names[0], first))
    ensures SortedNames([first] + names)
  {
    forall j | 0 <= j < |names| ensures !Before(names[j], first) {
      if j > 0 { NotAfterIsTransitive(first, names[0], names[j]); }
    }
  }

  ghost function FieldNames(fields: seq<Field>): seq<Text> {
    seq(|fields|, i requires 0 <= i < |fields| => fields[i].name)
  }

  ghost function CaseNames(cases: seq<Case>): seq<Text> {
    seq(|cases|, i requires 0 <= i < |cases| => cases[i].name)
  }

  lemma SortedTail(names: seq<Text>)
    requires SortedNames(names) && names != []
    ensures SortedNames(names[1..]) && (|names| > 1 ==> !Before(names[1], names[0]))
  {
  }

  lemma {:induction false} InsertFieldKeeps(f: Field, sorted: seq<Field>)
    ensures multiset(InsertField(f, sorted)) == multiset(sorted) + multiset{f}
  {
    if sorted != [] && Before(sorted[0].name, f.name) {
      InsertFieldKeeps(f, sorted[1..]);
      assert sorted == [sorted[0]] + sorted[1..];
    }
  }

  lemma {:induction false} InsertFieldSorts(f: Field, sorted: seq<Field>)
    requires SortedNames(FieldNames(sorted))
    ensures SortedNames(FieldNames(InsertField(f, sorted)))
  {
    hide SortedNames;
    if sorted == [] || !Before(sorted[0].name, f.name) {
      SmallestFirst(f.name, FieldNames(sorted));
      assert FieldNames([f] + sorted) == [f.name] + FieldNames(sorted);
    } else {
      var rest := sorted[1..];
      var r := InsertField(f, rest);
      assert FieldNames(rest) == FieldNames(sorted)[1..];
      SortedTail(FieldNames(sorted));
      InsertFieldSorts(f, rest);
      BeforeIsAsymmetric(sorted[0].name, f.name);
      if r[0] != f { assert rest != [] && FieldNames(sorted)[1] == r[0].name; }
      SmallestFirst(sorted[0].name, FieldNames(r));
      assert FieldNames([sorted[0]] + r) == [sorted[0].name] + FieldNames(r);
    }
  }

  lemma {:induction false} InsertCaseKeeps(c: Case, sorted: seq<Case>)
    ensures multiset(InsertCase(c, sorted)) == multiset(sorted) + multiset{c}
  {
    if sorted != [] && Before(sorted[0].name, c.name) {
      InsertCaseKeeps(c, sorted[1..]);
      assert sorted == [sorted[0]] + sorted[1..];
    }
  }

  lemma {:induction false} InsertCaseSorts(c: Case, sorted: seq<Case>)
    requires SortedNames(CaseNames(sorted))
    ensures SortedNames(CaseNames(InsertCase(c, sorted)))
  {
    hide SortedNames;
    if sorted == [] || !Before(sorted[0].name, c.name) {
      SmallestFirst(c.name, CaseNames(sorted));
      assert CaseNames([c] + sorted) == [c.name] + CaseNames(sorted);
    } else {
      var rest := sorted[1..];
      var r := InsertCase(c, rest);
      assert CaseNames(rest) == CaseNames(sorted)[1..];
      SortedTail(CaseNames(sorted));
      InsertCaseSorts(c, rest);
      BeforeIsAsymmetric(sorted[0].name, c.name);
      if r[0] != c { assert rest != [] && CaseNames(sorted)[1] == r[0].name; }
      SmallestFirst(sorted[0].name, CaseNames(r));
      assert CaseNames([sorted[0]] + r) == [sorted[0].name] + CaseNames(r);
    }
  }

  /** Fields stand in memory in the order of their names, compared code unit by code unit. */
  lemma {:induction false} FieldsAreSorted(fields: seq<Field>)
    ensures SortedNames(FieldNames(SortFields(fields))) && multiset(SortFields(fields)) == multiset(fields)
  {
    if fields != [] {
      FieldsAreSorted(fields[1..]);
      InsertFieldSorts(fields[0], SortFields(fields[1..]));
      InsertFieldKeeps(fields[0], SortFields(fields[1..]));
      assert fields == [fields[0]] + fields[1..];
    }
  }

  /** Cases are numbered in memory in the order of their names. */
  lemma {:induction false} CasesAreSorted(cases: seq<Case>)
    ensures SortedNames(CaseNames(SortCases(cases))) && multiset(SortCases(cases)) == multiset(cases)
  {
    if cases != [] {
      CasesAreSorted(cases[1..]);
      InsertCaseSorts(cases[0], SortCases(cases[1..]));
      InsertCaseKeeps(cases[0], SortCases(cases[1..]));
      assert cases == [cases[0]] + cases[1..];
    }
  }

  /* ---------- values ---------- */

  /** The first case of this name. */
  ghost predicate FirstCase(cases: seq<Case>, name: Text, k: nat) {
    k < |cases| && cases[k].name == name && forall j :: 0 <= j < k ==> cases[j].name != name
  }

  lemma {:induction false} FindsTheFirst(cases: seq<Case>, name: Text)
    ensures FindCase(cases, name).Some? ==> FirstCase(cases, name, FindCase(cases, name).value)
  {
    if cases != [] && cases[0].name != name {
      FindsTheFirst(cases[1..], name);
    }
  }

  /** The host value has the shape of the ABI type. */
  ghost predicate OfType(t: Type, v: Value)
    decreases Depth(t)
  {
    match t
    case Unit => v == Nothing
    case Boolean => v.Flag?
    case Integer64 => v.Integer? && -0x8000_0000_0000_0000 <= v.integer <= 0x7fff_ffff_ffff_ffff
    case Float32 => v.Single?
    case Float64 => v.Double?
    case TextType => v.Str?
    case Array(element) => v.List? && forall x :: x in v.items ==> OfType(element, x)
    case Sealed(name, inner) => v.Seal? && v.seal == name && OfType(inner, v.inner)
    case Record(fields) =>
      && v.Rec? && |v.members| == |fields|
      && forall f :: f in fields ==> f.name in v.members && OfType(f.of, v.members[f.name])
    case Variant(cases) =>
      && v.Tagged?
      && exists k: nat :: FirstCase(cases, v.name, k) && CaseOfType(cases[k], v.payload, Depth(t))
  }

  ghost predicate CaseOfType(c: Case, payload: Option<Value>, depth: nat)
    requires c.payload.Some? ==> Depth(c.payload.value) < depth
    decreases depth, 0
  {
    c.payload.Some? == payload.Some? && (payload.Some? ==> OfType(c.payload.value, payload.value))
  }

  /** Nothing but a value of the type is ever lowered. */
  lemma {:induction false} OnlyItsValuesAreLowered(p: Platform, t: Type, v: Value, h: Heap)
    requires Lower(p, t, v, h).Ok?
    ensures OfType(t, v)
    decreases Depth(t), 2, 0
  {
    match t
    case Sealed(_, inner) => OnlyItsValuesAreLowered(p, inner, v.inner, h);
    case Record(fields) =>
      RecordDepth(fields, fields);
      AllLowered(p, FieldTypes(fields), Pick(v.members, fields), h);
      forall f | f in fields ensures f.name in v.members && OfType(f.of, v.members[f.name]) {
        var i :| 0 <= i < |fields| && fields[i] == f;
        assert FieldTypes(fields)[i] == f.of && Pick(v.members, fields)[i].Some?;
      }
    case Variant(cases) => CaseLowered(p, cases, v.name, v.payload, h);
    case Array(element) => ItemsLowered(p, element, v.items, h);
    case _ =>
  }

  lemma CaseLowered(p: Platform, cases: seq<Case>, name: Text, payload: Option<Value>, h: Heap)
    requires LowerVariant(p, cases, name, payload, h).Ok?
    ensures OfType(Variant(cases), Tagged(name, payload))
    decreases Depth(Variant(cases)), 1, 0
  {
    hide Widen, JoinAll, Flat;
    var index := FindCase(cases, name).value;
    FindsTheFirst(cases, name);
    VariantDepth(cases, cases);
    var selected := cases[index];
    assert selected in cases;
    if payload.Some? { OnlyItsValuesAreLowered(p, selected.payload.value, payload.value, h); }
    assert FirstCase(cases, name, index) && CaseOfType(cases[index], payload, Depth(Variant(cases)));
  }

  lemma ItemsLowered(p: Platform, element: Type, items: seq<Value>, h: Heap)
    requires LowerArray(p, element, items, h).Ok?
    ensures forall x :: x in items ==> OfType(element, x)
    decreases Depth(Array(element)), 1, 0
  {
    hide OfType, LayoutOf, WriteValues, Strides, LowerArray;
    LowersArray(p, element, items, h);
    ArrayDepth(element, |items|);
    var grant := p.allocate(h, Size(element) * |items|, LayoutOf(element).alignment);
    AllWritten(p, Repeat(element, |items|), items, Strides(grant.pointer, Size(element), |items|), grant.heap);
    forall x | x in items ensures OfType(element, x) {
      var i :| 0 <= i < |items| && items[i] == x;
      assert Repeat(element, |items|)[i] == element;
    }
  }

  lemma {:induction false} AllLowered(p: Platform, types: seq<Type>, values: seq<Option<Value>>, h: Heap)
    requires |types| == |values| && LowerAll(p, types, values, h).Ok?
    ensures forall i :: 0 <= i < |types| ==> values[i].Some? && OfType(types[i], values[i].value)
    decreases MaxDepth(types), 4, |types|
  {
    hide OfType;
    if types != [] {
      MaxDepthBound(types[1..], MaxDepth(types));
      OnlyItsValuesAreLowered(p, types[0], values[0].value, h);
      AllLowered(p, types[1..], values[1..], Lower(p, types[0], values[0].value, h).value.heap);
      forall i | 0 < i < |types| ensures values[i].Some? && OfType(types[i], values[i].value) {
        assert types[i] == types[1..][i - 1] && values[i] == values[1..][i - 1];
      }
    }
  }

  lemma {:induction false} AllWritten(p: Platform, types: seq<Type>, values: seq<Value>, slots: seq<nat>, h: Heap)
    requires |types| == |values| == |slots| && WriteValues(p, types, values, slots, h).Ok?
    ensures forall i :: 0 <= i < |types| ==> OfType(types[i], values[i])
    decreases MaxDepth(types), 4, |types|
  {
    hide OfType, WriteFlat;
    if types != [] {
      MaxDepthBound(types[1..], MaxDepth(types));
      OnlyItsValuesAreLowered(p, types[0], values[0], h);
      AllWritten(p, types[1..], values[1..], slots[1..], Write(p, types[0], values[0], slots[0], h).value);
      forall i | 0 < i < |types| ensures OfType(types[i], values[i]) {
        assert types[i] == types[1..][i - 1] && values[i] == values[1..][i - 1];
      }
    }
  }

  /* ---------- where values are ---------- */

  lemma {:induction false} ReadsEach(p: Platform, types: seq<Type>, slots: seq<nat>, bytes: seq<Byte>, values: seq<Value>)
    requires |types| == |slots|
    ensures ReadAll(p, types, slots, bytes) == Ok(values) <==>
            |values| == |types| && forall i :: 0 <= i < |types| ==> ReadMemory(p, types[i], bytes, slots[i]) == Ok(values[i])
  {
    hide ReadMemory;
    if types != [] {
      var rest := ReadAll(p, types[1..], slots[1..], bytes);
      if |values| == |types| {
        ReadsEach(p, types[1..], slots[1..], bytes, values[1..]);
        EachOfRest(p, types, slots, bytes, values);
        assert values == [values[0]] + values[1..];
      }
    }
  }

  lemma EachOfRest(p: Platform, types: seq<Type>, slots: seq<nat>, bytes: seq<Byte>, values: seq<Value>)
    requires |types| == |slots| == |values| && types != []
    ensures (forall i :: 0 <= i < |types| ==> ReadMemory(p, types[i], bytes, slots[i]) == Ok(values[i])) <==>
            && ReadMemory(p, types[0], bytes, slots[0]) == Ok(values[0])
            && forall i :: 0 <= i < |types[1..]| ==> ReadMemory(p, types[1..][i], bytes, slots[1..][i]) == Ok(values[1..][i])
  {
    hide ReadMemory;
    if forall i :: 0 <= i < |types[1..]| ==> ReadMemory(p, types[1..][i], bytes, slots[1..][i]) == Ok(values[1..][i]) {
      forall i | 0 < i < |types| ensures ReadMemory(p, types[i], bytes, slots[i]) == Ok(values[i]) {
        assert types[i] == types[1..][i - 1];
      }
    }
  }

  /** The place of element `i` of an array. */
  function ElementAt(pointer: nat, stride: nat, i: nat): nat {
    pointer + i * stride
  }

  /** An array's lanes are its address and its length, and its elements lie there one stride apart. */
  lemma ArraysLieInOrder(p: Platform, element: Type, pointer: nat, n: nat, bytes: seq<Byte>, items: seq<Value>)
    requires pointer <= 0xffff_ffff && n <= 0xffff_ffff
    ensures Lift(p, Array(element), [I32(pointer), I32(n)], bytes) == Ok(List(items)) <==>
            && pointer + n * Size(element) <= |bytes| && |items| == n
            && forall i: nat :: i < n ==> ReadMemory(p, element, bytes, ElementAt(pointer, Size(element), i)) == Ok(items[i])
  {
    hide ReadMemory, ReadAll, LayoutOf;
    assert Memory32(I32(pointer)) == Ok(pointer) && Memory32(I32(n)) == Ok(n);
    ReadsEach(p, Repeat(element, n), Strides(pointer, Size(element), n), bytes, items);
    assert Size(element) * n == n * Size(element);
  }

  /** A string's lanes are the address and the length of its UTF-8 bytes. */
  lemma TextsLieWhole(p: Platform, text: Text, pointer: nat, n: nat, bytes: seq<Byte>)
    requires pointer <= 0xffff_ffff && n <= 0xffff_ffff
    ensures Lift(p, TextType, [I32(pointer), I32(n)], bytes) == Ok(Str(text)) <==>
            pointer + n <= |bytes| && p.decode(bytes[pointer..pointer + n]) == Some(text)
  {
    hide Narrow, JoinAll, LiftAll, ReadArray, LiftVariant, Assembled, Sealing, Size, FieldTypes;
    assert Memory32(I32(pointer)) == Ok(pointer) && Memory32(I32(n)) == Ok(n);
  }

  /** The names of the fields are exactly the members. */
  ghost predicate Named(fields: seq<Field>, members: map<Text, Value>) {
    && (forall name :: name in members ==> exists i :: 0 <= i < |fields| && fields[i].name == name)
    && forall i :: 0 <= i < |fields| ==> fields[i].name in members
  }

  lemma CollectsExactly(fields: seq<Field>, values: seq<Value>, members: map<Text, Value>)
    requires DistinctNames(fields) && |fields| == |values|
    ensures Collect(fields, values) == members <==>
            Named(fields, members) && forall i :: 0 <= i < |fields| ==> members[fields[i].name] == values[i]
  {
    hide Collect, DistinctNames;
    Collects(fields, values);
    var m := Collect(fields, values);
    if Named(fields, members) && forall i :: 0 <= i < |fields| ==> members[fields[i].name] == values[i] {
      assert m.Keys == members.Keys;
    }
  }

  /** A record's fields lie in its block in name order, each at its slot. */
  lemma RecordsLieInNameOrder(p: Platform, fields: seq<Field>, bytes: seq<Byte>, at: nat, members: map<Text, Value>)
    requires DistinctNames(fields)
    ensures var sorted := SortFields(fields);
            var slots := Slots(FieldTypes(sorted), at, 0);
            ReadMemory(p, Record(fields), bytes, at) == Ok(Rec(members)) <==>
            && Named(sorted, members)
            && forall i :: 0 <= i < |sorted| ==> ReadMemory(p, sorted[i].of, bytes, slots[i]) == Ok(members[sorted[i].name])
  {
    hide ReadMemory, ReadAll, Slots, SortFields, Collect, LayoutOf;
    var sorted := SortFields(fields);
    var types := FieldTypes(sorted);
    var slots := Slots(types, at, 0);
    SortedDistinct(fields);
    ReadsRecord(p, fields, bytes, at);
    var all := ReadAll(p, types, slots, bytes);
    if all.Ok? {
      ReadsEach(p, types, slots, bytes, all.value);
      CollectsExactly(sorted, all.value, members);
    }
    if Named(sorted, members) {
      var values := seq(|sorted|, i requires 0 <= i < |sorted| => members[sorted[i].name]);
      ReadsEach(p, types, slots, bytes, values);
      CollectsExactly(sorted, values, members);
    }
  }

  lemma ReadsRecord(p: Platform, fields: seq<Field>, bytes: seq<Byte>, at: nat)
    ensures var sorted := SortFields(fields);
            ReadMemory(p, Record(fields), bytes, at) ==
              Assembled(sorted, ReadAll(p, FieldTypes(sorted), Slots(FieldTypes(sorted), at, 0), bytes))
  {
    hide SortFields, Slots, Collect, LayoutOf;
    RecordDepth(fields, SortFields(fields));
  }

  /** A variant in memory is the number of its case in name order, and its payload behind that. */
  lemma VariantsLieByNumber(p: Platform, cases: seq<Case>, bytes: seq<Byte>, at: nat, name: Text, payload: Option<Value>)
    ensures var sorted, tag := SortCases(cases), Get(bytes, at, DiscriminantSize(|cases|));
            ReadMemory(p, Variant(cases), bytes, at) == Ok(Tagged(name, payload)) <==>
            && tag.Ok? && tag.value < |sorted| && sorted[tag.value].name == name
            && sorted[tag.value].payload.Some? == payload.Some?
            && (payload.Some? ==> ReadMemory(p, sorted[tag.value].payload.value, bytes, at + PayloadOffset(cases)) == Ok(payload.value))
  {
    hide ReadMemory, SortCases, PayloadOffset, Get, DiscriminantSize, LayoutOf;
    ReadsVariant(p, cases, bytes, at);
    var sorted, tag := SortCases(cases), Get(bytes, at, DiscriminantSize(|cases|));
    if tag.Ok? && tag.value < |sorted| {
      SortedCase(cases, tag.value);
    }
  }

  lemma ReadsVariant(p: Platform, cases: seq<Case>, bytes: seq<Byte>, at: nat)
    ensures ReadMemory(p, Variant(cases), bytes, at) == ReadVariant(p, cases, bytes, at)
  {
  }

  /* ---------- lanes ---------- */

  /** Widening keeps the bits of every payload lane, gives it the joined type, and fills up with zeros. */
  lemma {:induction false} WidenedLanesKeepTheirBits(lanes: seq<Lane>, joined: seq<LaneType>)
    requires WidensAll(TypesOf(lanes), joined)
    ensures var wide := Widen(lanes, TypesOf(lanes), joined);
            && wide.Ok? && TypesOf(wide.value) == joined
            && forall i :: 0 <= i < |joined| ==>
                 if i < |lanes| then (if lanes[i].I32? && joined[i] == LaneI32 then wide.value[i] == lanes[i] else Bits(wide.value[i]) == Bits(lanes[i]))
                 else Bits(wide.value[i]) == 0
    decreases |joined|
  {
    hide Bits;
    if joined != [] {
      if lanes != [] {
        WidenedLane(lanes[0], joined[0]);
        assert TypesOf(lanes)[1..] == TypesOf(lanes[1..]);
        WidenedLanesKeepTheirBits(lanes[1..], joined[1..]);
      } else {
        ZeroLaneIsZero(joined[0]);
        WidenedLanesKeepTheirBits([], joined[1..]);
      }
    }
  }

  lemma WidenedLane(l: Lane, to: LaneType)
    requires Widens(TypeOf(l), to)
    ensures var wide := ConvertLane(l, TypeOf(l), to);
            wide.Ok? && TypeOf(wide.value) == to && Bits(wide.value) == Bits(l) && (l.I32? && to == LaneI32 ==> wide.value == l)
  {
    SignedRoundTrip();
  }

  lemma ZeroLaneIsZero(t: LaneType)
    ensures Bits(ZeroLane(t)) == 0 && TypeOf(ZeroLane(t)) == t
  {
  }

  /** What a variant is lowered to: the number of its case as declared, then the payload's own lanes,
      bit for bit, in the joined types, and zeros behind them. */
  lemma VariantsLowerBitForBit(p: Platform, cases: seq<Case>, name: Text, payload: Option<Value>, h: Heap, ok: Text -> bool, k: nat)
    requires GoodAllocator(p) && HeapOk(h) && HasType(Variant(cases), Tagged(name, payload), ok)
    requires FirstCase(cases, name, k) && LowerVariant(p, cases, name, payload, h).Ok?
    ensures var joined, lowered := JoinAll(PayloadTypes(cases)), LowerVariant(p, cases, name, payload, h).value.lanes;
            && |lowered| == 1 + |joined| && lowered[0] == I32(k)
            && payload.Some? == cases[k].payload.Some?
            && (payload.Some? ==> Lower(p, cases[k].payload.value, payload.value, h).Ok?)
            && var own := if payload.Some? then Lower(p, cases[k].payload.value, payload.value, h).value.lanes else [];
               && |own| <= |joined|
               && forall i :: 0 <= i < |joined| ==>
                    && TypeOf(lowered[1 + i]) == joined[i]
                    && Bits(lowered[1 + i]) == if i < |own| then Bits(own[i]) else 0
  {
    hide Flat, JoinAll, Lower, HasType, Bits, Widen;
    FindsTheFirst(cases, name);
    SelectedCase(p, cases, name, payload, h, ok);
    var selected := cases[k];
    var own := if payload.Some? then Lower(p, selected.payload.value, payload.value, h).value.lanes else [];
    if payload.Some? {
      LowerKeeps(p, ok, selected.payload.value, payload.value, h);
    } else {
      UnitHasNoLanes();
    }
    JoinAllIsWideEnough(PayloadTypes(cases), k);
    WidenedLanesKeepTheirBits(own, JoinAll(PayloadTypes(cases)));
  }

  lemma UnitHasNoLanes()
    ensures Flat(Unit) == []
  {
  }

  lemma SelectedCase(p: Platform, cases: seq<Case>, name: Text, payload: Option<Value>, h: Heap, ok: Text -> bool)
    requires HasType(Variant(cases), Tagged(name, payload), ok) && LowerVariant(p, cases, name, payload, h).Ok?
    ensures FindCase(cases, name).Some?
    ensures var selected := cases[FindCase(cases, name).value];
            && payload.Some? == selected.payload.Some?
            && (payload.Some? ==> HasType(selected.payload.value, payload.value, ok) && Lower(p, selected.payload.value, payload.value, h).Ok?)
            && var own := if payload.Some? then Lower(p, selected.payload.value, payload.value, h).value.lanes else [];
               var wide := Widen(own, Flat(PayloadType(selected)), JoinAll(PayloadTypes(cases)));
               wide.Ok? && LowerVariant(p, cases, name, payload, h).value.lanes == [I32(FindCase(cases, name).value)] + wide.value
  {
    hide Flat, JoinAll, Widen;
  }

  /** Up to sixteen flat lanes are passed as they are, in the order of the parameters; any more go into
      a block, of which the pointer alone is passed. */
  lemma SixteenLanesAtMost(p: Platform, types: seq<Type>, values: seq<Value>, h: Heap, ok: Text -> bool)
    requires GoodAllocator(p) && HeapOk(h) && LowerParameters(p, types, values, h).Ok?
    requires |types| == |values| && forall i :: 0 <= i < |types| ==> HasType(types[i], values[i], ok)
    ensures var lanes := LowerParameters(p, types, values, h).value.lanes;
            TypesOf(lanes) == if |FlatAll(types)| <= 16 then FlatAll(types) else [LaneI32]
    ensures |LowerParameters(p, types, values, h).value.lanes| <= 16
  {
    hide Block, Slots, WriteValues, HasType, LowerAll;
    if |FlatAll(types)| <= 16 {
      LowerAllKeeps(p, ok, types, AllSome(values), h);
    }
  }

  /** Parameters are read from a block exactly when its pointer alone is passed, is not null, is aligned,
      and the block lies inside memory; each is then read at its own slot. */
  lemma BlocksAreChecked(p: Platform, types: seq<Type>, lanes: seq<Lane>, bytes: seq<Byte>, values: seq<Value>)
    requires |FlatAll(types)| > 16
    ensures LiftParameters(p, types, lanes, bytes) == Ok(values) <==>
            && |lanes| == 1 && Memory32(lanes[0]).Ok? && Memory32(lanes[0]).value > 0
            && Memory32(lanes[0]).value % Block(types).alignment == 0
            && Memory32(lanes[0]).value + Block(types).size <= |bytes|
            && |values| == |types|
            && var slots := Slots(types, Memory32(lanes[0]).value, 0);
               forall i :: 0 <= i < |types| ==> ReadMemory(p, types[i], bytes, slots[i]) == Ok(values[i])
  {
    hide Block, Slots, ReadMemory, ReadAll, FlatAll, Memory32;
    if |lanes| == 1 && Memory32(lanes[0]).Ok? {
      ReadsEach(p, types, Slots(types, Memory32(lanes[0]).value, 0), bytes, values);
    }
  }

  /** A scalar is lifted from exactly the lane to which it is lowered: no other lane means it. */
  lemma ScalarsLiftFromTheirLane(p: Platform, t: Type, v: Value, l: Lane, h: Heap, bytes: seq<Byte>)
    requires t in {Boolean, Integer64, Float32, Float64}
    ensures Lift(p, t, [l], bytes) == Ok(v) <==> Lower(p, t, v, h) == Ok(Lowered([l], h))
  {
    hide Narrow, JoinAll, LiftAll, ReadArray, LiftVariant, Assembled, Sealing, DecodeText, LowerText, LowerArray, LowerVariant, LowerAll;
  }

  /** An array is lowered to the address of its elements, suitably aligned and never null, and their
      number; the elements fill newly granted memory. */
  lemma ArraysGetAlignedRoom(p: Platform, element: Type, items: seq<Value>, h: Heap)
    requires GoodAllocator(p) && HeapOk(h) && LowerArray(p, element, items, h).Ok?
    ensures var lanes, size := LowerArray(p, element, items, h).value.lanes, Size(element) * |items|;
            && |lanes| == 2 && lanes[0].I32? && lanes[0].number >= 0 && lanes[1] == I32(|items|)
            && lanes[0].number % LayoutOf(element).alignment == 0
            && (size > 0 ==> lanes[0].number != 0)
            && size <= 0xffff_ffff
            && forall a :: lanes[0].number <= a < lanes[0].number + size ==> a !in h.owned
  {
    hide LayoutOf, WriteValues, Strides, LowerArray, HeapOk;
    var size, alignment := Size(element) * |items|, LayoutOf(element).alignment;
    LowersArray(p, element, items, h);
    assert GrantOk(h, size, alignment, p.allocate(h, size, alignment));
    ArrayFits(p, element, items, h);
  }

  lemma ArrayFits(p: Platform, element: Type, items: seq<Value>, h: Heap)
    requires LowerArray(p, element, items, h).Ok?
    ensures Size(element) * |items| <= 0xffff_ffff
  {
    hide LayoutOf, WriteValues, Strides, Repeat;
  }

  /** The bytes at `at` are the little-endian bytes of the number. */
  ghost predicate Shown(bytes: seq<Byte>, at: nat, n: nat, value: nat) {
    at + n <= |bytes| && value < Power(n) && forall i :: 0 <= i < n ==> bytes[at + i] == value / Power(i) % 0x100
  }

  lemma GetIsShown(bytes: seq<Byte>, at: nat, n: nat, value: nat)
    ensures Get(bytes, at, n) == Ok(value) <==> Shown(bytes, at, n, value)
  {
    if at + n <= |bytes| {
      var part := bytes[at..at + n];
      DecodeBound(part);
      EncodeDecode(part);
      if value < Power(n) {
        forall i | 0 <= i < n ensures Encode(n, value)[i] == value / Power(i) % 0x100 { BytesAreLittleEndian(n, value, i); }
        if Shown(bytes, at, n, value) { assert part == Encode(n, value); DecodeEncode(n, value); }
      }
    }
  }

  lemma {:induction false} EncodeDecode(s: seq<Byte>)
    ensures Encode(|s|, Decode(s)) == s
  {
    if s != [] {
      EncodeDecode(s[1..]);
      assert (s[0] + 0x100 * Decode(s[1..])) % 0x100 == s[0] && (s[0] + 0x100 * Decode(s[1..])) / 0x100 == Decode(s[1..]);
    }
  }

  /** Scalars in memory: an integer is its two's complement and a float its bits, little-endian in eight
      or four bytes; a Boolean is one byte, false only if it is zero. */
  lemma ScalarsLieInPlace(p: Platform, bytes: seq<Byte>, at: nat, v: Value)
    ensures ReadMemory(p, Integer64, bytes, at) == Ok(v) <==>
            v.Integer? && -0x8000_0000_0000_0000 <= v.integer <= 0x7fff_ffff_ffff_ffff
            && Shown(bytes, at, 8, if v.integer < 0 then v.integer + 0x1_0000_0000_0000_0000 else v.integer)
    ensures ReadMemory(p, Float32, bytes, at) == Ok(v) <==> v.Single? && Shown(bytes, at, 4, v.single)
    ensures ReadMemory(p, Float64, bytes, at) == Ok(v) <==> v.Double? && Shown(bytes, at, 8, v.double)
    ensures ReadMemory(p, Boolean, bytes, at) == Ok(v) <==> v.Flag? && at < |bytes| && (v.flag <==> bytes[at] != 0)
  {
    hide Get, Shown;
    Powers();
    IntegerRead(p, bytes, at, v);
    if v.Single? { GetIsShown(bytes, at, 4, v.single); }
    if v.Double? { GetIsShown(bytes, at, 8, v.double); }
    OneByte(bytes, at);
  }

  lemma OneByte(bytes: seq<Byte>, at: nat)
    ensures if at < |bytes| then Get(bytes, at, 1) == Ok(bytes[at] as nat) else Get(bytes, at, 1).Err?
  {
    if at < |bytes| { assert bytes[at..at + 1] == [bytes[at]] && Decode([bytes[at]]) == bytes[at]; }
  }

  lemma IntegerRead(p: Platform, bytes: seq<Byte>, at: nat, v: Value)
    ensures ReadMemory(p, Integer64, bytes, at) == Ok(v) <==>
            v.Integer? && -0x8000_0000_0000_0000 <= v.integer <= 0x7fff_ffff_ffff_ffff
            && Shown(bytes, at, 8, if v.integer < 0 then v.integer + 0x1_0000_0000_0000_0000 else v.integer)
  {
    hide Get, Shown;
    Powers();
    if v.Integer? && -0x8000_0000_0000_0000 <= v.integer <= 0x7fff_ffff_ffff_ffff {
      GetIsShown(bytes, at, 8, if v.integer < 0 then v.integer + 0x1_0000_0000_0000_0000 else v.integer);
    }
  }

  /** In memory, too, the address of a string or an array stands before its length, in four bytes each. */
  lemma AddressesLieBeforeLengths(
    p: Platform, element: Type, bytes: seq<Byte>, at: nat, pointer: nat, n: nat, text: Text, items: seq<Value>)
    requires Shown(bytes, at, 4, pointer) && Shown(bytes, at + 4, 4, n)
    ensures ReadMemory(p, TextType, bytes, at) == Ok(Str(text)) <==>
            pointer + n <= |bytes| && p.decode(bytes[pointer..pointer + n]) == Some(text)
    ensures ReadMemory(p, Array(element), bytes, at) == Ok(List(items)) <==>
            && |items| == n
            && forall i: nat :: i < n ==> ReadMemory(p, element, bytes, ElementAt(pointer, Size(element), i)) == Ok(items[i])
  {
    hide Get, Shown, ReadMemory, ReadAll, LayoutOf;
    GetIsShown(bytes, at, 4, pointer);
    GetIsShown(bytes, at + 4, 4, n);
    ReadsPair(p, element, bytes, at, pointer, n);
    ReadsEach(p, Repeat(element, n), Strides(pointer, Size(element), n), bytes, items);
  }

  lemma ReadsPair(p: Platform, element: Type, bytes: seq<Byte>, at: nat, pointer: nat, n: nat)
    requires Get(bytes, at, 4) == Ok(pointer) && Get(bytes, at + 4, 4) == Ok(n)
    ensures ReadMemory(p, TextType, bytes, at) == DecodeText(p, bytes, pointer, n)
    ensures ReadMemory(p, Array(element), bytes, at) == ReadArray(p, element, bytes, pointer, n)
  {
    hide Get, ReadArray, DecodeText;
  }

  /* ---------- side by side ---------- */

  /** The first lane of value `i`. */
  function FirstLane(types: seq<Type>, i: nat): nat
    requires i <= |types|
  {
    if i == 0 then 0 else FirstLane(types, i - 1) + |Flat(types[i - 1])|
  }

  lemma {:induction false} FirstLaneLater(types: seq<Type>, i: nat)
    requires 0 < i <= |types|
    ensures FirstLane(types, i) == |Flat(types[0])| + FirstLane(types[1..], i - 1)
  {
    hide Flat;
    if i > 1 { FirstLaneLater(types, i - 1); }
  }

  lemma {:induction false} FirstLaneWithin(types: seq<Type>, i: nat)
    requires i < |types|
    ensures FirstLane(types, i) + |Flat(types[i])| <= FirstLane(types, |types|)
    decreases |types| - i
  {
    hide Flat;
    if i + 1 < |types| { FirstLaneWithin(types, i + 1); }
  }

  lemma SliceOf(a: seq<LaneType>, b: seq<LaneType>, x: nat, y: nat)
    requires x <= y <= |b|
    ensures (a + b)[|a| + x..|a| + y] == b[x..y] && (a + b)[0..|a|] == a
  {
  }

  lemma {:induction false} WholeWidth(types: seq<Type>)
    ensures |FlatAll(types)| == FirstLane(types, |types|)
  {
    hide Flat, FirstLane;
    FirstLanes(types);
    if types != [] {
      FirstLaneLater(types, |types|);
      WholeWidth(types[1..]);
    }
  }

  /** The lanes of values side by side are their own lanes, one after the other in order. */
  lemma {:induction false} LanesFollowEachOther(types: seq<Type>, i: nat)
    requires i < |types|
    ensures |FlatAll(types)| == FirstLane(types, |types|)
    ensures FirstLane(types, i) + |Flat(types[i])| <= |FlatAll(types)|
    ensures FlatAll(types)[FirstLane(types, i)..FirstLane(types, i) + |Flat(types[i])|] == Flat(types[i])
    decreases |types|
  {
    hide Flat, FlatAll, FirstLane;
    FirstLanes(types);
    WholeWidth(types);
    var own, rest := Flat(types[0]), types[1..];
    if i == 0 {
      SliceOf(own, FlatAll(rest), 0, 0);
    } else {
      LanesFollowEachOther(rest, i - 1);
      FirstLaneLater(types, i);
      assert types[i] == rest[i - 1];
      var first := FirstLane(rest, i - 1);
      SliceOf(own, FlatAll(rest), first, first + |Flat(rest[i - 1])|);
    }
  }

  lemma FirstLanes(types: seq<Type>)
    ensures FirstLane(types, 0) == 0
    ensures types != [] ==> FlatAll(types) == Flat(types[0]) + FlatAll(types[1..])
    ensures types == [] ==> FlatAll(types) == []
  {
    hide Flat;
  }

  lemma {:induction false} LiftsEach(p: Platform, types: seq<Type>, lanes: seq<Lane>, bytes: seq<Byte>, values: seq<Value>)
    requires |lanes| == FirstLane(types, |types|)
    ensures LiftAll(p, types, lanes, bytes) == Ok(values) <==>
            |values| == |types| && forall i :: 0 <= i < |types| ==> LiftsAt(p, types, lanes, bytes, values[i], i)
  {
    hide Flat, Lift, LiftsAt, FirstLane;
    FirstLanes(types);
    if types != [] {
      var rest := types[1..];
      FirstLaneLater(types, |types|);
      FirstWidth(types);
      if |values| == |types| {
        LiftsEach(p, rest, lanes[|Flat(types[0])|..], bytes, values[1..]);
        forall i | 0 < i < |types|
          ensures LiftsAt(p, types, lanes, bytes, values[i], i) <==> LiftsAt(p, rest, lanes[|Flat(types[0])|..], bytes, values[1..][i - 1], i - 1)
        {
          LiftsLater(p, types, lanes, bytes, values[i], i);
        }
        LiftsFirst(p, types, lanes, bytes, values[0]);
        LiftsRest(p, types, lanes, bytes, values);
        assert values == [values[0]] + values[1..];
      }
    }
  }

  /** Value `i` is lifted from its own lanes. */
  ghost predicate LiftsAt(p: Platform, types: seq<Type>, lanes: seq<Lane>, bytes: seq<Byte>, v: Value, i: nat)
    requires i < |types|
  {
    var first := FirstLane(types, i);
    first + |Flat(types[i])| <= |lanes| && Lift(p, types[i], lanes[first..first + |Flat(types[i])|], bytes) == Ok(v)
  }

  lemma FirstWidth(types: seq<Type>)
    requires types != []
    ensures |Flat(types[0])| <= FirstLane(types, |types|)
  {
    FirstLaneWithin(types, 0);
  }

  lemma LiftsFirst(p: Platform, types: seq<Type>, lanes: seq<Lane>, bytes: seq<Byte>, v: Value)
    requires types != [] && |Flat(types[0])| <= |lanes|
    ensures LiftsAt(p, types, lanes, bytes, v, 0) <==> Lift(p, types[0], lanes[..|Flat(types[0])|], bytes) == Ok(v)
  {
    hide Flat, Lift;
  }

  lemma LiftsLater(p: Platform, types: seq<Type>, lanes: seq<Lane>, bytes: seq<Byte>, v: Value, i: nat)
    requires 0 < i < |types| && |Flat(types[0])| <= |lanes|
    ensures LiftsAt(p, types, lanes, bytes, v, i) <==> LiftsAt(p, types[1..], lanes[|Flat(types[0])|..], bytes, v, i - 1)
  {
    hide Flat, Lift, FirstLane;
    FirstLaneLater(types, i);
    var width, first := |Flat(types[0])|, FirstLane(types, i);
    var more := |Flat(types[i])|;
    if first + more <= |lanes| {
      assert lanes[first..first + more] == lanes[width..][first - width..first - width + more];
    }
  }

  lemma LiftsRest(p: Platform, types: seq<Type>, lanes: seq<Lane>, bytes: seq<Byte>, values: seq<Value>)
    requires |values| == |types| && types != [] && |Flat(types[0])| <= |lanes|
    requires forall i :: 0 < i < |types| ==>
               (LiftsAt(p, types, lanes, bytes, values[i], i)
                <==> LiftsAt(p, types[1..], lanes[|Flat(types[0])|..], bytes, values[1..][i - 1], i - 1))
    ensures (forall i :: 0 <= i < |types| ==> LiftsAt(p, types, lanes, bytes, values[i], i)) <==>
            && LiftsAt(p, types, lanes, bytes, values[0], 0)
            && forall i :: 0 <= i < |types[1..]| ==> LiftsAt(p, types[1..], lanes[|Flat(types[0])|..], bytes, values[1..][i], i)
  {
    hide Flat, LiftsAt;
    var rest, tail := types[1..], lanes[|Flat(types[0])|..];
    if forall i :: 0 <= i < |types| ==> LiftsAt(p, types, lanes, bytes, values[i], i) {
      forall i | 0 <= i < |rest| ensures LiftsAt(p, rest, tail, bytes, values[1..][i], i) {
        assert LiftsAt(p, types, lanes, bytes, values[i + 1], i + 1);
      }
    }
  }

  /** A record is lifted from its fields' lanes in the order of their declaration. */
  lemma RecordsLiftInDeclaredOrder(p: Platform, fields: seq<Field>, lanes: seq<Lane>, bytes: seq<Byte>, members: map<Text, Value>)
    requires DistinctNames(fields)
    ensures var types := FieldTypes(fields);
            Lift(p, Record(fields), lanes, bytes) == Ok(Rec(members)) <==>
            && |lanes| == FirstLane(types, |types|) && Named(fields, members)
            && forall i :: 0 <= i < |fields| ==> LiftsAt(p, types, lanes, bytes, members[fields[i].name], i)
  {
    hide Lift, LiftAll, LiftsAt, Collect, FirstLane, Flat;
    var types := FieldTypes(fields);
    LiftsRecord(p, fields, lanes, bytes);
    WholeWidth(types);
    if |lanes| == FirstLane(types, |types|) {
      var all := LiftAll(p, types, lanes, bytes);
      if all.Ok? {
        LiftsEach(p, types, lanes, bytes, all.value);
        CollectsExactly(fields, all.value, members);
      }
      if Named(fields, members) {
        var values := seq(|fields|, i requires 0 <= i < |fields| => members[fields[i].name]);
        LiftsEach(p, types, lanes, bytes, values);
        CollectsExactly(fields, values, members);
      }
    }
  }

  lemma LiftsRecord(p: Platform, fields: seq<Field>, lanes: seq<Lane>, bytes: seq<Byte>)
    ensures Lift(p, Record(fields), lanes, bytes) ==
            if |lanes| != |FlatAll(FieldTypes(fields))| then Err(TypeFault) else Assembled(fields, LiftAll(p, FieldTypes(fields), lanes, bytes))
  {
    hide LiftAll, Collect, FlatAll, LayoutOf, ReadArray, LiftVariant, DecodeText;
    RecordDepth(fields, fields);
  }
}
