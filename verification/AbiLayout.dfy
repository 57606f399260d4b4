/** ABI types, their flat core lanes and their linear-memory layout. */
module AbiLayouts {
  datatype Option<+T> = None | Some(value: T)

  /** A JavaScript string is a sequence of UTF-16 code units. */
  type CodeUnit = u: int | 0 <= u < 0x1_0000
  type Text = seq<CodeUnit>

  datatype Field = Field(name: Text, of: Type)
  datatype Case = Case(name: Text, payload: Option<Type>)

  datatype Type =
    | Unit
    | Boolean
    | Integer64
    | Float32
    | Float64
    | TextType
    | Array(element: Type)
    | Record(fields: seq<Field>)
    | Variant(cases: seq<Case>)
    | Sealed(name: Text, inner: Type)

  datatype LaneType = LaneI32 | LaneI64 | LaneF32 | LaneF64

  /* ---------- depth, the termination measure of everything below ---------- */

  function Depth(t: Type): nat
    decreases t
  {
    match t
    case Array(element) => 1 + Depth(element)
    case Sealed(_, inner) => 1 + Depth(inner)
    case Record(fields) => 1 + FieldsDepth(fields)
    case Variant(cases) => 1 + CasesDepth(cases)
    case _ => 0
  }

  function FieldsDepth(fields: seq<Field>): (d: nat)
    ensures forall f :: f in fields ==> Depth(f.of) <= d
    decreases fields
  {
    if fields == [] then 0
    else
      var first, rest := Depth(fields[0].of), FieldsDepth(fields[1..]);
      assert forall f :: f in fields ==> f == fields[0] || f in fields[1..];
      if first > rest then first else rest
  }

  function CasesDepth(cases: seq<Case>): (d: nat)
    ensures forall c :: c in cases && c.payload.Some? ==> Depth(c.payload.value) <= d
    decreases cases
  {
    if cases == [] then 0
    else
      var first := if cases[0].payload.Some? then Depth(cases[0].payload.value) else 0;
      var rest := CasesDepth(cases[1..]);
      assert forall c :: c in cases ==> c == cases[0] || c in cases[1..];
      if first > rest then first else rest
  }

  function MaxDepth(types: seq<Type>): (d: nat)
    ensures forall i :: 0 <= i < |types| ==> Depth(types[i]) <= d
  {
    if types == [] then 0
    else
      var first, rest := Depth(types[0]), MaxDepth(types[1..]);
      assert forall i :: 1 <= i < |types| ==> types[i] == types[1..][i - 1];
      if first > rest then first else rest
  }

  lemma {:induction false} MaxDepthBound(types: seq<Type>, bound: nat)
    requires forall i :: 0 <= i < |types| ==> Depth(types[i]) <= bound
    ensures MaxDepth(types) <= bound
  {
    if types != [] {
      MaxDepthBound(types[1..], bound);
    }
  }

  /* ---------- names ---------- */

  /** JavaScript's `<` on strings. */
  predicate Before(a: Text, b: Text) {
    if b == [] then false
    else if a == [] then true
    else if a[0] != b[0] then a[0] < b[0]
    else Before(a[1..], b[1..])
  }

  function InsertField(f: Field, sorted: seq<Field>): (r: seq<Field>)
    ensures forall g :: g in r <==> g == f || g in sorted
    ensures |r| == |sorted| + 1
  {
    if sorted == [] || !Before(sorted[0].name, f.name) then [f] + sorted
    else
      assert forall g :: g in sorted <==> g == sorted[0] || g in sorted[1..];
      [sorted[0]] + InsertField(f, sorted[1..])
  }

  /** The stable sort of record fields by name. */
  function SortFields(fields: seq<Field>): (r: seq<Field>)
    ensures forall g :: g in r <==> g in fields
    ensures |r| == |fields|
  {
    if fields == [] then []
    else
      assert forall g :: g in fields <==> g == fields[0] || g in fields[1..];
      InsertField(fields[0], SortFields(fields[1..]))
  }

  function InsertCase(c: Case, sorted: seq<Case>): (r: seq<Case>)
    ensures forall d :: d in r <==> d == c || d in sorted
    ensures |r| == |sorted| + 1
  {
    if sorted == [] || !Before(sorted[0].name, c.name) then [c] + sorted
    else
      assert forall d :: d in sorted <==> d == sorted[0] || d in sorted[1..];
      [sorted[0]] + InsertCase(c, sorted[1..])
  }

  function SortCases(cases: seq<Case>): (r: seq<Case>)
    ensures forall d :: d in r <==> d in cases
    ensures |r| == |cases|
  {
    if cases == [] then []
    else
      assert forall d :: d in cases <==> d == cases[0] || d in cases[1..];
      InsertCase(cases[0], SortCases(cases[1..]))
  }

  predicate FieldsInOrder(fields: seq<Field>) {
    forall i, j :: 0 <= i < j < |fields| ==> Before(fields[i].name, fields[j].name)
  }

  predicate CasesInOrder(cases: seq<Case>) {
    forall i, j :: 0 <= i < j < |cases| ==> Before(cases[i].name, cases[j].name)
  }

  lemma {:induction false} BeforeIsAsymmetric(a: Text, b: Text)
    ensures Before(a, b) ==> !Before(b, a) && a != b
    decreases |a|
  {
    if a != [] && b != [] && a[0] == b[0] {
      BeforeIsAsymmetric(a[1..], b[1..]);
    }
  }

  lemma {:induction false} SortedFieldsStay(fields: seq<Field>)
    requires FieldsInOrder(fields)
    ensures SortFields(fields) == fields
  {
    if fields != [] {
      SortedFieldsStay(fields[1..]);
      if |fields| > 1 {
        BeforeIsAsymmetric(fields[0].name, fields[1].name);
      }
    }
  }

  lemma {:induction false} SortedCasesStay(cases: seq<Case>)
    requires CasesInOrder(cases)
    ensures SortCases(cases) == cases
  {
    if cases != [] {
      SortedCasesStay(cases[1..]);
      if |cases| > 1 {
        BeforeIsAsymmetric(cases[0].name, cases[1].name);
      }
    }
  }

  function FieldTypes(fields: seq<Field>): (r: seq<Type>)
    ensures |r| == |fields|
  {
    seq(|fields|, i requires 0 <= i < |fields| => fields[i].of)
  }

  /** A case without payload takes the room of a unit. */
  function PayloadType(c: Case): Type {
    if c.payload.None? then Unit else c.payload.value
  }

  function PayloadTypes(cases: seq<Case>): (r: seq<Type>)
    ensures |r| == |cases|
  {
    seq(|cases|, i requires 0 <= i < |cases| => PayloadType(cases[i]))
  }

  function Repeat(t: Type, n: nat): (r: seq<Type>)
    ensures |r| == n
  {
    seq(n, _ => t)
  }

  lemma RecordDepth(fields: seq<Field>, part: seq<Field>)
    requires forall f :: f in part ==> f in fields
    ensures MaxDepth(FieldTypes(part)) < Depth(Record(fields))
  {
    MaxDepthBound(FieldTypes(part), FieldsDepth(fields));
  }

  lemma VariantDepth(cases: seq<Case>, part: seq<Case>)
    requires forall c :: c in part ==> c in cases
    ensures MaxDepth(PayloadTypes(part)) < Depth(Variant(cases))
  {
    forall i | 0 <= i < |part| ensures Depth(PayloadTypes(part)[i]) <= CasesDepth(cases) {
      assert part[i] in cases;
    }
    MaxDepthBound(PayloadTypes(part), CasesDepth(cases));
  }

  lemma ArrayDepth(element: Type, n: nat)
    ensures MaxDepth(Repeat(element, n)) < Depth(Array(element))
  {
    MaxDepthBound(Repeat(element, n), Depth(element));
  }

  /* ---------- flat lanes ---------- */

  function JoinLane(left: LaneType, right: LaneType): LaneType {
    if left == right then left
    else if left in {LaneI32, LaneF32} && right in {LaneI32, LaneF32} then LaneI32
    else LaneI64
  }

  /** Position by position; the longer list supplies the rest. */
  function Join(left: seq<LaneType>, right: seq<LaneType>): (r: seq<LaneType>)
    ensures |r| == if |left| > |right| then |left| else |right|
  {
    seq(if |left| > |right| then |left| else |right|,
        i requires 0 <= i < |left| || 0 <= i < |right| =>
          if i >= |left| then right[i] else if i >= |right| then left[i] else JoinLane(left[i], right[i]))
  }

  /** `flattenedAbiType`. */
  function Flat(t: Type): seq<LaneType>
    decreases Depth(t), 1, 0
  {
    match t
    case Unit => []
    case Boolean => [LaneI32]
    case Integer64 => [LaneI64]
    case Float32 => [LaneF32]
    case Float64 => [LaneF64]
    case TextType => [LaneI32, LaneI32]
    case Array(_) => [LaneI32, LaneI32]
    case Sealed(_, inner) => Flat(inner)
    case Record(fields) =>
      RecordDepth(fields, fields);
      FlatAll(FieldTypes(fields))
    case Variant(cases) =>
      VariantDepth(cases, cases);
      [LaneI32] + JoinAll(PayloadTypes(cases))
  }

  function FlatAll(types: seq<Type>): seq<LaneType>
    decreases MaxDepth(types), 2, |types|
  {
    if types == [] then []
    else
      MaxDepthBound(types[1..], MaxDepth(types));
      Flat(types[0]) + FlatAll(types[1..])
  }

  /** The join of the payload lanes of all cases, first case first. */
  function JoinAll(types: seq<Type>): seq<LaneType>
    decreases MaxDepth(types), 2, |types|
  {
    if types == [] then []
    else
      var last := |types| - 1;
      MaxDepthBound(types[..last], MaxDepth(types));
      Join(JoinAll(types[..last]), Flat(types[last]))
  }

  /** A lane of type `from` fits in a joined lane of type `to`. */
  predicate Widens(from: LaneType, to: LaneType) {
    from == to || to == LaneI64 || (from == LaneF32 && to == LaneI32)
  }

  predicate WidensAll(from: seq<LaneType>, to: seq<LaneType>) {
    |from| <= |to| && forall i :: 0 <= i < |from| ==> Widens(from[i], to[i])
  }

  /** Joined lanes are wide enough for the lanes of every case. */
  lemma {:induction false} JoinAllIsWideEnough(types: seq<Type>, k: nat)
    requires k < |types|
    ensures WidensAll(Flat(types[k]), JoinAll(types))
  {
    var last := |types| - 1;
    var before := JoinAll(types[..last]);
    if k < last {
      JoinAllIsWideEnough(types[..last], k);
      assert types[..last][k] == types[k];
    }
  }

  /* ---------- memory layout ---------- */

  datatype Layout = Layout(alignment: nat, size: nat)

  /** The next multiple of the alignment. */
  function AlignTo(value: nat, alignment: nat): (r: nat)
    requires alignment > 0
    ensures value <= r < value + alignment && r % alignment == 0
  {
    var over := value % alignment;
    AlignUp(value, alignment);
    if over == 0 then value else value + (alignment - over)
  }

  lemma AlignUp(value: nat, alignment: nat)
    requires alignment > 0
    ensures (value + (alignment - value % alignment)) % alignment == 0
  {
    var q := value / alignment;
    assert value == q * alignment + value % alignment;
    assert value + (alignment - value % alignment) == (q + 1) * alignment;
    Multiple(q + 1, alignment);
  }

  lemma Multiple(q: nat, alignment: nat)
    requires alignment > 0
    ensures (q * alignment) % alignment == 0
  {
    var x := q * alignment;
    var k, r := x / alignment, x % alignment;
    assert x == alignment * k + r;
    if q > k {
      Gap(q, k, alignment);
    } else if q < k {
      Gap(k, q, alignment);
    }
  }

  lemma Gap(more: nat, less: nat, a: nat)
    requires more > less
    ensures more * a >= less * a + a
  {
    var d := more - less;
    assert more * a == (less + d) * a == less * a + d * a;
    assert d * a == a + (d - 1) * a;
  }

  function Max(a: nat, b: nat): nat {
    if a > b then a else b
  }

  function DiscriminantSize(count: nat): nat {
    if count <= 256 then 1 else if count <= 65_536 then 2 else 4
  }

  /** `AbiMemoryLayouts`. */
  function LayoutOf(t: Type): (l: Layout)
    ensures l.alignment in {1, 2, 4, 8}
    decreases Depth(t), 1, 0
  {
    match t
    case Unit => Layout(1, 0)
    case Boolean => Layout(1, 1)
    case Float32 => Layout(4, 4)
    case Integer64 => Layout(8, 8)
    case Float64 => Layout(8, 8)
    case TextType => Layout(4, 8)
    case Array(_) => Layout(4, 8)
    case Sealed(_, inner) => LayoutOf(inner)
    case Record(fields) =>
      RecordDepth(fields, SortFields(fields));
      Block(FieldTypes(SortFields(fields)))
    case Variant(cases) =>
      VariantDepth(cases, SortCases(cases));
      var payloads := PayloadTypes(SortCases(cases));
      var discriminant := DiscriminantSize(|cases|);
      var alignment := Max(discriminant, MaxAlignment(payloads));
      Layout(alignment, AlignTo(AlignTo(discriminant, MaxAlignment(payloads)) + MaxSize(payloads), alignment))
  }

  /** Values side by side in the given order: a record, or a parameter block. */
  function Block(types: seq<Type>): (l: Layout)
    ensures l.alignment in {1, 2, 4, 8}
    decreases MaxDepth(types), 3, 0
  {
    Layout(MaxAlignment(types), AlignTo(End(types, 0), MaxAlignment(types)))
  }

  function MaxAlignment(types: seq<Type>): (a: nat)
    ensures a in {1, 2, 4, 8}
    decreases MaxDepth(types), 2, |types|
  {
    if types == [] then 1
    else
      MaxDepthBound(types[1..], MaxDepth(types));
      Max(LayoutOf(types[0]).alignment, MaxAlignment(types[1..]))
  }

  function MaxSize(types: seq<Type>): nat
    decreases MaxDepth(types), 2, |types|
  {
    if types == [] then 0
    else
      MaxDepthBound(types[1..], MaxDepth(types));
      Max(LayoutOf(types[0]).size, MaxSize(types[1..]))
  }

  /** The offset after the last of `types` when they start at `offset`. */
  function End(types: seq<Type>, offset: nat): (r: nat)
    ensures r >= offset
    decreases MaxDepth(types), 2, |types|
  {
    if types == [] then offset
    else
      MaxDepthBound(types[1..], MaxDepth(types));
      var l := LayoutOf(types[0]);
      End(types[1..], AlignTo(offset, l.alignment) + l.size)
  }

  function Size(t: Type): nat {
    LayoutOf(t).size
  }

  function PayloadOffset(cases: seq<Case>): nat {
    AlignTo(DiscriminantSize(|cases|), MaxAlignment(PayloadTypes(SortCases(cases))))
  }

  /** Where the values of a block at `base` are. */
  function Slots(types: seq<Type>, base: nat, offset: nat): (r: seq<nat>)
    ensures |r| == |types|
  {
    if types == [] then []
    else
      var at := AlignTo(offset, LayoutOf(types[0]).alignment);
      [base + at] + Slots(types[1..], base, at + Size(types[0]))
  }

  /** Where the elements of an array are. */
  function Strides(pointer: nat, stride: nat, n: nat): (r: seq<nat>)
    ensures |r| == n
  {
    seq(n, i requires 0 <= i < n => pointer + i * stride)
  }

  /** The values at these slots lie in order and without overlap in `[low, high)`. */
  predicate Fits(types: seq<Type>, slots: seq<nat>, low: nat, high: nat)
    requires |types| == |slots|
  {
    if types == [] then low <= high
    else low <= slots[0] && Fits(types[1..], slots[1..], slots[0] + Size(types[0]), high)
  }

  lemma {:induction false} BlockFits(types: seq<Type>, base: nat, offset: nat)
    ensures Fits(types, Slots(types, base, offset), base + offset, base + End(types, offset))
  {
    hide LayoutOf, AlignTo;
    if types != [] {
      var at := AlignTo(offset, LayoutOf(types[0]).alignment);
      BlockFits(types[1..], base, at + Size(types[0]));
      assert Slots(types, base, offset)[1..] == Slots(types[1..], base, at + Size(types[0]));
      FitsBelow(types, Slots(types, base, offset), base + at, base + offset, base + End(types, offset));
    }
  }

  lemma FitsBelow(types: seq<Type>, slots: seq<nat>, low: nat, lower: nat, high: nat)
    requires |types| == |slots| && lower <= low && Fits(types, slots, low, high)
    ensures Fits(types, slots, lower, high)
  {
  }

  lemma {:induction false} FitsAbove(types: seq<Type>, slots: seq<nat>, low: nat, high: nat, higher: nat)
    requires |types| == |slots| && high <= higher && Fits(types, slots, low, high)
    ensures Fits(types, slots, low, higher)
  {
    if types != [] {
      FitsAbove(types[1..], slots[1..], slots[0] + Size(types[0]), high, higher);
    }
  }

  lemma {:induction false} FitsWithin(types: seq<Type>, slots: seq<nat>, low: nat, high: nat)
    requires |types| == |slots| && Fits(types, slots, low, high)
    ensures low <= high
    ensures forall i :: 0 <= i < |types| ==> low <= slots[i] && slots[i] + Size(types[i]) <= high
  {
    if types != [] {
      FitsWithin(types[1..], slots[1..], slots[0] + Size(types[0]), high);
      forall i | 0 < i < |types| ensures low <= slots[i] && slots[i] + Size(types[i]) <= high {
        assert slots[i] == slots[1..][i - 1] && types[i] == types[1..][i - 1];
      }
    }
  }

  /** A record or parameter block holds its values in order, apart, and inside its size. */
  lemma BlockHolds(types: seq<Type>, base: nat)
    ensures Fits(types, Slots(types, base, 0), base, base + Block(types).size)
  {
    hide LayoutOf, AlignTo;
    BlockFits(types, base, 0);
    FitsAbove(types, Slots(types, base, 0), base, base + End(types, 0), base + Block(types).size);
  }

  /** Consecutive array elements lie apart. */
  lemma {:induction false} StridesFit(element: Type, pointer: nat, n: nat)
    ensures Fits(Repeat(element, n), Strides(pointer, Size(element), n), pointer, pointer + Size(element) * n)
    decreases n
  {
    hide LayoutOf;
    var stride := Size(element);
    if n > 0 {
      StridesFit(element, pointer + stride, n - 1);
      assert Repeat(element, n)[1..] == Repeat(element, n - 1);
      StridesTail(pointer, stride, n);
    }
  }

  lemma StridesTail(pointer: nat, stride: nat, n: nat)
    requires n > 0
    ensures Strides(pointer, stride, n)[0] == pointer
    ensures Strides(pointer, stride, n)[1..] == Strides(pointer + stride, stride, n - 1)
    ensures pointer + stride + stride * (n - 1) == pointer + stride * n
  {
    forall i | 0 <= i < n - 1
      ensures Strides(pointer, stride, n)[1..][i] == Strides(pointer + stride, stride, n - 1)[i]
    {
      assert pointer + (i + 1) * stride == pointer + stride + i * stride;
    }
  }

  /** Alignments are powers of two, so the larger of two is a multiple of the smaller. */
  predicate Divides(a: nat, b: nat)
    requires a > 0
  {
    b % a == 0
  }

  lemma {:induction false} AlignmentsDivide(types: seq<Type>, k: nat)
    requires k < |types|
    ensures Divides(LayoutOf(types[k]).alignment, MaxAlignment(types))
  {
    hide LayoutOf;
    if k > 0 {
      AlignmentsDivide(types[1..], k - 1);
      assert types[1..][k - 1] == types[k];
    }
  }

  lemma DividesTransitive(a: nat, b: nat, c: nat)
    requires a in {1, 2, 4, 8} && b in {1, 2, 4, 8} && c in {1, 2, 4, 8}
    requires a <= b && Divides(b, c)
    ensures Divides(a, c)
  {
  }

  lemma AlignedSum(base: nat, at: nat, a: nat, b: nat, c: nat)
    requires a in {1, 2, 4, 8} && b in {1, 2, 4, 8} && c in {1, 2, 4, 8}
    requires a <= b && Divides(b, c) && base % c == 0 && at % a == 0
    ensures (base + at) % a == 0
  {
    if c == 8 { Eight(base, base / 8); } else if c == 4 { Four(base, base / 4); }
    assert base % a == 0;
    Sums(base, at, a);
  }

  lemma Eight(x: nat, q: nat)
    requires x == 8 * q
    ensures x % 4 == 0 && x % 2 == 0 && x % 1 == 0
  {
    Multiple(2 * q, 4);
    Multiple(4 * q, 2);
    Multiple(8 * q, 1);
  }

  lemma Four(x: nat, q: nat)
    requires x == 4 * q
    ensures x % 2 == 0 && x % 1 == 0
  {
    Multiple(2 * q, 2);
    Multiple(4 * q, 1);
  }

  lemma Sums(x: nat, y: nat, a: nat)
    requires a > 0 && x % a == 0 && y % a == 0
    ensures (x + y) % a == 0
  {
    var q, r := x / a, y / a;
    assert x == a * q && y == a * r;
    assert x + y == (q + r) * a;
    Multiple(q + r, a);
  }

  /** In a block at an aligned base every value is aligned. */
  lemma {:induction false} SlotsAligned(types: seq<Type>, base: nat, offset: nat, whole: nat)
    requires whole in {1, 2, 4, 8} && base % whole == 0 && Divides(MaxAlignment(types), whole)
    ensures forall i :: 0 <= i < |types| ==> Slots(types, base, offset)[i] % LayoutOf(types[i]).alignment == 0
  {
    hide LayoutOf, AlignTo;
    if types != [] {
      AlignmentsDivide(types, 0);
      var a := LayoutOf(types[0]).alignment;
      var at := AlignTo(offset, a);
      AlignedSum(base, at, a, MaxAlignment(types), whole);
      DividesTransitive(MaxAlignment(types[1..]), MaxAlignment(types), whole);
      SlotsAligned(types[1..], base, at + Size(types[0]), whole);
      forall i | 0 < i < |types| ensures Slots(types, base, offset)[i] % LayoutOf(types[i]).alignment == 0 {
        assert types[i] == types[1..][i - 1];
      }
    }
  }

  /** A size is a multiple of its alignment, so array elements stay aligned. */
  lemma {:induction false} SizeIsAligned(t: Type)
    ensures Size(t) % LayoutOf(t).alignment == 0
    decreases Depth(t)
  {
    hide AlignTo;
    if t.Sealed? { SizeIsAligned(t.inner); }
  }

  lemma {:induction false} MaxSizeBounds(types: seq<Type>, k: nat)
    requires k < |types|
    ensures Size(types[k]) <= MaxSize(types)
  {
    hide LayoutOf;
    if k > 0 {
      MaxSizeBounds(types[1..], k - 1);
      assert types[1..][k - 1] == types[k];
    }
  }

  /** The discriminant and the payload of every case lie apart, inside the variant. */
  lemma PayloadFits(cases: seq<Case>, k: nat)
    requires k < |cases|
    ensures DiscriminantSize(|cases|) <= PayloadOffset(cases)
    ensures PayloadOffset(cases) + Size(PayloadType(SortCases(cases)[k])) <= Size(Variant(cases))
  {
    hide AlignTo, SortCases, MaxAlignment, MaxSize, DiscriminantSize, Depth, MaxDepth, CasesDepth, Block, FieldTypes, SortFields, End;
    VariantDepth(cases, SortCases(cases));
    MaxSizeBounds(PayloadTypes(SortCases(cases)), k);
  }

  /** A value with lanes takes room in memory. */
  lemma {:induction false} LanesTakeRoom(t: Type)
    ensures Flat(t) != [] ==> Size(t) > 0
    decreases Depth(t), 1, 0
  {
    hide AlignTo;
    if t.Sealed? {
      LanesTakeRoom(t.inner);
    } else if t.Record? && Flat(t) != [] {
      RecordDepth(t.fields, t.fields);
      var k := SomeLanes(FieldTypes(t.fields));
      assert t.fields[k] in t.fields;
      LanesTakeRoom(t.fields[k].of);
      RecordTakesRoom(t.fields, t.fields[k]);
    } else if t.Variant? {
      PayloadRoom(t.cases);
    }
  }

  lemma RecordTakesRoom(fields: seq<Field>, f: Field)
    requires f in fields
    ensures Size(Record(fields)) >= Size(f.of)
  {
    hide AlignTo;
    RecordDepth(fields, SortFields(fields));
    var i := IndexOf(SortFields(fields), f);
    var types := FieldTypes(SortFields(fields));
    assert types[i] == f.of;
    EndHolds(types, 0, i);
    assert Size(Record(fields)) == Block(types).size;
  }

  lemma PayloadRoom(cases: seq<Case>)
    ensures Size(Variant(cases)) > 0
  {
    hide AlignTo;
    VariantDepth(cases, SortCases(cases));
  }

  lemma {:induction false} SomeLanes(types: seq<Type>) returns (k: nat)
    requires FlatAll(types) != []
    ensures k < |types| && Flat(types[k]) != []
  {
    if Flat(types[0]) != [] {
      k := 0;
    } else {
      k := SomeLanes(types[1..]);
      k := k + 1;
    }
  }

  lemma IndexOf(fields: seq<Field>, f: Field) returns (i: nat)
    requires f in fields
    ensures i < |fields| && fields[i] == f
  {
    i :| i < |fields| && fields[i] == f;
  }

  lemma {:induction false} EndHolds(types: seq<Type>, offset: nat, k: nat)
    requires k < |types|
    ensures End(types, offset) >= offset + Size(types[k])
  {
    hide LayoutOf, AlignTo;
    var at := AlignTo(offset, LayoutOf(types[0]).alignment) + Size(types[0]);
    if k > 0 {
      EndHolds(types[1..], at, k - 1);
      assert types[1..][k - 1] == types[k];
    }
  }
}
