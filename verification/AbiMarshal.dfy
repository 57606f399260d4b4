/** Lowering, lifting, storing and loading of host values, as functions of the guest memory. */
module AbiMarshals {
  import opened AbiLayouts
  import opened AbiLanes

  const MAXIMUM_FLAT_PARAMETERS: nat := 16

  datatype Value =
    | Nothing
    | Flag(flag: bool)
    | Integer(integer: int)
    | Single(single: Bits32)
    | Double(double: Bits64)
    | Str(text: Text)
    | List(items: seq<Value>)
    | Rec(members: map<Text, Value>)
    | Tagged(name: Text, payload: Option<Value>)
    | Seal(seal: Text, inner: Value)

  /** Guest memory, and the addresses that its allocator has handed out. */
  datatype Heap = Heap(bytes: seq<Byte>, owned: set<nat>)

  datatype Grant = Refusal | Granted(pointer: nat, heap: Heap)

  /** What lies outside: the guest's allocator, `TextEncoder` and the fatal `TextDecoder`. */
  datatype Platform = Platform(
    allocate: (Heap, nat, nat) -> Grant,
    encode: Text -> seq<Byte>,
    decode: seq<Byte> -> Option<Text>)

  datatype Lowered = Lowered(lanes: seq<Lane>, heap: Heap)

  /* ---------- pieces ---------- */

  function FindCase(cases: seq<Case>, name: Text): (r: Option<nat>)
    ensures r.Some? ==> r.value < |cases| && cases[r.value].name == name
    ensures r.None? ==> forall c :: c in cases ==> c.name != name
  {
    if cases == [] then None
    else if cases[0].name == name then Some(0)
    else
      match FindCase(cases[1..], name)
      case None => None
      case Some(k) => Some(k + 1)
  }

  function ZeroLane(t: LaneType): Lane {
    match t
    case LaneI32 => I32(0)
    case LaneI64 => I64(0)
    case LaneF32 => F32(0)
    case LaneF64 => F64(0)
  }

  /** Payload lanes in the joined lanes of a variant, zeros behind. */
  function Widen(lanes: seq<Lane>, types: seq<LaneType>, joined: seq<LaneType>): Result<seq<Lane>> {
    if joined == [] then Ok([])
    else
      var first := if lanes == [] || types == [] then Ok(ZeroLane(joined[0])) else ConvertLane(lanes[0], types[0], joined[0]);
      if first.Err? then Err(first.fault)
      else
        var rest := Widen(if lanes == [] then [] else lanes[1..], if types == [] then [] else types[1..], joined[1..]);
        if rest.Err? then rest else Ok([first.value] + rest.value)
  }

  /** The lanes of the selected case out of the joined lanes. */
  function Narrow(lanes: seq<Lane>, joined: seq<LaneType>, types: seq<LaneType>): Result<seq<Lane>> {
    if types == [] then Ok([])
    else if lanes == [] || joined == [] then Err(TypeFault)
    else
      var first := ConvertLane(lanes[0], joined[0], types[0]);
      if first.Err? then Err(first.fault)
      else
        var rest := Narrow(lanes[1..], joined[1..], types[1..]);
        if rest.Err? then rest else Ok([first.value] + rest.value)
  }

  /** The member of each field, in field order. */
  function Pick(members: map<Text, Value>, fields: seq<Field>): (r: seq<Option<Value>>)
    ensures |r| == |fields|
  {
    seq(|fields|, i requires 0 <= i < |fields| =>
      if fields[i].name in members then Some(members[fields[i].name]) else None)
  }

  /** Fields set one after the other; the last of equal names stays. */
  function Collect(fields: seq<Field>, values: seq<Value>): map<Text, Value>
    requires |fields| == |values|
  {
    if fields == [] then map[]
    else
      var last := |fields| - 1;
      Collect(fields[..last], values[..last])[fields[last].name := values[last]]
  }

  function DecodeText(p: Platform, bytes: seq<Byte>, pointer: nat, length: nat): Result<Value> {
    if pointer + length > |bytes| then Err(RangeFault)
    else
      match p.decode(bytes[pointer..pointer + length])
      case None => Err(TypeFault)
      case Some(text) => Ok(Str(text))
  }

  /* ---------- lowering ---------- */

  function Lower(p: Platform, t: Type, v: Value, h: Heap): Result<Lowered>
    decreases Depth(t), 2, 0
  {
    match t
    case Unit => if v.Nothing? then Ok(Lowered([], h)) else Err(TypeFault)
    case Boolean => if v.Flag? then Ok(Lowered([I32(if v.flag then 1 else 0)], h)) else Err(TypeFault)
    case Integer64 =>
      if !v.Integer? then Err(TypeFault)
      else if !(-0x8000_0000_0000_0000 <= v.integer < 0x8000_0000_0000_0000) then Err(RangeFault)
      else Ok(Lowered([I64(v.integer)], h))
    case Float32 => if v.Single? then Ok(Lowered([F32(v.single)], h)) else Err(TypeFault)
    case Float64 => if v.Double? then Ok(Lowered([F64(v.double)], h)) else Err(TypeFault)
    case TextType => if v.Str? then LowerText(p, v.text, h) else Err(TypeFault)
    case Array(element) => if v.List? then LowerArray(p, element, v.items, h) else Err(TypeFault)
    case Sealed(name, inner) => if v.Seal? && v.seal == name then Lower(p, inner, v.inner, h) else Err(TypeFault)
    case Record(fields) =>
      if !v.Rec? || |v.members| != |fields| then Err(TypeFault)
      else
        RecordDepth(fields, fields);
        LowerAll(p, FieldTypes(fields), Pick(v.members, fields), h)
    case Variant(cases) => if v.Tagged? then LowerVariant(p, cases, v.name, v.payload, h) else Err(TypeFault)
  }

  function LowerText(p: Platform, text: Text, h: Heap): Result<Lowered> {
    var data := p.encode(text);
    match p.allocate(h, |data|, 1)
    case Refusal => Err(Refused)
    case Granted(pointer, g) =>
      if pointer + |data| > |g.bytes| then Err(RangeFault)
      else Ok(Lowered([I32(pointer), I32(|data|)],
                      g.(bytes := g.bytes[..pointer] + data + g.bytes[pointer + |data|..])))
  }

  function LowerArray(p: Platform, element: Type, items: seq<Value>, h: Heap): Result<Lowered>
    decreases Depth(Array(element)), 1, 0
  {
    var layout := LayoutOf(element);
    if layout.size * |items| > 0xffff_ffff then Err(RangeFault)
    else
      match p.allocate(h, layout.size * |items|, layout.alignment)
      case Refusal => Err(Refused)
      case Granted(pointer, g) =>
        ArrayDepth(element, |items|);
        var written := WriteValues(p, Repeat(element, |items|), items, Strides(pointer, layout.size, |items|), g);
        if written.Err? then Err(written.fault)
        else Ok(Lowered([I32(pointer), I32(|items|)], written.value))
  }

  function LowerVariant(p: Platform, cases: seq<Case>, name: Text, payload: Option<Value>, h: Heap): Result<Lowered>
    decreases Depth(Variant(cases)), 1, 0
  {
    var index := FindCase(cases, name);
    if index.None? then Err(TypeFault)
    else
      var selected := cases[index.value];
      assert selected in cases;
      VariantDepth(cases, cases);
      if selected.payload.Some? != payload.Some? then Err(TypeFault)
      else
        var lowered := if payload.None? then Ok(Lowered([], h)) else Lower(p, selected.payload.value, payload.value, h);
        if lowered.Err? then lowered
        else
          var widened := Widen(lowered.value.lanes, Flat(PayloadType(selected)), JoinAll(PayloadTypes(cases)));
          if widened.Err? then Err(widened.fault)
          else Ok(Lowered([I32(index.value)] + widened.value, lowered.value.heap))
  }

  function LowerAll(p: Platform, types: seq<Type>, values: seq<Option<Value>>, h: Heap): Result<Lowered>
    requires |types| == |values|
    decreases MaxDepth(types), 4, |types|
  {
    if types == [] then Ok(Lowered([], h))
    else if values[0].None? then Err(TypeFault)
    else
      var first := Lower(p, types[0], values[0].value, h);
      if first.Err? then first
      else
        MaxDepthBound(types[1..], MaxDepth(types));
        var rest := LowerAll(p, types[1..], values[1..], first.value.heap);
        if rest.Err? then rest else Ok(Lowered(first.value.lanes + rest.value.lanes, rest.value.heap))
  }

  /** `write`. */
  function Write(p: Platform, t: Type, v: Value, at: nat, h: Heap): Result<Heap>
    decreases Depth(t), 3, 0
  {
    var lowered := Lower(p, t, v, h);
    if lowered.Err? then Err(lowered.fault)
    else
      var stored := WriteFlat(t, lowered.value.lanes, at, lowered.value.heap.bytes);
      if stored.Err? then Err(stored.fault) else Ok(lowered.value.heap.(bytes := stored.value))
  }

  function WriteValues(p: Platform, types: seq<Type>, values: seq<Value>, slots: seq<nat>, h: Heap): Result<Heap>
    requires |types| == |values| == |slots|
    decreases MaxDepth(types), 4, |types|
  {
    if types == [] then Ok(h)
    else
      var first := Write(p, types[0], values[0], slots[0], h);
      if first.Err? then first
      else
        MaxDepthBound(types[1..], MaxDepth(types));
        WriteValues(p, types[1..], values[1..], slots[1..], first.value)
  }

  /* ---------- storing flat lanes ---------- */

  /** `writeFlat`. */
  function WriteFlat(t: Type, lanes: seq<Lane>, at: nat, bytes: seq<Byte>): Result<seq<Byte>>
    decreases Depth(t), 1, 0
  {
    if |lanes| != |Flat(t)| then Err(TypeFault)
    else
      match t
      case Unit => Ok(bytes)
      case Boolean => if lanes[0].I32? then Put(bytes, at, 1, lanes[0].number % 0x100) else Err(TypeFault)
      case Integer64 => if lanes[0].I64? then Put(bytes, at, 8, ToUnsigned64(lanes[0].integer)) else Err(TypeFault)
      case Float32 => if lanes[0].F32? then Put(bytes, at, 4, lanes[0].bits) else Err(TypeFault)
      case Float64 => if lanes[0].F64? then Put(bytes, at, 8, lanes[0].double) else Err(TypeFault)
      case TextType => WritePair(lanes[0], lanes[1], at, bytes)
      case Array(_) => WritePair(lanes[0], lanes[1], at, bytes)
      case Sealed(_, inner) => WriteFlat(inner, lanes, at, bytes)
      case Record(fields) =>
        RecordDepth(fields, SortFields(fields));
        var types := FieldTypes(SortFields(fields));
        WriteFlatAll(types, lanes, Slots(types, at, 0), bytes)
      case Variant(cases) => WriteFlatVariant(cases, lanes, at, bytes)
  }

  function WritePair(pointer: Lane, length: Lane, at: nat, bytes: seq<Byte>): Result<seq<Byte>> {
    if Memory32(pointer).Err? || Memory32(length).Err? then Err(TypeFault)
    else
      var first := Put(bytes, at, 4, Memory32(pointer).value);
      if first.Err? then first else Put(first.value, at + 4, 4, Memory32(length).value)
  }

  function WriteFlatVariant(cases: seq<Case>, lanes: seq<Lane>, at: nat, bytes: seq<Byte>): Result<seq<Byte>>
    requires lanes != []
    decreases Depth(Variant(cases)), 0, 0
  {
    var tag := Memory32(lanes[0]);
    if tag.Err? then Err(tag.fault)
    else
      var size, sorted := DiscriminantSize(|cases|), SortCases(cases);
      var marked := Put(bytes, at, size, tag.value % Power(size));
      if marked.Err? then marked
      else if tag.value >= |sorted| then Err(RangeFault)
      else
        var selected := sorted[tag.value];
        if selected.payload.None? then marked
        else
          assert selected in cases;
          VariantDepth(cases, cases);
          var payload := Narrow(lanes[1..], JoinAll(PayloadTypes(cases)), Flat(selected.payload.value));
          if payload.Err? then Err(payload.fault)
          else WriteFlat(selected.payload.value, payload.value, at + PayloadOffset(cases), marked.value)
  }

  function WriteFlatAll(types: seq<Type>, lanes: seq<Lane>, slots: seq<nat>, bytes: seq<Byte>): Result<seq<Byte>>
    requires |types| == |slots|
    decreases MaxDepth(types), 2, |types|
  {
    if types == [] then Ok(bytes)
    else
      var width := |Flat(types[0])|;
      if width > |lanes| then Err(TypeFault)
      else
        var first := WriteFlat(types[0], lanes[..width], slots[0], bytes);
        if first.Err? then first
        else
          MaxDepthBound(types[1..], MaxDepth(types));
          WriteFlatAll(types[1..], lanes[width..], slots[1..], first.value)
  }

  /* ---------- lifting ---------- */

  function Lift(p: Platform, t: Type, lanes: seq<Lane>, bytes: seq<Byte>): Result<Value>
    decreases Depth(t), 1, 0
  {
    if |lanes| != |Flat(t)| then Err(TypeFault)
    else
      match t
      case Unit => Ok(Nothing)
      case Boolean =>
        if lanes[0] == I32(0) then Ok(Flag(false)) else if lanes[0] == I32(1) then Ok(Flag(true)) else Err(TypeFault)
      case Integer64 => if lanes[0].I64? then Ok(Integer(lanes[0].integer)) else Err(TypeFault)
      case Float32 => if lanes[0].F32? then Ok(Single(lanes[0].bits)) else Err(TypeFault)
      case Float64 => if lanes[0].F64? then Ok(Double(lanes[0].double)) else Err(TypeFault)
      case Sealed(name, inner) => Sealing(name, Lift(p, inner, lanes, bytes))
      case TextType =>
        var pointer, length := Memory32(lanes[0]), Memory32(lanes[1]);
        if pointer.Err? || length.Err? then Err(TypeFault) else DecodeText(p, bytes, pointer.value, length.value)
      case Array(element) =>
        var pointer, length := Memory32(lanes[0]), Memory32(lanes[1]);
        if pointer.Err? || length.Err? then Err(TypeFault)
        else if pointer.value + Size(element) * length.value > |bytes| then Err(RangeFault)
        else ReadArray(p, element, bytes, pointer.value, length.value)
      case Record(fields) =>
        RecordDepth(fields, fields);
        Assembled(fields, LiftAll(p, FieldTypes(fields), lanes, bytes))
      case Variant(cases) => LiftVariant(p, cases, lanes, bytes)
  }

  function Sealing(name: Text, inner: Result<Value>): Result<Value> {
    if inner.Err? then inner else Ok(Seal(name, inner.value))
  }

  /** A record out of its fields' values. */
  function Assembled(fields: seq<Field>, values: Result<seq<Value>>): Result<Value> {
    if values.Err? then Err(values.fault)
    else if |values.value| != |fields| then Err(TypeFault)
    else Ok(Rec(Collect(fields, values.value)))
  }

  function Tagging(name: Text, payload: Result<Value>): Result<Value> {
    if payload.Err? then payload else Ok(Tagged(name, Some(payload.value)))
  }

  function LiftVariant(p: Platform, cases: seq<Case>, lanes: seq<Lane>, bytes: seq<Byte>): Result<Value>
    requires lanes != []
    decreases Depth(Variant(cases)), 0, 0
  {
    var tag := Memory32(lanes[0]);
    if tag.Err? then Err(tag.fault)
    else if tag.value >= |cases| then Err(RangeFault)
    else
      var selected := cases[tag.value];
      if selected.payload.None? then Ok(Tagged(selected.name, None))
      else
        assert selected in cases;
        VariantDepth(cases, cases);
        var payload := Narrow(lanes[1..], JoinAll(PayloadTypes(cases)), Flat(selected.payload.value));
        if payload.Err? then Err(payload.fault)
        else Tagging(selected.name, Lift(p, selected.payload.value, payload.value, bytes))
  }

  function LiftAll(p: Platform, types: seq<Type>, lanes: seq<Lane>, bytes: seq<Byte>): (r: Result<seq<Value>>)
    ensures r.Ok? ==> |r.value| == |types|
    decreases MaxDepth(types), 2, |types|
  {
    if types == [] then Ok([])
    else
      var width := |Flat(types[0])|;
      if width > |lanes| then Err(TypeFault)
      else
        var first := Lift(p, types[0], lanes[..width], bytes);
        if first.Err? then Err(first.fault)
        else
          MaxDepthBound(types[1..], MaxDepth(types));
          var rest := LiftAll(p, types[1..], lanes[width..], bytes);
          if rest.Err? then rest else Ok([first.value] + rest.value)
  }

  /* ---------- loading ---------- */

  /** `readMemory`. */
  function ReadMemory(p: Platform, t: Type, bytes: seq<Byte>, at: nat): Result<Value>
    decreases Depth(t), 1, 0
  {
    match t
    case Unit => Ok(Nothing)
    case Boolean =>
      var got := Get(bytes, at, 1);
      if got.Err? then Err(got.fault) else Ok(Flag(got.value != 0))
    case Integer64 =>
      Powers();
      var got := Get(bytes, at, 8);
      if got.Err? then Err(got.fault) else Ok(Integer(ToSigned64(got.value)))
    case Float32 =>
      Powers();
      var got := Get(bytes, at, 4);
      if got.Err? then Err(got.fault) else Ok(Single(got.value))
    case Float64 =>
      Powers();
      var got := Get(bytes, at, 8);
      if got.Err? then Err(got.fault) else Ok(Double(got.value))
    case TextType =>
      var pointer, length := Get(bytes, at, 4), Get(bytes, at + 4, 4);
      if pointer.Err? || length.Err? then Err(RangeFault) else DecodeText(p, bytes, pointer.value, length.value)
    case Sealed(name, inner) => Sealing(name, ReadMemory(p, inner, bytes, at))
    case Array(element) =>
      var pointer, length := Get(bytes, at, 4), Get(bytes, at + 4, 4);
      if pointer.Err? || length.Err? then Err(RangeFault) else ReadArray(p, element, bytes, pointer.value, length.value)
    case Record(fields) =>
      RecordDepth(fields, SortFields(fields));
      var types := FieldTypes(SortFields(fields));
      Assembled(SortFields(fields), ReadAll(p, types, Slots(types, at, 0), bytes))
    case Variant(cases) => ReadVariant(p, cases, bytes, at)
  }

  function ReadArray(p: Platform, element: Type, bytes: seq<Byte>, pointer: nat, length: nat): Result<Value>
    decreases Depth(Array(element)), 0, 0
  {
    ArrayDepth(element, length);
    var items := ReadAll(p, Repeat(element, length), Strides(pointer, Size(element), length), bytes);
    if items.Err? then Err(items.fault) else Ok(List(items.value))
  }

  function ReadVariant(p: Platform, cases: seq<Case>, bytes: seq<Byte>, at: nat): Result<Value>
    decreases Depth(Variant(cases)), 0, 0
  {
    var tag := Get(bytes, at, DiscriminantSize(|cases|));
    if tag.Err? then Err(tag.fault)
    else if tag.value >= |cases| then Err(RangeFault)
    else
      var selected := SortCases(cases)[tag.value];
      if selected.payload.None? then Ok(Tagged(selected.name, None))
      else
        assert selected in cases;
        Tagging(selected.name, ReadMemory(p, selected.payload.value, bytes, at + PayloadOffset(cases)))
  }

  function ReadAll(p: Platform, types: seq<Type>, slots: seq<nat>, bytes: seq<Byte>): (r: Result<seq<Value>>)
    requires |types| == |slots|
    ensures r.Ok? ==> |r.value| == |types|
    decreases MaxDepth(types), 2, |types|
  {
    if types == [] then Ok([])
    else
      var first := ReadMemory(p, types[0], bytes, slots[0]);
      if first.Err? then Err(first.fault)
      else
        MaxDepthBound(types[1..], MaxDepth(types));
        var rest := ReadAll(p, types[1..], slots[1..], bytes);
        if rest.Err? then rest else Ok([first.value] + rest.value)
  }

  /* ---------- parameters ---------- */

  function AllSome(values: seq<Value>): (r: seq<Option<Value>>)
    ensures |r| == |values|
  {
    seq(|values|, i requires 0 <= i < |values| => Some(values[i]))
  }

  /** `lowerParameters`: flat lanes, or one pointer to a block when there are too many. */
  function LowerParameters(p: Platform, types: seq<Type>, values: seq<Value>, h: Heap): Result<Lowered> {
    if |types| != |values| then Err(TypeFault)
    else if |FlatAll(types)| <= MAXIMUM_FLAT_PARAMETERS then LowerAll(p, types, AllSome(values), h)
    else
      var layout := Block(types);
      if layout.size > 0xffff_ffff then Err(RangeFault)
      else
        match p.allocate(h, layout.size, layout.alignment)
        case Refusal => Err(Refused)
        case Granted(pointer, g) =>
          var written := WriteValues(p, types, values, Slots(types, pointer, 0), g);
          if written.Err? then Err(written.fault) else Ok(Lowered([I32(pointer)], written.value))
  }

  /** `liftParameters`. */
  function LiftParameters(p: Platform, types: seq<Type>, lanes: seq<Lane>, bytes: seq<Byte>): Result<seq<Value>> {
    if |FlatAll(types)| > MAXIMUM_FLAT_PARAMETERS then
      if |lanes| != 1 then Err(TypeFault)
      else
        var pointer := Memory32(lanes[0]);
        if pointer.Err? then Err(pointer.fault)
        else if pointer.value == 0 || pointer.value % Block(types).alignment != 0 || pointer.value + Block(types).size > |bytes| then
          Err(RangeFault)
        else ReadAll(p, types, Slots(types, pointer.value, 0), bytes)
    else if |lanes| != |FlatAll(types)| then Err(TypeFault)
    else LiftAll(p, types, lanes, bytes)
  }
}
