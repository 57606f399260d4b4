/** The codec itself: it changes guest memory in place, loop by loop. */
module AbiCodecs {
  import opened AbiLayouts
  import opened AbiLanes
  import opened AbiMarshals

  /** The lanes of a list of values whose first lanes are known. */
  function After(lanes: seq<Lane>, rest: Result<Lowered>): (r: Result<Lowered>)
    ensures lanes == [] ==> r == rest
    ensures rest.Ok? && rest.value.lanes == [] ==> r == Ok(Lowered(lanes, rest.value.heap))
  {
    assert rest.Ok? && lanes == [] ==> lanes + rest.value.lanes == rest.value.lanes;
    assert rest.Ok? && rest.value.lanes == [] ==> lanes + rest.value.lanes == lanes;
    if rest.Err? then rest else Ok(Lowered(lanes + rest.value.lanes, rest.value.heap))
  }

  function Following<T>(first: seq<T>, rest: Result<seq<T>>): (r: Result<seq<T>>)
    ensures first == [] ==> r == rest
    ensures rest == Ok([]) ==> r == Ok(first)
  {
    assert rest.Ok? && first == [] ==> first + rest.value == rest.value;
    assert rest.Ok? && rest.value == [] ==> first + rest.value == first;
    if rest.Err? then rest else Ok(first + rest.value)
  }

  /** The method did what the function says. */
  ghost predicate Did(expected: Result<Lowered>, r: Result<seq<Lane>>, heap: Heap) {
    if expected.Ok? then r == Ok(expected.value.lanes) && heap == expected.value.heap else r == Err(expected.fault)
  }

  lemma Suffix(types: seq<Type>, i: nat)
    requires i <= |types|
    ensures MaxDepth(types[i..]) <= MaxDepth(types)
    ensures i < |types| ==> Depth(types[i]) <= MaxDepth(types)
  {
    MaxDepthBound(types[i..], MaxDepth(types));
  }

  class AbiCodec {
    const platform: Platform
    var memory: seq<Byte>
    // what the guest's allocator has handed out; only `platform.allocate` looks at it
    var owned: set<nat>

    function View(): Heap
      reads this
    {
      Heap(memory, owned)
    }

    constructor (platform: Platform, memory: seq<Byte>, owned: set<nat>)
      ensures this.platform == platform && View() == Heap(memory, owned)
    {
      this.platform, this.memory, this.owned := platform, memory, owned;
    }

    method Lower(t: Type, v: Value) returns (r: Result<seq<Lane>>)
      modifies this
      ensures Did(AbiMarshals.Lower(platform, t, v, old(View())), r, View())
      decreases Depth(t), 2, 0
    {
      match t
      case Unit => r := if v.Nothing? then Ok([]) else Err(TypeFault);
      case Boolean => r := if v.Flag? then Ok([I32(if v.flag then 1 else 0)]) else Err(TypeFault);
      case Integer64 =>
        if !v.Integer? { return Err(TypeFault); }
        if v.integer < -0x8000_0000_0000_0000 || v.integer > 0x7fff_ffff_ffff_ffff { return Err(RangeFault); }
        r := Ok([I64(v.integer)]);
      case Float32 => r := if v.Single? then Ok([F32(v.single)]) else Err(TypeFault);
      case Float64 => r := if v.Double? then Ok([F64(v.double)]) else Err(TypeFault);
      case TextType =>
        if !v.Str? { return Err(TypeFault); }
        r := LowerText(v.text);
      case Array(element) =>
        if !v.List? { return Err(TypeFault); }
        r := LowerArray(element, v.items);
      case Sealed(name, inner) =>
        if !v.Seal? || v.seal != name { return Err(TypeFault); }
        r := Lower(inner, v.inner);
      case Record(fields) =>
        if !v.Rec? || |v.members| != |fields| { return Err(TypeFault); }
        RecordDepth(fields, fields);
        r := LowerAll(FieldTypes(fields), Pick(v.members, fields));
      case Variant(cases) =>
        if !v.Tagged? { return Err(TypeFault); }
        r := LowerVariant(cases, v.name, v.payload);
    }

    method LowerText(text: Text) returns (r: Result<seq<Lane>>)
      modifies this
      ensures Did(AbiMarshals.LowerText(platform, text, old(View())), r, View())
    {
      var data := platform.encode(text);
      var grant := platform.allocate(View(), |data|, 1);
      if grant.Refusal? { return Err(Refused); }
      memory, owned := grant.heap.bytes, grant.heap.owned;
      var pointer := grant.pointer;
      if pointer + |data| > |memory| { return Err(RangeFault); }
      memory := memory[..pointer] + data + memory[pointer + |data|..];
      r := Ok([I32(pointer), I32(|data|)]);
    }

    method LowerArray(element: Type, items: seq<Value>) returns (r: Result<seq<Lane>>)
      modifies this
      ensures Did(AbiMarshals.LowerArray(platform, element, items, old(View())), r, View())
      decreases Depth(Array(element)), 1, 0
    {
      hide LayoutOf, AbiMarshals.WriteValues, Strides, Repeat;
      var layout := LayoutOf(element);
      if layout.size * |items| > 0xffff_ffff { return Err(RangeFault); }
      var grant := platform.allocate(View(), layout.size * |items|, layout.alignment);
      if grant.Refusal? { return Err(Refused); }
      memory, owned := grant.heap.bytes, grant.heap.owned;
      ArrayDepth(element, |items|);
      var fault := WriteValues(Repeat(element, |items|), items, Strides(grant.pointer, layout.size, |items|));
      if fault.Some? { return Err(fault.value); }
      r := Ok([I32(grant.pointer), I32(|items|)]);
    }

    method LowerVariant(cases: seq<Case>, name: Text, payload: Option<Value>) returns (r: Result<seq<Lane>>)
      modifies this
      ensures Did(AbiMarshals.LowerVariant(platform, cases, name, payload, old(View())), r, View())
      decreases Depth(Variant(cases)), 1, 0
    {
      hide AbiMarshals.Widen, JoinAll, PayloadTypes, AbiMarshals.Lower;
      var index := FindCase(cases, name);
      if index.None? { return Err(TypeFault); }
      var selected := cases[index.value];
      assert selected in cases;
      VariantDepth(cases, cases);
      if selected.payload.Some? != payload.Some? { return Err(TypeFault); }
      var lanes: seq<Lane> := [];
      if payload.Some? {
        var lowered := Lower(selected.payload.value, payload.value);
        if lowered.Err? { return lowered; }
        lanes := lowered.value;
      }
      var widened := Widen(lanes, Flat(PayloadType(selected)), JoinAll(PayloadTypes(cases)));
      if widened.Err? { return widened; }
      r := Ok([I32(index.value)] + widened.value);
    }

    /** The joined payload lanes of a variant. */
    static method Widen(lanes: seq<Lane>, types: seq<LaneType>, joined: seq<LaneType>) returns (r: Result<seq<Lane>>)
      ensures r == AbiMarshals.Widen(lanes, types, joined)
    {
      var wide: seq<Lane> := [];
      for position := 0 to |joined|
        invariant AbiMarshals.Widen(lanes, types, joined) ==
                  Following(wide, AbiMarshals.Widen(Drop(lanes, position), Drop(types, position), joined[position..]))
      {
        var lane := ZeroLane(joined[position]);
        if position < |lanes| && position < |types| {
          var converted := ConvertLane(lanes[position], types[position], joined[position]);
          if converted.Err? { return Err(converted.fault); }
          lane := converted.value;
        }
        assert joined[position..][1..] == joined[position + 1..];
        DropStep(lanes, position);
        DropStep(types, position);
        assert forall rest: seq<Lane> {:trigger [lane] + rest} :: (wide + [lane]) + rest == wide + ([lane] + rest);
        wide := wide + [lane];
      }
      r := Ok(wide);
    }

    static function Drop<T>(s: seq<T>, n: nat): seq<T> {
      if n <= |s| then s[n..] else []
    }

    static lemma DropStep<T>(s: seq<T>, n: nat)
      ensures Drop(s, n + 1) == if Drop(s, n) == [] then [] else Drop(s, n)[1..]
      ensures Drop(s, n) == [] <==> n >= |s|
      ensures n < |s| ==> Drop(s, n)[0] == s[n]
    {
    }

    method LowerAll(types: seq<Type>, values: seq<Option<Value>>) returns (r: Result<seq<Lane>>)
      requires |types| == |values|
      modifies this
      ensures Did(AbiMarshals.LowerAll(platform, types, values, old(View())), r, View())
      decreases MaxDepth(types), 4, |types|
    {
      hide AbiMarshals.Lower;
      var lanes: seq<Lane> := [];
      ghost var h := View();
      for i := 0 to |types|
        invariant AbiMarshals.LowerAll(platform, types, values, h) ==
                  After(lanes, AbiMarshals.LowerAll(platform, types[i..], values[i..], View()))
      {
        if values[i].None? { return Err(TypeFault); }
        Suffix(types, i);
        var lowered := Lower(types[i], values[i].value);
        if lowered.Err? { return lowered; }
        assert types[i..][1..] == types[i + 1..] && values[i..][1..] == values[i + 1..];
        assert forall rest: seq<Lane> {:trigger lowered.value + rest} :: (lanes + lowered.value) + rest == lanes + (lowered.value + rest);
        lanes := lanes + lowered.value;
      }
      r := Ok(lanes);
    }

    method Write(t: Type, v: Value, at: nat) returns (fault: Option<Fault>)
      modifies this
      ensures var expected := AbiMarshals.Write(platform, t, v, at, old(View()));
              if expected.Ok? then fault.None? && View() == expected.value else fault == Some(expected.fault)
      decreases Depth(t), 3, 0
    {
      hide AbiMarshals.Lower, AbiMarshals.WriteFlat;
      var lanes := Lower(t, v);
      if lanes.Err? { return Some(lanes.fault); }
      fault := WriteFlat(t, lanes.value, at);
    }

    method WriteValues(types: seq<Type>, values: seq<Value>, slots: seq<nat>) returns (fault: Option<Fault>)
      requires |types| == |values| == |slots|
      modifies this
      ensures var expected := AbiMarshals.WriteValues(platform, types, values, slots, old(View()));
              if expected.Ok? then fault.None? && View() == expected.value else fault == Some(expected.fault)
      decreases MaxDepth(types), 4, |types|
    {
      hide AbiMarshals.Write;
      ghost var h := View();
      for i := 0 to |types|
        invariant AbiMarshals.WriteValues(platform, types, values, slots, h) ==
                  AbiMarshals.WriteValues(platform, types[i..], values[i..], slots[i..], View())
      {
        Suffix(types, i);
        var failed := Write(types[i], values[i], slots[i]);
        if failed.Some? { return failed; }
        assert types[i..][1..] == types[i + 1..] && values[i..][1..] == values[i + 1..] && slots[i..][1..] == slots[i + 1..];
      }
      fault := None;
    }

    method Put(at: nat, n: nat, value: nat) returns (fault: Option<Fault>)
      modifies `memory
      ensures var expected := AbiLanes.Put(old(memory), at, n, value);
              if expected.Ok? then fault.None? && memory == expected.value else fault == Some(expected.fault) && memory == old(memory)
    {
      var stored := AbiLanes.Put(memory, at, n, value);
      if stored.Err? { return Some(stored.fault); }
      memory := stored.value;
      fault := None;
    }

    method WriteFlat(t: Type, lanes: seq<Lane>, at: nat) returns (fault: Option<Fault>)
      modifies `memory
      ensures var expected := AbiMarshals.WriteFlat(t, lanes, at, old(memory));
              if expected.Ok? then fault.None? && memory == expected.value else fault == Some(expected.fault)
      decreases Depth(t), 1, 0
    {
      hide AbiLanes.Put, AbiMarshals.WriteFlatVariant, SortFields, Slots;
      if |lanes| != |Flat(t)| { return Some(TypeFault); }
      match t
      case Unit => fault := None;
      case Boolean =>
        if !lanes[0].I32? { return Some(TypeFault); }
        fault := Put(at, 1, lanes[0].number % 0x100);
      case Integer64 =>
        if !lanes[0].I64? { return Some(TypeFault); }
        fault := Put(at, 8, ToUnsigned64(lanes[0].integer));
      case Float32 =>
        if !lanes[0].F32? { return Some(TypeFault); }
        fault := Put(at, 4, lanes[0].bits);
      case Float64 =>
        if !lanes[0].F64? { return Some(TypeFault); }
        fault := Put(at, 8, lanes[0].double);
      case TextType => fault := WritePair(lanes[0], lanes[1], at);
      case Array(_) => fault := WritePair(lanes[0], lanes[1], at);
      case Sealed(_, inner) => fault := WriteFlat(inner, lanes, at);
      case Record(fields) =>
        RecordDepth(fields, SortFields(fields));
        var types := FieldTypes(SortFields(fields));
        fault := WriteFlatAll(types, lanes, Slots(types, at, 0));
      case Variant(cases) => fault := WriteFlatVariant(cases, lanes, at);
    }

    method WritePair(pointer: Lane, length: Lane, at: nat) returns (fault: Option<Fault>)
      modifies `memory
      ensures var expected := AbiMarshals.WritePair(pointer, length, at, old(memory));
              if expected.Ok? then fault.None? && memory == expected.value else fault == Some(expected.fault)
    {
      hide AbiLanes.Put;
      if Memory32(pointer).Err? || Memory32(length).Err? { return Some(TypeFault); }
      fault := Put(at, 4, Memory32(pointer).value);
      if fault.Some? { return; }
      fault := Put(at + 4, 4, Memory32(length).value);
    }

    method WriteFlatVariant(cases: seq<Case>, lanes: seq<Lane>, at: nat) returns (fault: Option<Fault>)
      requires lanes != []
      modifies `memory
      ensures var expected := AbiMarshals.WriteFlatVariant(cases, lanes, at, old(memory));
              if expected.Ok? then fault.None? && memory == expected.value else fault == Some(expected.fault)
      decreases Depth(Variant(cases)), 0, 0
    {
      hide AbiLanes.Put, SortCases, AbiMarshals.Narrow, JoinAll, PayloadTypes, PayloadOffset, DiscriminantSize, Power;
      var tag := Memory32(lanes[0]);
      if tag.Err? { return Some(tag.fault); }
      var size, sorted := DiscriminantSize(|cases|), SortCases(cases);
      fault := Put(at, size, tag.value % Power(size));
      if fault.Some? { return; }
      if tag.value >= |sorted| { return Some(RangeFault); }
      var selected := sorted[tag.value];
      if selected.payload.None? { return None; }
      assert selected in cases;
      VariantDepth(cases, cases);
      var payload := Narrow(lanes[1..], JoinAll(PayloadTypes(cases)), Flat(selected.payload.value));
      if payload.Err? { return Some(payload.fault); }
      fault := WriteFlat(selected.payload.value, payload.value, at + PayloadOffset(cases));
    }

    method WriteFlatAll(types: seq<Type>, lanes: seq<Lane>, slots: seq<nat>) returns (fault: Option<Fault>)
      requires |types| == |slots|
      modifies `memory
      ensures var expected := AbiMarshals.WriteFlatAll(types, lanes, slots, old(memory));
              if expected.Ok? then fault.None? && memory == expected.value else fault == Some(expected.fault)
      decreases MaxDepth(types), 2, |types|
    {
      hide AbiMarshals.WriteFlat;
      ghost var bytes := memory;
      var position := 0;
      for i := 0 to |types|
        invariant position <= |lanes|
        invariant AbiMarshals.WriteFlatAll(types, lanes, slots, bytes) ==
                  AbiMarshals.WriteFlatAll(types[i..], lanes[position..], slots[i..], memory)
      {
        Suffix(types, i);
        var width := |Flat(types[i])|;
        if width > |lanes| - position { return Some(TypeFault); }
        assert lanes[position..][..width] == lanes[position..position + width];
        fault := WriteFlat(types[i], lanes[position..position + width], slots[i]);
        if fault.Some? { return; }
        assert types[i..][1..] == types[i + 1..] && slots[i..][1..] == slots[i + 1..];
        assert lanes[position..][width..] == lanes[position + width..];
        position := position + width;
      }
      fault := None;
    }

    /** The selected case's lanes out of the joined lanes. */
    static method Narrow(lanes: seq<Lane>, joined: seq<LaneType>, types: seq<LaneType>) returns (r: Result<seq<Lane>>)
      ensures r == AbiMarshals.Narrow(lanes, joined, types)
    {
      var payload: seq<Lane> := [];
      for i := 0 to |types|
        invariant i <= |lanes| && i <= |joined|
        invariant AbiMarshals.Narrow(lanes, joined, types) ==
                  Following(payload, AbiMarshals.Narrow(lanes[i..], joined[i..], types[i..]))
      {
        if i == |lanes| || i == |joined| { return Err(TypeFault); }
        var converted := ConvertLane(lanes[i], joined[i], types[i]);
        if converted.Err? { return Err(converted.fault); }
        assert lanes[i..][1..] == lanes[i + 1..] && joined[i..][1..] == joined[i + 1..] && types[i..][1..] == types[i + 1..];
        var lane := converted.value;
        assert forall rest: seq<Lane> {:trigger [lane] + rest} :: (payload + [lane]) + rest == payload + ([lane] + rest);
        payload := payload + [lane];
      }
      r := Ok(payload);
    }

    method Lift(t: Type, lanes: seq<Lane>) returns (r: Result<Value>)
      ensures r == AbiMarshals.Lift(platform, t, lanes, memory)
      decreases Depth(t), 1, 0
    {
      hide AbiMarshals.LiftAll, AbiMarshals.ReadArray, AbiMarshals.LiftVariant, Collect, LayoutOf;
      if |lanes| != |Flat(t)| { return Err(TypeFault); }
      match t
      case Unit => r := Ok(Nothing);
      case Boolean => r := if lanes[0] == I32(0) then Ok(Flag(false)) else if lanes[0] == I32(1) then Ok(Flag(true)) else Err(TypeFault);
      case Integer64 => r := if lanes[0].I64? then Ok(Integer(lanes[0].integer)) else Err(TypeFault);
      case Float32 => r := if lanes[0].F32? then Ok(Single(lanes[0].bits)) else Err(TypeFault);
      case Float64 => r := if lanes[0].F64? then Ok(Double(lanes[0].double)) else Err(TypeFault);
      case Sealed(name, inner) =>
        var value := Lift(inner, lanes);
        r := Sealing(name, value);
      case TextType =>
        var pointer, length := Memory32(lanes[0]), Memory32(lanes[1]);
        if pointer.Err? || length.Err? { return Err(TypeFault); }
        r := DecodeText(platform, memory, pointer.value, length.value);
      case Array(element) =>
        var pointer, length := Memory32(lanes[0]), Memory32(lanes[1]);
        if pointer.Err? || length.Err? { return Err(TypeFault); }
        if pointer.value + Size(element) * length.value > |memory| { return Err(RangeFault); }
        r := ReadArray(element, pointer.value, length.value);
      case Record(fields) =>
        RecordDepth(fields, fields);
        var values := LiftAll(FieldTypes(fields), lanes);
        r := Assembled(fields, values);
      case Variant(cases) => r := LiftVariant(cases, lanes);
    }

    method LiftVariant(cases: seq<Case>, lanes: seq<Lane>) returns (r: Result<Value>)
      requires lanes != []
      ensures r == AbiMarshals.LiftVariant(platform, cases, lanes, memory)
      decreases Depth(Variant(cases)), 0, 0
    {
      var tag := Memory32(lanes[0]);
      if tag.Err? { return Err(tag.fault); }
      if tag.value >= |cases| { return Err(RangeFault); }
      var selected := cases[tag.value];
      if selected.payload.None? { return Ok(Tagged(selected.name, None)); }
      assert selected in cases;
      VariantDepth(cases, cases);
      var payload := Narrow(lanes[1..], JoinAll(PayloadTypes(cases)), Flat(selected.payload.value));
      if payload.Err? { return Err(payload.fault); }
      var value := Lift(selected.payload.value, payload.value);
      r := Tagging(selected.name, value);
    }

    method LiftAll(types: seq<Type>, lanes: seq<Lane>) returns (r: Result<seq<Value>>)
      ensures r == AbiMarshals.LiftAll(platform, types, lanes, memory)
      decreases MaxDepth(types), 2, |types|
    {
      hide AbiMarshals.Lift;
      var values: seq<Value> := [];
      var position := 0;
      for i := 0 to |types|
        invariant position <= |lanes|
        invariant AbiMarshals.LiftAll(platform, types, lanes, memory) ==
                  Following(values, AbiMarshals.LiftAll(platform, types[i..], lanes[position..], memory))
      {
        Suffix(types, i);
        var width := |Flat(types[i])|;
        if width > |lanes| - position { return Err(TypeFault); }
        assert lanes[position..][..width] == lanes[position..position + width];
        var lifted := Lift(types[i], lanes[position..position + width]);
        if lifted.Err? { return Err(lifted.fault); }
        var value := lifted.value;
        assert types[i..][1..] == types[i + 1..] && lanes[position..][width..] == lanes[position + width..];
        assert forall rest: seq<Value> {:trigger [value] + rest} :: (values + [value]) + rest == values + ([value] + rest);
        values := values + [value];
        position := position + width;
      }
      r := Ok(values);
    }

    method ReadMemory(t: Type, at: nat) returns (r: Result<Value>)
      ensures r == AbiMarshals.ReadMemory(platform, t, memory, at)
      decreases Depth(t), 1, 0
    {
      hide Get, Power, AbiMarshals.ReadAll, AbiMarshals.ReadArray, AbiMarshals.ReadVariant, Collect, Slots, SortFields;
      match t
      case Unit => r := Ok(Nothing);
      case Boolean =>
        var got := Get(memory, at, 1);
        r := if got.Err? then Err(got.fault) else Ok(Flag(got.value != 0));
      case Integer64 =>
        Powers();
        var got := Get(memory, at, 8);
        r := if got.Err? then Err(got.fault) else Ok(Integer(ToSigned64(got.value)));
      case Float32 =>
        Powers();
        var got := Get(memory, at, 4);
        r := if got.Err? then Err(got.fault) else Ok(Single(got.value));
      case Float64 =>
        Powers();
        var got := Get(memory, at, 8);
        r := if got.Err? then Err(got.fault) else Ok(Double(got.value));
      case TextType =>
        var pointer, length := Get(memory, at, 4), Get(memory, at + 4, 4);
        if pointer.Err? || length.Err? { return Err(RangeFault); }
        r := DecodeText(platform, memory, pointer.value, length.value);
      case Sealed(name, inner) =>
        var value := ReadMemory(inner, at);
        r := Sealing(name, value);
      case Array(element) =>
        var pointer, length := Get(memory, at, 4), Get(memory, at + 4, 4);
        if pointer.Err? || length.Err? { return Err(RangeFault); }
        r := ReadArray(element, pointer.value, length.value);
      case Record(fields) =>
        RecordDepth(fields, SortFields(fields));
        var types := FieldTypes(SortFields(fields));
        var values := ReadAll(types, Slots(types, at, 0));
        r := Assembled(SortFields(fields), values);
      case Variant(cases) => r := ReadVariant(cases, at);
    }

    method ReadArray(element: Type, pointer: nat, length: nat) returns (r: Result<Value>)
      ensures r == AbiMarshals.ReadArray(platform, element, memory, pointer, length)
      decreases Depth(Array(element)), 0, 0
    {
      hide LayoutOf, AbiMarshals.ReadAll;
      ArrayDepth(element, length);
      var items := ReadAll(Repeat(element, length), Strides(pointer, Size(element), length));
      r := if items.Err? then Err(items.fault) else Ok(List(items.value));
    }

    method ReadVariant(cases: seq<Case>, at: nat) returns (r: Result<Value>)
      ensures r == AbiMarshals.ReadVariant(platform, cases, memory, at)
      decreases Depth(Variant(cases)), 0, 0
    {
      hide Get, SortCases, PayloadOffset, AbiMarshals.ReadMemory;
      var tag := Get(memory, at, DiscriminantSize(|cases|));
      if tag.Err? { return Err(tag.fault); }
      if tag.value >= |cases| { return Err(RangeFault); }
      var selected := SortCases(cases)[tag.value];
      if selected.payload.None? { return Ok(Tagged(selected.name, None)); }
      assert selected in cases;
      var value := ReadMemory(selected.payload.value, at + PayloadOffset(cases));
      r := Tagging(selected.name, value);
    }

    method ReadAll(types: seq<Type>, slots: seq<nat>) returns (r: Result<seq<Value>>)
      requires |types| == |slots|
      ensures r == AbiMarshals.ReadAll(platform, types, slots, memory)
      decreases MaxDepth(types), 2, |types|
    {
      hide AbiMarshals.ReadMemory;
      var values: seq<Value> := [];
      for i := 0 to |types|
        invariant AbiMarshals.ReadAll(platform, types, slots, memory) ==
                  Following(values, AbiMarshals.ReadAll(platform, types[i..], slots[i..], memory))
      {
        Suffix(types, i);
        var read := ReadMemory(types[i], slots[i]);
        if read.Err? { return Err(read.fault); }
        var value := read.value;
        assert types[i..][1..] == types[i + 1..] && slots[i..][1..] == slots[i + 1..];
        assert forall rest: seq<Value> {:trigger [value] + rest} :: (values + [value]) + rest == values + ([value] + rest);
        values := values + [value];
      }
      r := Ok(values);
    }

    method LowerParameters(types: seq<Type>, values: seq<Value>) returns (r: Result<seq<Lane>>)
      modifies this
      ensures Did(AbiMarshals.LowerParameters(platform, types, values, old(View())), r, View())
    {
      hide AbiMarshals.LowerAll, AbiMarshals.WriteValues, FlatAll, Block, Slots;
      if |types| != |values| { return Err(TypeFault); }
      if |FlatAll(types)| <= MAXIMUM_FLAT_PARAMETERS {
        r := LowerAll(types, AllSome(values));
        return;
      }
      var layout := Block(types);
      if layout.size > 0xffff_ffff { return Err(RangeFault); }
      var grant := platform.allocate(View(), layout.size, layout.alignment);
      if grant.Refusal? { return Err(Refused); }
      memory, owned := grant.heap.bytes, grant.heap.owned;
      var fault := WriteValues(types, values, Slots(types, grant.pointer, 0));
      r := if fault.Some? then Err(fault.value) else Ok([I32(grant.pointer)]);
    }

    method LiftParameters(types: seq<Type>, lanes: seq<Lane>) returns (r: Result<seq<Value>>)
      ensures r == AbiMarshals.LiftParameters(platform, types, lanes, memory)
    {
      hide AbiMarshals.LiftAll, AbiMarshals.ReadAll, FlatAll, Block, Slots;
      var width := |FlatAll(types)|;
      if width > MAXIMUM_FLAT_PARAMETERS {
        if |lanes| != 1 { return Err(TypeFault); }
        var pointer := Memory32(lanes[0]);
        if pointer.Err? { return Err(pointer.fault); }
        var layout := Block(types);
        if pointer.value == 0 || pointer.value % layout.alignment != 0 || pointer.value + layout.size > |memory| {
          return Err(RangeFault);
        }
        r := ReadAll(types, Slots(types, pointer.value, 0));
        return;
      }
      if |lanes| != width { return Err(TypeFault); }
      r := LiftAll(types, lanes);
    }
  }
}
