/** Storing flat lanes and loading them again is lifting them. */
module AbiStoreLoads {
  import opened AbiLayouts
  import opened AbiLanes
  import opened AbiMarshals

  /* ---------- lanes as memory takes them ---------- */

  /** The value that memory will show of these lanes: fields take theirs in name order, discriminants
      count the cases in name order, any byte but 0 is true, and arrays are read without a look at
      the end of memory. */
  function LiftStored(p: Platform, t: Type, lanes: seq<Lane>, bytes: seq<Byte>): Result<Value>
    decreases Depth(t), 1, 0
  {
    if |lanes| != |Flat(t)| then Err(TypeFault)
    else
      match t
      case Sealed(name, inner) => Sealing(name, LiftStored(p, inner, lanes, bytes))
      case Record(fields) =>
        RecordDepth(fields, SortFields(fields));
        Assembled(SortFields(fields), LiftStoredAll(p, FieldTypes(SortFields(fields)), lanes, bytes))
      case Variant(cases) => LiftStoredVariant(p, cases, lanes, bytes)
      case Boolean => if lanes[0].I32? then Ok(Flag(lanes[0].number % 0x100 != 0)) else Err(TypeFault)
      case Array(element) =>
        var pointer, length := Memory32(lanes[0]), Memory32(lanes[1]);
        if pointer.Err? || length.Err? then Err(TypeFault) else ReadArray(p, element, bytes, pointer.value, length.value)
      case _ => Lift(p, t, lanes, bytes)
  }

  function LiftStoredVariant(p: Platform, cases: seq<Case>, lanes: seq<Lane>, bytes: seq<Byte>): Result<Value>
    requires lanes != []
    decreases Depth(Variant(cases)), 0, 0
  {
    var tag := Memory32(lanes[0]);
    if tag.Err? then Err(tag.fault)
    else if tag.value >= |cases| then Err(RangeFault)
    else
      var selected := SortCases(cases)[tag.value];
      if selected.payload.None? then Ok(Tagged(selected.name, None))
      else
        assert selected in cases;
        VariantDepth(cases, cases);
        var payload := Narrow(lanes[1..], JoinAll(PayloadTypes(cases)), Flat(selected.payload.value));
        if payload.Err? then Err(payload.fault)
        else Tagging(selected.name, LiftStored(p, selected.payload.value, payload.value, bytes))
  }

  function LiftStoredAll(p: Platform, types: seq<Type>, lanes: seq<Lane>, bytes: seq<Byte>): (r: Result<seq<Value>>)
    ensures r.Ok? ==> |r.value| == |types|
    decreases MaxDepth(types), 2, |types|
  {
    if types == [] then Ok([])
    else
      var width := |Flat(types[0])|;
      if width > |lanes| then Err(TypeFault)
      else
        var first := LiftStored(p, types[0], lanes[..width], bytes);
        if first.Err? then Err(first.fault)
        else
          MaxDepthBound(types[1..], MaxDepth(types));
          var rest := LiftStoredAll(p, types[1..], lanes[width..], bytes);
          if rest.Err? then rest else Ok([first.value] + rest.value)
  }

  /* ---------- storing stays inside the value's room ---------- */

  lemma OutsideTrans(a: seq<Byte>, b: seq<Byte>, c: seq<Byte>, low: nat, high: nat)
    requires Outside(a, b, low, high) && Outside(b, c, low, high)
    ensures Outside(a, c, low, high)
  {
  }

  lemma OutsideWider(a: seq<Byte>, b: seq<Byte>, low: nat, high: nat, lower: nat, higher: nat)
    requires Outside(a, b, low, high) && lower <= low && high <= higher
    ensures Outside(a, b, lower, higher)
  {
  }

  lemma PairOutside(pointer: Lane, length: Lane, at: nat, bytes: seq<Byte>)
    requires WritePair(pointer, length, at, bytes).Ok?
    ensures Outside(bytes, WritePair(pointer, length, at, bytes).value, at, at + 8)
  {
    var first := Put(bytes, at, 4, Memory32(pointer).value).value;
    PutOutside(bytes, at, 4, Memory32(pointer).value);
    PutOutside(first, at + 4, 4, Memory32(length).value);
  }

  lemma {:induction false} WriteFlatStaysInside(t: Type, lanes: seq<Lane>, at: nat, bytes: seq<Byte>)
    requires WriteFlat(t, lanes, at, bytes).Ok?
    ensures Outside(bytes, WriteFlat(t, lanes, at, bytes).value, at, at + Size(t))
    decreases Depth(t), 1, 0
  {
    hide Outside, Slots, Block, Put, Encode;
    match t
    case Sealed(_, inner) => WriteFlatStaysInside(inner, lanes, at, bytes);
    case Record(fields) =>
      RecordDepth(fields, SortFields(fields));
      var types := FieldTypes(SortFields(fields));
      BlockHolds(types, at);
      WriteFlatAllStaysInside(types, lanes, Slots(types, at, 0), bytes, at, at + Block(types).size);
    case Variant(cases) => VariantStaysInside(cases, lanes, at, bytes);
    case _ => ScalarStaysInside(t, lanes, at, bytes);
  }

  lemma ScalarStaysInside(t: Type, lanes: seq<Lane>, at: nat, bytes: seq<Byte>)
    requires !t.Sealed? && !t.Record? && !t.Variant? && WriteFlat(t, lanes, at, bytes).Ok?
    ensures Outside(bytes, WriteFlat(t, lanes, at, bytes).value, at, at + Size(t))
  {
    hide Put, Encode;
    match t
    case Unit =>
    case Boolean => PutOutside(bytes, at, 1, lanes[0].number % 0x100);
    case Integer64 => PutOutside(bytes, at, 8, ToUnsigned64(lanes[0].integer));
    case Float32 => PutOutside(bytes, at, 4, lanes[0].bits);
    case Float64 => PutOutside(bytes, at, 8, lanes[0].double);
    case TextType => PairOutside(lanes[0], lanes[1], at, bytes);
    case Array(_) => PairOutside(lanes[0], lanes[1], at, bytes);
  }

  lemma VariantStaysInside(cases: seq<Case>, lanes: seq<Lane>, at: nat, bytes: seq<Byte>)
    requires lanes != [] && WriteFlatVariant(cases, lanes, at, bytes).Ok?
    ensures Outside(bytes, WriteFlatVariant(cases, lanes, at, bytes).value, at, at + Size(Variant(cases)))
    decreases Depth(Variant(cases)), 0, 0
  {
    hide *;
    VariantStores(cases, lanes, at, bytes);
    var tag, size, offset := Memory32(lanes[0]).value, DiscriminantSize(|cases|), PayloadOffset(cases);
    var marked := Put(bytes, at, size, tag % Power(size)).value;
    var selected := SortCases(cases)[tag];
    PutOutside(bytes, at, size, tag % Power(size));
    PayloadFits(cases, tag);
    OutsideWider(bytes, marked, at, at + size, at, at + Size(Variant(cases)));
    if selected.payload.Some? {
      var inner := selected.payload.value;
      var payload := Narrow(lanes[1..], JoinAll(PayloadTypes(cases)), Flat(inner)).value;
      var result := WriteFlat(inner, payload, at + offset, marked).value;
      WriteFlatStaysInside(inner, payload, at + offset, marked);
      OutsideWider(marked, result, at + offset, at + offset + Size(inner), at, at + Size(Variant(cases)));
      OutsideTrans(bytes, marked, result, at, at + Size(Variant(cases)));
    }
  }

  lemma VariantStores(cases: seq<Case>, lanes: seq<Lane>, at: nat, bytes: seq<Byte>)
    requires lanes != [] && WriteFlatVariant(cases, lanes, at, bytes).Ok?
    ensures Memory32(lanes[0]).Ok? && Memory32(lanes[0]).value < |cases|
    ensures var tag, size := Memory32(lanes[0]).value, DiscriminantSize(|cases|);
            var selected, marked := SortCases(cases)[tag], Put(bytes, at, size, tag % Power(size));
            var narrowed := Narrow(lanes[1..], JoinAll(PayloadTypes(cases)), Flat(PayloadType(selected)));
            && at + size <= |bytes| && marked.Ok?
            && (selected.payload.None? ==> WriteFlatVariant(cases, lanes, at, bytes) == marked)
            && (selected.payload.Some? ==>
                  && PayloadType(selected) == selected.payload.value && Depth(selected.payload.value) < Depth(Variant(cases))
                  && narrowed.Ok?
                  && WriteFlatVariant(cases, lanes, at, bytes) ==
                     WriteFlat(selected.payload.value, narrowed.value, at + PayloadOffset(cases), marked.value))
  {
    hide LayoutOf, PayloadOffset, DiscriminantSize, JoinAll, Narrow, Power, PayloadTypes, Encode, Decode;
    var selected := SortCases(cases)[Memory32(lanes[0]).value];
    assert selected in cases;
    VariantDepth(cases, cases);
  }

  lemma {:induction false} WriteFlatAllStaysInside(
    types: seq<Type>, lanes: seq<Lane>, slots: seq<nat>, bytes: seq<Byte>, low: nat, high: nat)
    requires |types| == |slots| && Fits(types, slots, low, high) && WriteFlatAll(types, lanes, slots, bytes).Ok?
    ensures Outside(bytes, WriteFlatAll(types, lanes, slots, bytes).value, low, high)
    decreases MaxDepth(types), 2, |types|
  {
    if types != [] {
      MaxDepthBound(types[1..], MaxDepth(types));
      var width := |Flat(types[0])|;
      var first := WriteFlat(types[0], lanes[..width], slots[0], bytes).value;
      var result := WriteFlatAll(types, lanes, slots, bytes).value;
      FitsWithin(types, slots, low, high);
      WriteFlatStaysInside(types[0], lanes[..width], slots[0], bytes);
      WriteFlatAllStaysInside(types[1..], lanes[width..], slots[1..], first, slots[0] + Size(types[0]), high);
      FitsWithin(types[1..], slots[1..], slots[0] + Size(types[0]), high);
      OutsideWider(bytes, first, slots[0], slots[0] + Size(types[0]), low, high);
      OutsideWider(first, result, slots[0] + Size(types[0]), high, low, high);
      OutsideTrans(bytes, first, result, low, high);
    }
  }

  /* ---------- store, then load ---------- */

  lemma PairLoads(pointer: Lane, length: Lane, at: nat, bytes: seq<Byte>, other: seq<Byte>)
    requires WritePair(pointer, length, at, bytes).Ok?
    requires Agree(WritePair(pointer, length, at, bytes).value, other, at, at + 8)
    ensures Memory32(pointer).Ok? && Memory32(length).Ok?
    ensures Get(other, at, 4) == Ok(Memory32(pointer).value) && Get(other, at + 4, 4) == Ok(Memory32(length).value)
  {
    Powers();
    var first := Put(bytes, at, 4, Memory32(pointer).value).value;
    PutOutside(first, at + 4, 4, Memory32(length).value);
    GetPut(bytes, at, 4, Memory32(pointer).value, other);
    GetPut(first, at + 4, 4, Memory32(length).value, other);
  }

  /** Any bytes that hold what was stored show the value that the lanes have in name order, or its
      absence. */
  lemma {:induction false} StoreThenLoad(p: Platform, t: Type, lanes: seq<Lane>, at: nat, bytes: seq<Byte>, other: seq<Byte>)
    requires WriteFlat(t, lanes, at, bytes).Ok?
    requires Agree(WriteFlat(t, lanes, at, bytes).value, other, at, at + Size(t))
    ensures ReadMemory(p, t, other, at) == LiftStored(p, t, lanes, other)
    decreases Depth(t), 1, 0
  {
    match t
    case Sealed(_, inner) => StoreThenLoad(p, inner, lanes, at, bytes, other);
    case Record(fields) => StoreRecordThenLoad(p, fields, lanes, at, bytes, other);
    case Variant(cases) => StoreVariantThenLoad(p, cases, lanes, at, bytes, other);
    case _ => StoreScalarThenLoad(p, t, lanes, at, bytes, other);
  }

  lemma StoreScalarThenLoad(p: Platform, t: Type, lanes: seq<Lane>, at: nat, bytes: seq<Byte>, other: seq<Byte>)
    requires !t.Sealed? && !t.Record? && !t.Variant?
    requires WriteFlat(t, lanes, at, bytes).Ok?
    requires Agree(WriteFlat(t, lanes, at, bytes).value, other, at, at + Size(t))
    ensures ReadMemory(p, t, other, at) == LiftStored(p, t, lanes, other)
  {
    hide ReadArray, DecodeText, Get, Put, WritePair, Encode, Decode, Agree, Power;
    Powers();
    match t
    case Unit =>
    case Boolean => GetPut(bytes, at, 1, lanes[0].number % 0x100, other);
    case Integer64 =>
      GetPut(bytes, at, 8, ToUnsigned64(lanes[0].integer), other);
      SignedRoundTrip();
    case Float32 => GetPut(bytes, at, 4, lanes[0].bits, other);
    case Float64 => GetPut(bytes, at, 8, lanes[0].double, other);
    case TextType => PairLoads(lanes[0], lanes[1], at, bytes, other);
    case Array(_) => PairLoads(lanes[0], lanes[1], at, bytes, other);
  }

  lemma StoreRecordThenLoad(p: Platform, fields: seq<Field>, lanes: seq<Lane>, at: nat, bytes: seq<Byte>, other: seq<Byte>)
    requires WriteFlat(Record(fields), lanes, at, bytes).Ok?
    requires Agree(WriteFlat(Record(fields), lanes, at, bytes).value, other, at, at + Size(Record(fields)))
    ensures ReadMemory(p, Record(fields), other, at) == LiftStored(p, Record(fields), lanes, other)
    decreases Depth(Record(fields)), 0, 0
  {
    hide *;
    RecordUnfolds(p, fields, lanes, at, bytes, other);
    var types := FieldTypes(SortFields(fields));
    RecordDepth(fields, SortFields(fields));
    BlockHolds(types, at);
    StoreAllThenLoad(p, types, lanes, Slots(types, at, 0), bytes, other, at, at + Block(types).size);
  }

  lemma RecordUnfolds(p: Platform, fields: seq<Field>, lanes: seq<Lane>, at: nat, bytes: seq<Byte>, other: seq<Byte>)
    ensures var t, sorted := Record(fields), SortFields(fields);
            var types := FieldTypes(sorted);
            && Size(t) == Block(types).size
            && (WriteFlat(t, lanes, at, bytes).Ok? ==> |lanes| == |Flat(t)|)
            && (|lanes| == |Flat(t)| ==>
                  && WriteFlat(t, lanes, at, bytes) == WriteFlatAll(types, lanes, Slots(types, at, 0), bytes)
                  && LiftStored(p, t, lanes, other) == Assembled(sorted, LiftStoredAll(p, types, lanes, other)))
            && ReadMemory(p, t, other, at) == Assembled(sorted, ReadAll(p, types, Slots(types, at, 0), other))
  {
    hide LiftStoredAll, ReadAll, WriteFlatAll, Slots, Block, SortFields, FlatAll, FieldTypes;
  }

  lemma StoreVariantThenLoad(p: Platform, cases: seq<Case>, lanes: seq<Lane>, at: nat, bytes: seq<Byte>, other: seq<Byte>)
    requires lanes != [] && WriteFlatVariant(cases, lanes, at, bytes).Ok?
    requires Agree(WriteFlatVariant(cases, lanes, at, bytes).value, other, at, at + Size(Variant(cases)))
    ensures ReadVariant(p, cases, other, at) == LiftStoredVariant(p, cases, lanes, other)
    decreases Depth(Variant(cases)), 0, 0
  {
    hide *;
    VariantDepth(cases, cases);
    VariantStores(cases, lanes, at, bytes);
    var tag, size := Memory32(lanes[0]).value, DiscriminantSize(|cases|);
    SmallTag(tag, |cases|);
    VariantUnfolds(p, cases, lanes, at, bytes, other);
    var marked := Put(bytes, at, size, tag).value;
    var selected := SortCases(cases)[tag];
    PayloadFits(cases, tag);
    PayloadCase(SortCases(cases), tag);
    SortedCase(cases, tag);
    MarkedTag(cases, lanes, at, bytes, other);
    if selected.payload.Some? {
      var inner, offset := selected.payload.value, PayloadOffset(cases);
      var payload := Narrow(lanes[1..], JoinAll(PayloadTypes(cases)), Flat(inner)).value;
      AgreeInside(WriteFlatVariant(cases, lanes, at, bytes).value, other, at, at + Size(Variant(cases)), at + offset, at + offset + Size(inner));
      StoreThenLoad(p, inner, payload, at + offset, marked, other);
    }
  }

  lemma AgreeInside(a: seq<Byte>, b: seq<Byte>, low: nat, high: nat, lower: nat, higher: nat)
    requires Agree(a, b, low, high) && low <= lower <= higher <= high
    ensures Agree(a, b, lower, higher)
  {
  }

  lemma PayloadCase(cases: seq<Case>, tag: nat)
    requires tag < |cases|
    ensures PayloadType(cases[tag]) == PayloadTypes(cases)[tag]
    ensures cases[tag].payload.Some? ==> PayloadType(cases[tag]) == cases[tag].payload.value
  {
  }

  lemma SortedCase(cases: seq<Case>, tag: nat)
    requires tag < |cases|
    ensures SortCases(cases)[tag] in cases
    ensures SortCases(cases)[tag].payload.Some? ==> Depth(SortCases(cases)[tag].payload.value) < Depth(Variant(cases))
  {
    assert SortCases(cases)[tag] in cases;
  }

  /** The stored discriminant is read back. */
  lemma MarkedTag(cases: seq<Case>, lanes: seq<Lane>, at: nat, bytes: seq<Byte>, other: seq<Byte>)
    requires lanes != [] && WriteFlatVariant(cases, lanes, at, bytes).Ok?
    requires Memory32(lanes[0]).Ok? && Memory32(lanes[0]).value < |cases|
    requires Agree(WriteFlatVariant(cases, lanes, at, bytes).value, other, at, at + Size(Variant(cases)))
    ensures Get(other, at, DiscriminantSize(|cases|)) == Ok(Memory32(lanes[0]).value)
  {
    hide *;
    VariantStores(cases, lanes, at, bytes);
    var tag, size, offset := Memory32(lanes[0]).value, DiscriminantSize(|cases|), PayloadOffset(cases);
    SmallTag(tag, |cases|);
    PayloadFits(cases, tag);
    var marked := Put(bytes, at, size, tag).value;
    var result := WriteFlatVariant(cases, lanes, at, bytes).value;
    var selected := SortCases(cases)[tag];
    if selected.payload.Some? {
      var inner := selected.payload.value;
      var payload := Narrow(lanes[1..], JoinAll(PayloadTypes(cases)), Flat(inner)).value;
      WriteFlatStaysInside(inner, payload, at + offset, marked);
      UntouchedBelow(marked, result, at + offset, at + offset + Size(inner), at, at + size);
    }
    AgreeEarlier(marked, result, other, at, at + size, at + offset, at + Size(Variant(cases)));
    GetPut(bytes, at, size, tag, other);
  }

  lemma UntouchedBelow(first: seq<Byte>, last: seq<Byte>, low: nat, high: nat, from: nat, to: nat)
    requires Outside(first, last, low, high) && to <= low && to <= |first|
    ensures |last| == |first| && forall i :: from <= i < to ==> last[i] == first[i]
  {
  }

  /** What lies below later writes is still what was written first. */
  lemma AgreeEarlier(first: seq<Byte>, last: seq<Byte>, other: seq<Byte>, low: nat, middle: nat, later: nat, high: nat)
    requires Agree(last, other, low, high) && low <= middle <= later <= high && middle <= |first|
    requires |last| == |first| && forall i :: low <= i < middle ==> last[i] == first[i]
    ensures Agree(first, other, low, middle)
  {
  }

  lemma VariantUnfolds(p: Platform, cases: seq<Case>, lanes: seq<Lane>, at: nat, bytes: seq<Byte>, other: seq<Byte>)
    requires lanes != []
    requires Memory32(lanes[0]).Ok? && Memory32(lanes[0]).value < |cases|
    ensures var tag, size := Memory32(lanes[0]).value, DiscriminantSize(|cases|);
            var selected, marked := SortCases(cases)[tag], Put(bytes, at, size, tag % Power(size));
            var narrowed := Narrow(lanes[1..], JoinAll(PayloadTypes(cases)), Flat(PayloadType(selected)));
            && (WriteFlatVariant(cases, lanes, at, bytes).Ok? ==>
                  && marked.Ok?
                  && (selected.payload.Some? ==>
                        && narrowed.Ok?
                        && WriteFlatVariant(cases, lanes, at, bytes) ==
                           WriteFlat(selected.payload.value, narrowed.value, at + PayloadOffset(cases), marked.value)))
            && (selected.payload.Some? && narrowed.Ok? ==>
                  && LiftStoredVariant(p, cases, lanes, other) ==
                     Tagging(selected.name, LiftStored(p, selected.payload.value, narrowed.value, other)))
            && (selected.payload.None? ==> LiftStoredVariant(p, cases, lanes, other) == Ok(Tagged(selected.name, None)))
            && (Get(other, at, size) == Ok(tag) ==>
                  ReadVariant(p, cases, other, at) ==
                  if selected.payload.None? then Ok(Tagged(selected.name, None))
                  else Tagging(selected.name, ReadMemory(p, selected.payload.value, other, at + PayloadOffset(cases))))
  {
    hide LayoutOf, PayloadOffset, DiscriminantSize, Get, Put, JoinAll, Narrow, Power, SortCases, PayloadTypes;
  }

  lemma SmallTag(tag: nat, count: nat)
    requires tag < count && tag < 0x1_0000_0000
    ensures tag < Power(DiscriminantSize(count)) && tag % Power(DiscriminantSize(count)) == tag
    ensures DiscriminantSize(count) > 0
  {
    Powers();
  }

  lemma {:induction false} StoreAllThenLoad(
    p: Platform, types: seq<Type>, lanes: seq<Lane>, slots: seq<nat>, bytes: seq<Byte>, other: seq<Byte>, low: nat, high: nat)
    requires |types| == |slots| && Fits(types, slots, low, high)
    requires WriteFlatAll(types, lanes, slots, bytes).Ok?
    requires Agree(WriteFlatAll(types, lanes, slots, bytes).value, other, low, high)
    ensures ReadAll(p, types, slots, other) == LiftStoredAll(p, types, lanes, other)
    decreases MaxDepth(types), 2, |types|
  {
    if types != [] {
      MaxDepthBound(types[1..], MaxDepth(types));
      var width := |Flat(types[0])|;
      var first := WriteFlat(types[0], lanes[..width], slots[0], bytes).value;
      var next := slots[0] + Size(types[0]);
      FitsWithin(types[1..], slots[1..], next, high);
      WriteFlatAllStaysInside(types[1..], lanes[width..], slots[1..], first, next, high);
      assert Agree(first, other, slots[0], next);
      StoreThenLoad(p, types[0], lanes[..width], slots[0], bytes, other);
      StoreAllThenLoad(p, types[1..], lanes[width..], slots[1..], first, other, next, high);
    }
  }

  /* ---------- what can be stored ---------- */

  /** Lanes that have a value in name order can be stored, where there is room. */
  lemma {:induction false} Storable(p: Platform, t: Type, lanes: seq<Lane>, at: nat, bytes: seq<Byte>, b: seq<Byte>)
    requires LiftStored(p, t, lanes, b).Ok? && at + Size(t) <= |bytes|
    ensures WriteFlat(t, lanes, at, bytes).Ok?
    decreases Depth(t), 1, 0
  {
    match t
    case Sealed(_, inner) => Storable(p, inner, lanes, at, bytes, b);
    case Record(fields) => StorableRecord(p, fields, lanes, at, bytes, b);
    case Variant(cases) => StorableVariant(p, cases, lanes, at, bytes, b);
    case _ => StorableScalar(p, t, lanes, at, bytes, b);
  }

  lemma StorableScalar(p: Platform, t: Type, lanes: seq<Lane>, at: nat, bytes: seq<Byte>, b: seq<Byte>)
    requires !t.Sealed? && !t.Record? && !t.Variant?
    requires LiftStored(p, t, lanes, b).Ok? && at + Size(t) <= |bytes|
    ensures WriteFlat(t, lanes, at, bytes).Ok?
  {
    hide Encode, Decode, ReadArray, DecodeText;
  }

  lemma StorableRecord(p: Platform, fields: seq<Field>, lanes: seq<Lane>, at: nat, bytes: seq<Byte>, b: seq<Byte>)
    requires LiftStored(p, Record(fields), lanes, b).Ok? && at + Size(Record(fields)) <= |bytes|
    ensures WriteFlat(Record(fields), lanes, at, bytes).Ok?
    decreases Depth(Record(fields)), 0, 0
  {
    hide *;
    var types := FieldTypes(SortFields(fields));
    StoredCount(p, fields, lanes, b);
    RecordUnfolds(p, fields, lanes, at, bytes, b);
    RecordDepth(fields, SortFields(fields));
    BlockHolds(types, at);
    StorableAll(p, types, lanes, Slots(types, at, 0), bytes, b, at, at + Block(types).size);
  }

  lemma StoredCount(p: Platform, fields: seq<Field>, lanes: seq<Lane>, b: seq<Byte>)
    requires LiftStored(p, Record(fields), lanes, b).Ok?
    ensures |lanes| == |Flat(Record(fields))| && LiftStoredAll(p, FieldTypes(SortFields(fields)), lanes, b).Ok?
  {
    hide FlatAll, LiftStoredAll, SortFields;
  }

  lemma StorableVariant(p: Platform, cases: seq<Case>, lanes: seq<Lane>, at: nat, bytes: seq<Byte>, b: seq<Byte>)
    requires lanes != [] && LiftStoredVariant(p, cases, lanes, b).Ok? && at + Size(Variant(cases)) <= |bytes|
    ensures WriteFlatVariant(cases, lanes, at, bytes).Ok?
    decreases Depth(Variant(cases)), 0, 0
  {
    hide *;
    StoredCase(p, cases, lanes, b);
    var tag := Memory32(lanes[0]).value;
    var selected := SortCases(cases)[tag];
    PayloadFits(cases, tag);
    PayloadCase(SortCases(cases), tag);
    SortedCase(cases, tag);
    var size := DiscriminantSize(|cases|);
    var marked := Put(bytes, at, size, tag % Power(size)).value;
    if selected.payload.Some? {
      var inner := selected.payload.value;
      var payload := Narrow(lanes[1..], JoinAll(PayloadTypes(cases)), Flat(inner)).value;
      Storable(p, inner, payload, at + PayloadOffset(cases), marked, b);
    }
    CaseStores(cases, lanes, at, bytes);
  }

  /** The selected case of lanes that have a value in name order. */
  lemma StoredCase(p: Platform, cases: seq<Case>, lanes: seq<Lane>, b: seq<Byte>)
    requires lanes != [] && LiftStoredVariant(p, cases, lanes, b).Ok?
    ensures Memory32(lanes[0]).Ok? && Memory32(lanes[0]).value < |cases|
    ensures var selected := SortCases(cases)[Memory32(lanes[0]).value];
            selected.payload.Some? ==>
              var narrowed := Narrow(lanes[1..], JoinAll(PayloadTypes(cases)), Flat(selected.payload.value));
              narrowed.Ok? && LiftStored(p, selected.payload.value, narrowed.value, b).Ok?
  {
    hide JoinAll, Narrow, SortCases, PayloadTypes, Flat;
  }

  lemma CaseStores(cases: seq<Case>, lanes: seq<Lane>, at: nat, bytes: seq<Byte>)
    requires lanes != [] && Memory32(lanes[0]).Ok? && Memory32(lanes[0]).value < |cases|
    requires at + DiscriminantSize(|cases|) <= |bytes|
    ensures var tag, size := Memory32(lanes[0]).value, DiscriminantSize(|cases|);
            var selected, marked := SortCases(cases)[tag], Put(bytes, at, size, tag % Power(size)).value;
            && (selected.payload.None? ==> WriteFlatVariant(cases, lanes, at, bytes).Ok?)
            && (selected.payload.Some? ==>
                  var narrowed := Narrow(lanes[1..], JoinAll(PayloadTypes(cases)), Flat(selected.payload.value));
                  narrowed.Ok? && WriteFlat(selected.payload.value, narrowed.value, at + PayloadOffset(cases), marked).Ok? ==>
                    WriteFlatVariant(cases, lanes, at, bytes).Ok?)
  {
    hide LayoutOf, PayloadOffset, DiscriminantSize, JoinAll, Narrow, Power, SortCases, PayloadTypes, Flat, Encode, Decode;
  }

  lemma {:induction false} StorableAll(
    p: Platform, types: seq<Type>, lanes: seq<Lane>, slots: seq<nat>, bytes: seq<Byte>, b: seq<Byte>, low: nat, high: nat)
    requires |types| == |slots| && Fits(types, slots, low, high) && high <= |bytes| && LiftStoredAll(p, types, lanes, b).Ok?
    ensures WriteFlatAll(types, lanes, slots, bytes).Ok?
    decreases MaxDepth(types), 2, |types|
  {
    hide LayoutOf, Flat;
    if types != [] {
      MaxDepthBound(types[1..], MaxDepth(types));
      var width, next := |Flat(types[0])|, slots[0] + Size(types[0]);
      FitsWithin(types, slots, low, high);
      Storable(p, types[0], lanes[..width], slots[0], bytes, b);
      WriteFlatStaysInside(types[0], lanes[..width], slots[0], bytes);
      StorableAll(p, types[1..], lanes[width..], slots[1..], WriteFlat(types[0], lanes[..width], slots[0], bytes).value, b, next, high);
    }
  }

  /* ---------- an input ---------- */

  const OUT_OF_ORDER: seq<Field> := [Field([98], Boolean), Field([97], Boolean)]

  /** Name order matters: a record out of order is stored in its declared order and loaded in name
      order, so its two fields come back exchanged, while its flat lanes lift correctly. */
  lemma NameOrderMatters(p: Platform)
    ensures var t, v := Record(OUT_OF_ORDER), Rec(map[[98] := Flag(true), [97] := Flag(false)]);
            var h := Heap([0, 0], {0, 1});
            && Lower(p, t, v, h) == Ok(Lowered([I32(1), I32(0)], h))
            && Lift(p, t, [I32(1), I32(0)], h.bytes) == Ok(v)
            && Write(p, t, v, 0, h) == Ok(Heap([1, 0], {0, 1}))
            && ReadMemory(p, t, [1, 0], 0) == Ok(Rec(map[[97] := Flag(true), [98] := Flag(false)]))
  {
    hide LowerAll, LiftAll, WriteFlatAll, ReadAll, FlatAll, Slots, Collect;
    var fields, sorted := OUT_OF_ORDER, [Field([97], Boolean), Field([98], Boolean)];
    var members := map[[98] := Flag(true), [97] := Flag(false)];
    OutOfOrder();
    TwoFlags(p, Heap([0, 0], {0, 1}));
    assert FieldTypes(fields) == [Boolean, Boolean] == FieldTypes(sorted);
    assert Pick(members, fields) == [Some(Flag(true)), Some(Flag(false))];
    assert |members| == 2 by { assert members.Keys == {[98], [97]} && [98] != [97]; assert |members| == |members.Keys|; }
    TwoMembers(fields[0], fields[1], Flag(true), Flag(false));
    TwoMembers(sorted[0], sorted[1], Flag(true), Flag(false));
  }

  lemma OutOfOrder()
    ensures SortFields(OUT_OF_ORDER) == [Field([97], Boolean), Field([98], Boolean)]
  {
    var a, b := Field([97], Boolean), Field([98], Boolean);
    assert OUT_OF_ORDER[1..] == [a] && [a][1..] == [];
    assert SortFields([a]) == InsertField(a, []) == [a];
    assert InsertField(b, [a]) == [a] + InsertField(b, []);
  }

  lemma TwoMembers(a: Field, b: Field, v: Value, w: Value)
    ensures Collect([a, b], [v, w]) == map[a.name := v, b.name := w]
  {
    assert [a, b][..1] == [a] && [v, w][..1] == [v] && [a][..0] == [] && [v][..0] == [];
    assert Collect([a], [v]) == map[a.name := v];
  }

  lemma TwoFlags(p: Platform, h: Heap)
    requires h.bytes == [0, 0]
    ensures var types, lanes := [Boolean, Boolean], [I32(1), I32(0)];
            && FlatAll(types) == [LaneI32, LaneI32] && Slots(types, 0, 0) == [0, 1]
            && LowerAll(p, types, [Some(Flag(true)), Some(Flag(false))], h) == Ok(Lowered(lanes, h))
            && LiftAll(p, types, lanes, h.bytes) == Ok([Flag(true), Flag(false)])
            && WriteFlatAll(types, lanes, [0, 1], h.bytes) == Ok([1, 0])
            && ReadAll(p, types, [0, 1], [1, 0]) == Ok([Flag(true), Flag(false)])
  {
    var one: seq<Type> := [Boolean];
    assert [Boolean, Boolean][1..] == one && one[1..] == [];
    assert FlatAll(one) == [LaneI32];
    assert Slots(one, 0, 1) == [1];
    var low, high := [I32(1)], [I32(0)];
    assert low + high == [I32(1), I32(0)] && high + [] == high && (low + high)[..1] == low && (low + high)[1..] == high;
    assert high[..1] == high && high[1..] == [];
    assert LowerAll(p, one, [Some(Flag(false))], h) == Ok(Lowered(high, h));
    assert [Some(Flag(true)), Some(Flag(false))][1..] == [Some(Flag(false))];
    assert LiftAll(p, [], [], h.bytes) == Ok([]);
    assert [Flag(false)] + [] == [Flag(false)];
    assert LiftAll(p, one, high, h.bytes) == Ok([Flag(false)]);
    TwoBytes(p, h.bytes);
  }

  lemma TwoBytes(p: Platform, bytes: seq<Byte>)
    requires bytes == [0, 0]
    ensures WriteFlatAll([Boolean, Boolean], [I32(1), I32(0)], [0, 1], bytes) == Ok([1, 0])
    ensures ReadAll(p, [Boolean, Boolean], [0, 1], [1, 0]) == Ok([Flag(true), Flag(false)])
  {
    var one: seq<Type> := [Boolean];
    var marked: seq<Byte> := [1, 0];
    assert [Boolean, Boolean][1..] == one && one[1..] == [] && [0, 1][1..] == [1];
    assert [I32(1), I32(0)][..1] == [I32(1)] && [I32(1), I32(0)][1..] == [I32(0)];
    assert [I32(0)][..1] == [I32(0)] && [I32(0)][1..] == [];
    assert Encode(1, 1) == [1] && Encode(1, 0) == [0];
    assert bytes[..0] + [1] + bytes[1..] == marked;
    assert WriteFlat(Boolean, [I32(1)], 0, bytes) == Ok(marked);
    assert marked[..1] + [0] + marked[2..] == marked;
    assert WriteFlat(Boolean, [I32(0)], 1, marked) == Ok(marked);
    assert WriteFlatAll(one, [I32(0)], [1], marked) == Ok(marked);
    assert marked[1..2] == [0] && marked[0..1] == [1] && [0][1..] == [] && [1][1..] == [];
    assert Decode([0]) == 0 && Decode([1]) == 1;
    assert ReadMemory(p, Boolean, marked, 1) == Ok(Flag(false));
    assert [Flag(false)] + [] == [Flag(false)] && [Flag(true)] + [Flag(false)] == [Flag(true), Flag(false)];
    assert ReadAll(p, one, [1], marked) == Ok([Flag(false)]);
  }
}
