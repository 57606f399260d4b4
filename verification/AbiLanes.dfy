/** Little-endian bytes, core lanes, and the bitwise reinterpretation between lane types. */
module AbiLanes {
  import opened AbiLayouts

  type Byte = b: int | 0 <= b < 0x100
  type Bits32 = b: int | 0 <= b < 0x1_0000_0000
  type Bits64 = b: int | 0 <= b < 0x1_0000_0000_0000_0000
  type Signed32 = i: int | -0x8000_0000 <= i < 0x8000_0000
  type Signed64 = i: int | -0x8000_0000_0000_0000 <= i < 0x8000_0000_0000_0000

  datatype Fault = TypeFault | RangeFault | Refused
  datatype Result<+T> = Ok(value: T) | Err(fault: Fault)

  /** A core value with its type. Floats are bit patterns. An `i32` lane is a JavaScript number,
      which may present the same 32 bits as a signed or as an unsigned integer. */
  datatype Lane = I32(number: int) | I64(integer: Signed64) | F32(bits: Bits32) | F64(double: Bits64)

  function TypeOf(l: Lane): LaneType {
    match l
    case I32(_) => LaneI32
    case I64(_) => LaneI64
    case F32(_) => LaneF32
    case F64(_) => LaneF64
  }

  function TypesOf(lanes: seq<Lane>): (r: seq<LaneType>)
    ensures |r| == |lanes|
  {
    seq(|lanes|, i requires 0 <= i < |lanes| => TypeOf(lanes[i]))
  }

  /** `memory32`. */
  function Memory32(l: Lane): Result<Bits32> {
    if l.I32? && -0x8000_0000 <= l.number < 0x1_0000_0000 then Ok(l.number % 0x1_0000_0000) else Err(TypeFault)
  }

  function ToSigned32(b: Bits32): Signed32 {
    if b < 0x8000_0000 then b else b - 0x1_0000_0000
  }

  function ToSigned64(b: Bits64): Signed64 {
    if b < 0x8000_0000_0000_0000 then b else b - 0x1_0000_0000_0000_0000
  }

  function ToUnsigned64(i: int): Bits64 {
    i % 0x1_0000_0000_0000_0000
  }

  /** The eight bytes that a lane leaves in a zeroed buffer, as one number. */
  function Bits(l: Lane): Bits64 {
    match l
    case I32(n) => n % 0x1_0000_0000
    case I64(i) => ToUnsigned64(i)
    case F32(b) => b
    case F64(b) => b
  }

  function FromBits(b: Bits64, to: LaneType): Lane {
    match to
    case LaneI32 => I32(ToSigned32(b % 0x1_0000_0000))
    case LaneI64 => I64(ToSigned64(b))
    case LaneF32 => F32(b % 0x1_0000_0000)
    case LaneF64 => F64(b)
  }

  /** `convertLane`. */
  function ConvertLane(l: Lane, from: LaneType, to: LaneType): Result<Lane> {
    if from == to then Ok(l)
    else if TypeOf(l) != from then Err(TypeFault)
    else Ok(FromBits(Bits(l), to))
  }

  /** Two presentations of one core value. */
  predicate SameLane(a: Lane, b: Lane) {
    a == b || (a.I32? && b.I32? && Memory32(a).Ok? && Memory32(a) == Memory32(b))
  }

  predicate SameLanes(a: seq<Lane>, b: seq<Lane>) {
    |a| == |b| && forall i :: 0 <= i < |a| ==> SameLane(a[i], b[i])
  }

  lemma SignedRoundTrip()
    ensures forall i: Signed64 :: ToSigned64(ToUnsigned64(i)) == i
    ensures forall b: Bits64 :: ToUnsigned64(ToSigned64(b)) == b
  {
  }

  /** Widening a lane and narrowing it again gives back the same core value. */
  lemma NarrowsBack(l: Lane, to: LaneType)
    requires Widens(TypeOf(l), to) && (l.I32? ==> Memory32(l).Ok?)
    ensures ConvertLane(l, TypeOf(l), to).Ok?
    ensures var wide := ConvertLane(l, TypeOf(l), to).value;
            && TypeOf(wide) == to && (wide.I32? ==> Memory32(wide).Ok?)
            && ConvertLane(wide, to, TypeOf(l)).Ok? && SameLane(ConvertLane(wide, to, TypeOf(l)).value, l)
  {
    match l
    case I32(n) => if to == LaneI64 { WideBack(n % 0x1_0000_0000); }
    case I64(_) =>
    case F32(b) => if to == LaneI64 { WideBack(b); }
    case F64(b) => if to == LaneI64 { WideBack(b); }
  }

  lemma WideBack(b: Bits64)
    ensures ToUnsigned64(ToSigned64(b)) == b
  {
  }

  /** Converting respects the presentation. */
  lemma ConvertsSame(a: Lane, b: Lane, from: LaneType, to: LaneType)
    requires SameLane(a, b)
    ensures ConvertLane(a, from, to).Ok? <==> ConvertLane(b, from, to).Ok?
    ensures ConvertLane(a, from, to).Err? ==> ConvertLane(a, from, to) == ConvertLane(b, from, to)
    ensures ConvertLane(a, from, to).Ok? ==> SameLane(ConvertLane(a, from, to).value, ConvertLane(b, from, to).value)
  {
  }

  /* ---------- bytes ---------- */

  function Power(n: nat): (r: nat)
    ensures r >= 1
  {
    if n == 0 then 1 else 0x100 * Power(n - 1)
  }

  lemma Powers()
    ensures Power(1) == 0x100 && Power(2) == 0x1_0000 && Power(4) == 0x1_0000_0000
    ensures Power(8) == 0x1_0000_0000_0000_0000
  {
    assert Power(3) == 0x100 * Power(2);
    assert Power(5) == 0x100 * Power(4);
    assert Power(7) == 0x100 * Power(6);
  }

  function Encode(n: nat, value: nat): (s: seq<Byte>)
    ensures |s| == n
  {
    if n == 0 then [] else [value % 0x100] + Encode(n - 1, value / 0x100)
  }

  function Decode(s: seq<Byte>): nat {
    if s == [] then 0 else s[0] + 0x100 * Decode(s[1..])
  }

  lemma {:induction false} DecodeEncode(n: nat, value: nat)
    requires value < Power(n)
    ensures Decode(Encode(n, value)) == value
  {
    if n > 0 {
      DecodeEncode(n - 1, value / 0x100);
      assert Encode(n, value)[1..] == Encode(n - 1, value / 0x100);
    }
  }

  lemma {:induction false} DecodeBound(s: seq<Byte>)
    ensures Decode(s) < Power(|s|)
  {
    if s != [] {
      DecodeBound(s[1..]);
    }
  }

  /** `DataView.set…`: the low `n` bytes of the value, or a range error. */
  function Put(bytes: seq<Byte>, at: nat, n: nat, value: nat): (r: Result<seq<Byte>>)
    ensures r.Ok? <==> at + n <= |bytes|
    ensures r.Ok? ==> |r.value| == |bytes|
  {
    if at + n <= |bytes| then Ok(bytes[..at] + Encode(n, value) + bytes[at + n..]) else Err(RangeFault)
  }

  /** `DataView.get…`. */
  function Get(bytes: seq<Byte>, at: nat, n: nat): (r: Result<nat>)
    ensures r.Ok? <==> at + n <= |bytes|
    ensures r.Ok? ==> r.value < Power(n)
  {
    if at + n <= |bytes| then
      DecodeBound(bytes[at..at + n]);
      Ok(Decode(bytes[at..at + n]))
    else Err(RangeFault)
  }

  /** The two byte strings agree on `[low, high)`. */
  predicate Agree(a: seq<Byte>, b: seq<Byte>, low: nat, high: nat) {
    && low <= high && (low < high ==> high <= |a| && high <= |b|)
    && forall i :: low <= i < high ==> a[i] == b[i]
  }

  /** Nothing outside `[low, high)` differs. */
  predicate Outside(a: seq<Byte>, b: seq<Byte>, low: nat, high: nat) {
    |a| == |b| && forall i :: 0 <= i < |a| && !(low <= i < high) ==> a[i] == b[i]
  }

  lemma PutOutside(bytes: seq<Byte>, at: nat, n: nat, value: nat)
    requires at + n <= |bytes|
    ensures Outside(bytes, Put(bytes, at, n, value).value, at, at + n)
  {
  }

  /** What was put is what is got, also from other bytes that agree there. */
  lemma GetPut(bytes: seq<Byte>, at: nat, n: nat, value: nat, other: seq<Byte>)
    requires 0 < n && at + n <= |bytes| && value < Power(n)
    requires Agree(Put(bytes, at, n, value).value, other, at, at + n)
    ensures Get(other, at, n) == Ok(value)
  {
    var stored := Put(bytes, at, n, value).value;
    assert stored[at..at + n] == Encode(n, value);
    assert other[at..at + n] == stored[at..at + n];
    DecodeEncode(n, value);
  }
}
