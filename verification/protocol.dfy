/**
 * The vocabulary shared by values and encoders: the primitive payloads,
 * the encoder calls (one `Event` per `visit_*` entry point), the encoder's
 * opaque failure, and what an encoder that fails at one given call
 * actually receives.
 */
module Protocol {

  datatype Option<+T> = None | Some(value: T)

  datatype Result<+T, +E> = Ok(value: T) | Err(error: E)

  // Fixed-width integers of the primitive adapters. `isize`/`usize` are
  // modelled at 64 bits.
  newtype int8 = x: int | -0x80 <= x < 0x80
  newtype int16 = x: int | -0x8000 <= x < 0x8000
  newtype int32 = x: int | -0x8000_0000 <= x < 0x8000_0000
  newtype int64 = x: int | -0x8000_0000_0000_0000 <= x < 0x8000_0000_0000_0000
  newtype uint8 = x: int | 0 <= x < 0x100
  newtype uint16 = x: int | 0 <= x < 0x1_0000
  newtype uint32 = x: int | 0 <= x < 0x1_0000_0000
  newtype uint64 = x: int | 0 <= x < 0x1_0000_0000_0000_0000

  /** A primitive value; floats are carried as opaque bit patterns. */
  datatype Scalar =
    | Bool(b: bool)
    | Isize(isize: int64)
    | I8(i8: int8)
    | I16(i16: int16)
    | I32(i32: int32)
    | I64(i64: int64)
    | Usize(usize: uint64)
    | U8(u8: uint8)
    | U16(u16: uint16)
    | U32(u32: uint32)
    | U64(u64: uint64)
    | F32(f32: bv32)
    | F64(f64: bv64)
    | Char(c: char)

  /**
   * One call received by the encoder. Structural entry points carry the
   * length hint (`len()`) of the visitor they are handed; element entry
   * points are followed in a trace by the calls the element itself makes.
   */
  datatype Event =
    | VisitBool(b: bool)
    | VisitIsize(isize: int64)
    | VisitI8(i8: int8)
    | VisitI16(i16: int16)
    | VisitI32(i32: int32)
    | VisitI64(i64: int64)
    | VisitUsize(usize: uint64)
    | VisitU8(u8: uint8)
    | VisitU16(u16: uint16)
    | VisitU32(u32: uint32)
    | VisitU64(u64: uint64)
    | VisitF32(f32: bv32)
    | VisitF64(f64: bv64)
    | VisitChar(c: char)
    | VisitStr(s: string)
    | VisitUnit
    | VisitNone
    | VisitSome
    | VisitSeq(len: Option<nat>)
    | VisitSeqElt
    | VisitTuple(len: Option<nat>)
    | VisitMap(len: Option<nat>)
    | VisitMapElt
    | VisitNamedUnit(name: string)
    | VisitNamedSeq(name: string, len: Option<nat>)
    | VisitNamedMap(name: string, len: Option<nat>)
    | VisitTupleElt
    | VisitNamedMapElt(key: string)
    | VisitEnumUnit(name: string, variantIndex: nat, variant: string)
    | VisitEnumSeq(name: string, variantIndex: nat, variant: string, len: Option<nat>)
    | VisitEnumMap(name: string, variantIndex: nat, variant: string, len: Option<nat>)

  /** The encoder's own failure, opaque to this layer: here, the index of the call that failed. */
  datatype Error = SinkError(call: nat)

  /** The single encoder call a primitive adapter makes (`impl_visit!`). */
  function ScalarEvent(s: Scalar): (e: Event)
    ensures ScalarOf(e) == Some(s)
  {
    match s
    case Bool(b) => VisitBool(b)
    case Isize(x) => VisitIsize(x)
    case I8(x) => VisitI8(x)
    case I16(x) => VisitI16(x)
    case I32(x) => VisitI32(x)
    case I64(x) => VisitI64(x)
    case Usize(x) => VisitUsize(x)
    case U8(x) => VisitU8(x)
    case U16(x) => VisitU16(x)
    case U32(x) => VisitU32(x)
    case U64(x) => VisitU64(x)
    case F32(x) => VisitF32(x)
    case F64(x) => VisitF64(x)
    case Char(c) => VisitChar(c)
  }

  /** Reads a primitive event back; `None` for every non-primitive event. */
  function ScalarOf(e: Event): Option<Scalar>
  {
    match e
    case VisitBool(b) => Some(Bool(b))
    case VisitIsize(x) => Some(Isize(x))
    case VisitI8(x) => Some(I8(x))
    case VisitI16(x) => Some(I16(x))
    case VisitI32(x) => Some(I32(x))
    case VisitI64(x) => Some(I64(x))
    case VisitUsize(x) => Some(Usize(x))
    case VisitU8(x) => Some(U8(x))
    case VisitU16(x) => Some(U16(x))
    case VisitU32(x) => Some(U32(x))
    case VisitU64(x) => Some(U64(x))
    case VisitF32(x) => Some(F32(x))
    case VisitF64(x) => Some(F64(x))
    case VisitChar(c) => Some(Char(c))
    case _ => None
  }

  /** Distinct primitives make distinct calls, and every primitive call comes from exactly one primitive. */
  lemma ScalarEventInjective(s: Scalar, t: Scalar)
    ensures ScalarEvent(s) == ScalarEvent(t) <==> s == t
  {
    if ScalarEvent(s) == ScalarEvent(t) {
      assert Some(s) == ScalarOf(ScalarEvent(s)) == ScalarOf(ScalarEvent(t)) == Some(t);
    }
  }

  lemma ScalarOfInverse(e: Event)
    ensures ScalarOf(e).Some? ==> ScalarEvent(ScalarOf(e).value) == e
  {
  }

  // ---------------------------------------------------------------------
  // Failure injection. An encoder that fails at absolute call index `k`
  // receives that call, reports `SinkError(k)`, and the protocol makes no
  // further call. `t` is the complete list of calls a serialization would
  // make, starting at absolute call index `start`.

  predicate FailsWithin(t: seq<Event>, start: nat, failAt: Option<nat>)
  {
    failAt.Some? && start <= failAt.value < start + |t|
  }

  /** The calls the encoder actually receives. */
  function Sent(t: seq<Event>, start: nat, failAt: Option<nat>): (r: seq<Event>)
    ensures r <= t
    ensures FailsWithin(t, start, failAt) ==> |r| == failAt.value - start + 1
    ensures !FailsWithin(t, start, failAt) ==> r == t
  {
    if FailsWithin(t, start, failAt) then t[..failAt.value - start + 1] else t
  }

  /** What the whole serialization returns: the first failure, unchanged, or success. */
  function Outcome(t: seq<Event>, start: nat, failAt: Option<nat>): (r: Result<(), Error>)
    ensures r.Err? <==> FailsWithin(t, start, failAt)
    ensures r.Err? ==> r.error == SinkError(failAt.value)
  {
    if FailsWithin(t, start, failAt) then Err(SinkError(failAt.value)) else Ok(())
  }

  /**
   * Sequencing: running `a` and then, only if it succeeded, `b` is the
   * same as running `a + b`. A failure inside `a` suppresses every call
   * of `b`; otherwise `b` starts right after `a`.
   */
  lemma SentAppend(a: seq<Event>, b: seq<Event>, start: nat, failAt: Option<nat>)
    ensures Outcome(a, start, failAt).Err? ==>
      Sent(a + b, start, failAt) == Sent(a, start, failAt) &&
      Outcome(a + b, start, failAt) == Outcome(a, start, failAt)
    ensures Outcome(a, start, failAt).Ok? ==>
      Sent(a + b, start, failAt) == a + Sent(b, start + |a|, failAt) &&
      Outcome(a + b, start, failAt) == Outcome(b, start + |a|, failAt)
  {
    if FailsWithin(a, start, failAt) {
      var n := failAt.value - start + 1;
      assert (a + b)[..n] == a[..n];
    } else if FailsWithin(b, start + |a|, failAt) {
      var n := failAt.value - start + 1;
      assert (a + b)[..n] == a + b[..n - |a|];
    }
  }
}
