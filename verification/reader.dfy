/**
 * The length hints make a trace self-delimiting: an encoder that knows
 * only the calls it has received can tell where each value ends, because
 * every structural call announces exactly how many element calls follow,
 * and each element call is followed by exactly one value (two for a map
 * entry: key, then value).
 */
module Reader {
  import opened Protocol
  import opened Plan
  import opened Impls

  /** Which element call a structure is made of, and how many values each one carries. */
  datatype Frame = SeqFrame | MapFrame | TupleFieldFrame | NamedFieldFrame

  predicate Marks(frame: Frame, e: Event)
  {
    match frame
    case SeqFrame => e.VisitSeqElt?
    case MapFrame => e.VisitMapElt?
    case TupleFieldFrame => e.VisitTupleElt?
    case NamedFieldFrame => e.VisitNamedMapElt?
  }

  /** The frame of the elements that follow a structural call; `None` for every other call. */
  function Opening(e: Event): (r: Option<Frame>)
    ensures r.Some? <==> e.VisitSeq? || e.VisitTuple? || e.VisitMap? || e.VisitNamedSeq?
                         || e.VisitEnumSeq? || e.VisitNamedMap? || e.VisitEnumMap?
  {
    match e
    case VisitSeq(_) => Some(SeqFrame)
    case VisitTuple(_) => Some(SeqFrame)
    case VisitMap(_) => Some(MapFrame)
    case VisitNamedSeq(_, _) => Some(TupleFieldFrame)
    case VisitEnumSeq(_, _, _, _) => Some(TupleFieldFrame)
    case VisitNamedMap(_, _) => Some(NamedFieldFrame)
    case VisitEnumMap(_, _, _, _) => Some(NamedFieldFrame)
    case _ => None
  }

  /** A call that only ever occurs inside a structure. */
  predicate IsElementCall(e: Event)
  {
    e.VisitSeqElt? || e.VisitMapElt? || e.VisitTupleElt? || e.VisitNamedMapElt?
  }

  /**
   * Consumes the calls of one value from the front of `t` and returns
   * what follows, or `None` when `t` does not start with a whole value.
   */
  function SkipValue(t: seq<Event>): (r: Option<seq<Event>>)
    ensures r.Some? ==> |r.value| < |t|
    decreases |t|, 1
  {
    if t == [] || IsElementCall(t[0]) then None
    else if t[0] == VisitSome then SkipValue(t[1..])
    else if Opening(t[0]).Some? then
      if t[0].len.Some? then SkipElts(t[1..], t[0].len.value, Opening(t[0]).value) else None
    else Some(t[1..])
  }

  /** Consumes `n` elements of `frame` from the front of `t`. */
  function SkipElts(t: seq<Event>, n: nat, frame: Frame): (r: Option<seq<Event>>)
    ensures r.Some? ==> |r.value| <= |t|
    ensures n > 0 && r.Some? ==> |r.value| < |t|
    decreases |t|, 0, n
  {
    if n == 0 then Some(t)
    else if t == [] || !Marks(frame, t[0]) then None
    else
      match SkipElement(t[1..], frame)
      case None => None
      case Some(rest) => SkipElts(rest, n - 1, frame)
  }

  /** The values that follow one element call: a key and a value in a map, one value elsewhere. */
  function SkipElement(t: seq<Event>, frame: Frame): (r: Option<seq<Event>>)
    ensures r.Some? ==> |r.value| < |t|
    decreases |t|, 2
  {
    match SkipValue(t)
    case None => None
    case Some(rest) => if frame == MapFrame then SkipValue(rest) else Some(rest)
  }

  /** A call that is a whole value by itself. */
  lemma SkipLeaf(e: Event, rest: seq<Event>)
    requires Opening(e).None? && !IsElementCall(e) && e != VisitSome
    ensures SkipValue([e] + rest) == Some(rest)
  {
    assert ([e] + rest)[1..] == rest;
  }

  /** A value that makes a single call. */
  lemma SkipSingleCall(v: Value, rest: seq<Event>)
    requires v.Scalar? || v.Str? || v.Unit? || v == Opt(None)
    ensures WellTyped(v) && SkipValue(Trace(v) + rest) == Some(rest)
  {
    match v
    case Scalar(s) => SkipLeaf(ScalarEvent(s), rest);
    case Str(s) => SkipLeaf(VisitStr(s), rest);
    case Unit => SkipLeaf(VisitUnit, rest);
    case Opt(_) => SkipLeaf(VisitNone, rest);
  }

  /** A structural call announcing `n` elements, followed by `n` elements. */
  lemma SkipOpened(e: Event, body: seq<Event>, rest: seq<Event>)
    requires Opening(e).Some? && e.len.Some?
    requires SkipElts(body + rest, e.len.value, Opening(e).value) == Some(rest)
    ensures SkipValue([e] + body + rest) == Some(rest)
  {
    assert ([e] + body + rest)[1..] == body + rest;
  }

  /** The calls of every well-typed value form exactly one whole value, whatever follows. */
  lemma {:induction false} SkipTrace(v: Value, rest: seq<Event>)
    requires WellTyped(v)
    ensures SkipValue(Trace(v) + rest) == Some(rest)
    decreases Size(v), 2
  {
    match v
    case Scalar(_) => SkipSingleCall(v, rest);
    case Str(_) => SkipSingleCall(v, rest);
    case OwnedString(s) => SkipTrace(Str(s), rest);
    case Unit => SkipSingleCall(v, rest);
    case Opt(o) =>
      if o.Some? {
        SkipSome(o.value, rest);
      } else {
        SkipSingleCall(v, rest);
      }
    case Seq(kind, es) =>
      if kind == Vec {
        SkipTrace(Seq(Slice, es), rest);
      } else {
        SkipCollection(v, rest);
      }
    case Tuple(_) => SkipCollection(v, rest);
    case Map(_, _) => SkipCollection(v, rest);
    case Ptr(_, target) => SkipTrace(target, rest);
    case Struct(shape, fs) => SkipStruct(shape, fs, rest);
    case Enum(arms, tag, fs) => SkipEnum(arms, tag, fs, rest);
  }

  /** `visit_some`, then the value inside. */
  lemma {:induction false} SkipSome(v: Value, rest: seq<Event>)
    requires WellTyped(v)
    ensures SkipValue(SomeCall(v) + rest) == Some(rest)
    decreases Size(v), 3
  {
    SkipTrace(v, rest);
    assert (SomeCall(v) + rest)[1..] == Trace(v) + rest;
  }

  lemma {:induction false} SkipCollection(v: Value, rest: seq<Event>)
    requires WellTyped(v) && ((v.Seq? && v.kind != Vec) || v.Tuple? || v.Map?)
    ensures SkipValue(Trace(v) + rest) == Some(rest)
    decreases Size(v), 1
  {
    match v
    case Seq(_, es) =>
      SkipSeqElts(es, rest);
      SkipOpened(VisitSeq(Some(|es|)), SeqElts(es), rest);
    case Tuple(es) =>
      SkipSeqElts(es, rest);
      SkipOpened(VisitTuple(Some(|es|)), SeqElts(es), rest);
    case Map(_, entries) =>
      SkipMapElts(entries, rest);
      SkipOpened(VisitMap(Some(|entries|)), MapElts(entries), rest);
  }

  lemma {:induction false} SkipStruct(shape: StructShape, fs: seq<Value>, rest: seq<Event>)
    requires WellTyped(Struct(shape, fs))
    ensures SkipValue(Trace(Struct(shape, fs)) + rest) == Some(rest)
    decreases Size(Struct(shape, fs)), 1
  {
    match shape
    case UnitShape(name) =>
      SkipLeaf(VisitNamedUnit(name), rest);
    case TupleShape(name, n) =>
      SkipTupleElts(fs, rest);
      SkipOpened(VisitNamedSeq(name, Some(n)), TupleElts(fs), rest);
    case MapShape(name, keys) =>
      SkipNamedElts(keys, fs, rest);
      SkipOpened(VisitNamedMap(name, Some(|keys|)), NamedElts(keys, fs), rest);
  }

  lemma {:induction false} SkipEnum(arms: seq<Arm>, tag: nat, fs: seq<Value>, rest: seq<Event>)
    requires WellTyped(Enum(arms, tag, fs))
    ensures SkipValue(Trace(Enum(arms, tag, fs)) + rest) == Some(rest)
    decreases Size(Enum(arms, tag, fs)), 1
  {
    match arms[tag]
    case UnitArm(name, index, variant) =>
      SkipLeaf(VisitEnumUnit(name, index, variant), rest);
    case SeqArm(name, index, variant, n) =>
      SkipTupleElts(fs, rest);
      SkipOpened(VisitEnumSeq(name, index, variant, Some(n)), TupleElts(fs), rest);
    case MapArm(name, index, variant, keys) =>
      SkipNamedElts(keys, fs, rest);
      SkipOpened(VisitEnumMap(name, index, variant, Some(|keys|)), NamedElts(keys, fs), rest);
  }

  /** One element call and its values, then `n` more elements. */
  lemma SkipStep(frame: Frame, e: Event, item: seq<Event>, tail: seq<Event>, n: nat, rest: seq<Event>, t: seq<Event>)
    requires t == [e] + item + tail && Marks(frame, e)
    requires SkipElement(item + tail, frame) == Some(tail)
    requires SkipElts(tail, n, frame) == Some(rest)
    ensures SkipElts(t, n + 1, frame) == Some(rest)
  {
    assert t[1..] == item + tail;
  }

  /** A one-value element whose value is followed by `tail`. */
  lemma SkipSingle(frame: Frame, e: Event, v: Value, tail: seq<Event>, n: nat, rest: seq<Event>, t: seq<Event>)
    requires WellTyped(v) && frame != MapFrame
    requires t == [e] + Trace(v) + tail && Marks(frame, e)
    requires SkipElts(tail, n, frame) == Some(rest)
    ensures SkipElts(t, n + 1, frame) == Some(rest)
    decreases Size(v), 3
  {
    SkipTrace(v, tail);
    SkipStep(frame, e, Trace(v), tail, n, rest, t);
  }

  lemma SeqEltsCons(es: seq<Value>, rest: seq<Event>)
    requires es != [] && AllWellTyped(es)
    ensures SeqElts(es) + rest == [VisitSeqElt] + Trace(es[0]) + (SeqElts(es[1..]) + rest)
  {
  }

  lemma TupleEltsCons(es: seq<Value>, rest: seq<Event>)
    requires es != [] && AllWellTyped(es)
    ensures TupleElts(es) + rest == [VisitTupleElt] + Trace(es[0]) + (TupleElts(es[1..]) + rest)
  {
  }

  lemma NamedEltsCons(keys: seq<string>, es: seq<Value>, rest: seq<Event>)
    requires es != [] && |keys| == |es| && AllWellTyped(es)
    ensures NamedElts(keys, es) + rest
         == [VisitNamedMapElt(keys[0])] + Trace(es[0]) + (NamedElts(keys[1..], es[1..]) + rest)
  {
  }

  lemma MapEltsCons(entries: seq<Entry>, rest: seq<Event>)
    requires entries != [] && EntriesWellTyped(entries)
    ensures MapElts(entries) + rest
         == [VisitMapElt] + (Trace(entries[0].key) + Trace(entries[0].value)) + (MapElts(entries[1..]) + rest)
  {
  }

  lemma {:induction false} SkipSeqElts(es: seq<Value>, rest: seq<Event>)
    requires AllWellTyped(es)
    ensures SkipElts(SeqElts(es) + rest, |es|, SeqFrame) == Some(rest)
    decreases SeqWeight(es), 1
  {
    if es != [] {
      SkipSeqElts(es[1..], rest);
      SeqEltsCons(es, rest);
      SkipSingle(SeqFrame, VisitSeqElt, es[0], SeqElts(es[1..]) + rest, |es| - 1, rest, SeqElts(es) + rest);
    } else {
      assert SeqElts(es) + rest == rest;
    }
  }

  lemma {:induction false} SkipTupleElts(es: seq<Value>, rest: seq<Event>)
    requires AllWellTyped(es)
    ensures SkipElts(TupleElts(es) + rest, |es|, TupleFieldFrame) == Some(rest)
    decreases SeqWeight(es), 1
  {
    if es != [] {
      SkipTupleElts(es[1..], rest);
      TupleEltsCons(es, rest);
      SkipSingle(TupleFieldFrame, VisitTupleElt, es[0], TupleElts(es[1..]) + rest, |es| - 1, rest, TupleElts(es) + rest);
    } else {
      assert TupleElts(es) + rest == rest;
    }
  }

  lemma {:induction false} SkipNamedElts(keys: seq<string>, es: seq<Value>, rest: seq<Event>)
    requires |keys| == |es| && AllWellTyped(es)
    ensures SkipElts(NamedElts(keys, es) + rest, |es|, NamedFieldFrame) == Some(rest)
    decreases SeqWeight(es), 1
  {
    if es != [] {
      SkipNamedElts(keys[1..], es[1..], rest);
      NamedEltsCons(keys, es, rest);
      SkipSingle(NamedFieldFrame, VisitNamedMapElt(keys[0]), es[0], NamedElts(keys[1..], es[1..]) + rest,
                 |es| - 1, rest, NamedElts(keys, es) + rest);
    } else {
      assert NamedElts(keys, es) + rest == rest;
    }
  }

  /** A key and a value, in that order, make one map element. */
  lemma SkipPair(e: Entry, tail: seq<Event>)
    requires EntryWellTyped(e)
    ensures SkipElement(Trace(e.key) + Trace(e.value) + tail, MapFrame) == Some(tail)
    decreases EntrySize(e), 3
  {
    SkipTrace(e.key, Trace(e.value) + tail);
    SkipTrace(e.value, tail);
    assert Trace(e.key) + (Trace(e.value) + tail) == Trace(e.key) + Trace(e.value) + tail;
  }

  lemma {:induction false} SkipMapElts(entries: seq<Entry>, rest: seq<Event>)
    requires EntriesWellTyped(entries)
    ensures SkipElts(MapElts(entries) + rest, |entries|, MapFrame) == Some(rest)
    decreases MapWeight(entries), 1
  {
    if entries != [] {
      var e := entries[0];
      var tail := MapElts(entries[1..]) + rest;
      SkipPair(e, tail);
      SkipMapElts(entries[1..], rest);
      MapEltsCons(entries, rest);
      SkipStep(MapFrame, VisitMapElt, Trace(e.key) + Trace(e.value), tail, |entries| - 1, rest, MapElts(entries) + rest);
    } else {
      assert MapElts(entries) + rest == rest;
    }
  }

  /**
   * No trace is a proper prefix of another: where two values' calls are
   * followed by other calls, the same stream splits at the same place.
   */
  lemma SelfDelimiting(v: Value, w: Value, r1: seq<Event>, r2: seq<Event>)
    requires WellTyped(v) && WellTyped(w)
    requires Trace(v) + r1 == Trace(w) + r2
    ensures Trace(v) == Trace(w) && r1 == r2
  {
    SkipTrace(v, r1);
    SkipTrace(w, r2);
    assert |Trace(v)| == |Trace(w)|;
    assert Trace(v) == (Trace(v) + r1)[..|Trace(v)|];
    assert Trace(w) == (Trace(w) + r2)[..|Trace(w)|];
  }
}
