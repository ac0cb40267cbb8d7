/**
 * The visitor protocol as executable objects: an event-recording encoder that
 * drives pull-only visitors to exhaustion, and the visitors themselves.
 *
 * `SeqIteratorVisitor`, `TupleVisitor` (the `TupleVisitor1..12` family)
 * and `MapIteratorVisitor` are those of serde/src/ser/impls.rs;
 * `TupleFieldsVisitor` and `NamedFieldsVisitor` are the `Visitor` structs
 * that serde_codegen/src/ser.rs generates for tuple-like and field-named
 * structs and enum variants.
 *
 * Every method is proved against `Impls.Trace`: whatever the value, the
 * encoder receives exactly `Sent(Trace(v), ...)`, the calls of `Trace(v)`
 * up to and including the first failing one, and the first failure is
 * what the whole serialization returns.
 */
module Recorder {
  import opened Protocol
  import opened Plan
  import opened Impls

  /** `try!` around an element call, then `Ok(Some(()))`. */
  function Pulled(o: Result<(), Error>): (r: Result<Option<()>, Error>)
    ensures r.Err? <==> o.Err?
    ensures o.Err? ==> r.error == o.error
    ensures r.Ok? ==> r.value == Some(())
  {
    match o
    case Ok(_) => Ok(Some(()))
    case Err(e) => Err(e)
  }

  lemma SeqEltsAt(es: seq<Value>, i: nat)
    requires i < |es| && AllWellTyped(es)
    ensures SeqElts(es[i..]) == SeqElt(es[i]) + SeqElts(es[i + 1..])
    ensures SeqWeight(es[i..]) > SeqWeight(es[i + 1..])
  {
    assert es[i..][1..] == es[i + 1..];
  }

  lemma TupleEltsAt(es: seq<Value>, i: nat)
    requires i < |es| && AllWellTyped(es)
    ensures TupleElts(es[i..]) == TupleElt(es[i]) + TupleElts(es[i + 1..])
    ensures SeqWeight(es[i..]) > SeqWeight(es[i + 1..])
  {
    assert es[i..][1..] == es[i + 1..];
  }

  lemma NamedEltsAt(keys: seq<string>, es: seq<Value>, i: nat)
    requires i < |es| == |keys| && AllWellTyped(es)
    ensures NamedElts(keys[i..], es[i..]) == NamedMapElt(keys[i], es[i]) + NamedElts(keys[i + 1..], es[i + 1..])
    ensures SeqWeight(es[i..]) > SeqWeight(es[i + 1..])
  {
    assert es[i..][1..] == es[i + 1..];
    assert keys[i..][1..] == keys[i + 1..];
  }

  /** Running `a`, then `b` only if `a` succeeded, sends what running `a + b` sends. */
  lemma Sequenced(log0: seq<Event>, log1: seq<Event>, log2: seq<Event>, a: seq<Event>, b: seq<Event>,
                  failAt: Option<nat>, r1: Result<(), Error>, r2: Result<(), Error>)
    requires log1 == log0 + Sent(a, |log0|, failAt) && r1 == Outcome(a, |log0|, failAt)
    requires r1.Err? ==> log2 == log1 && r2 == r1
    requires r1.Ok? ==> log2 == log1 + Sent(b, |log1|, failAt) && r2 == Outcome(b, |log1|, failAt)
    ensures log2 == log0 + Sent(a + b, |log0|, failAt)
    ensures r2 == Outcome(a + b, |log0|, failAt)
  {
    SentAppend(a, b, |log0|, failAt);
  }

  /**
   * The recording encoder. Every call it receives is appended to `log`;
   * the call whose index is `failAt` reports failure.
   */
  class Serializer {
    var log: seq<Event>
    const failAt: Option<nat>

    constructor (failAt: Option<nat>)
      ensures log == [] && this.failAt == failAt
    {
      log := [];
      this.failAt := failAt;
    }

    /** Receives one call. */
    method Call(e: Event) returns (r: Result<(), Error>)
      modifies this
      ensures log == old(log) + [e]
      ensures r == Outcome([e], |old(log)|, failAt)
    {
      r := if failAt == Some(|log|) then Err(SinkError(|log|)) else Ok(());
      log := log + [e];
    }

    /** `v.serialize(self)`: the adapter of `v`'s type. */
    method Serialize(v: Value) returns (r: Result<(), Error>)
      requires WellTyped(v)
      modifies this
      decreases Size(v), 0
      ensures log == old(log) + Sent(Trace(v), |old(log)|, failAt)
      ensures r == Outcome(Trace(v), |old(log)|, failAt)
    {
      match v
      case Scalar(s) =>
        r := Call(ScalarEvent(s));
      case Str(s) =>
        r := Call(VisitStr(s));
      case OwnedString(s) =>
        // `String` serializes its `str` slice.
        r := Serialize(Str(s));
      case Unit =>
        r := Call(VisitUnit);
      case Opt(o) =>
        if o.Some? {
          r := VisitSome(o.value);
        } else {
          r := Call(VisitNone);
        }
      case Seq(kind, es) =>
        if kind == Vec {
          // `Vec<T>` serializes its slice.
          r := Serialize(Seq(Slice, es));
        } else {
          // The hint is `self.len()`, or the type's length `N` for `[T; N]`.
          var visitor := new SeqIteratorVisitor(es, Some(|es|));
          r := VisitSeq(visitor);
        }
      case Tuple(es) =>
        var visitor := new TupleVisitor(es);
        r := VisitTuple(visitor);
      case Map(_, entries) =>
        var visitor := new MapIteratorVisitor(entries, Some(|entries|));
        r := VisitMap(visitor);
      case Ptr(_, target) =>
        r := Serialize(target);
      case Struct(shape, fs) =>
        match shape {
          case UnitShape(name) =>
            r := Call(VisitNamedUnit(name));
          case TupleShape(name, n) =>
            var visitor := new TupleFieldsVisitor(fs, n);
            r := VisitNamedSeq(name, visitor);
          case MapShape(name, keys) =>
            var visitor := new NamedFieldsVisitor(keys, fs);
            r := VisitNamedMap(name, visitor);
        }
      case Enum(arms, tag, fs) =>
        match arms[tag] {
          case UnitArm(name, index, variant) =>
            r := Call(VisitEnumUnit(name, index, variant));
          case SeqArm(name, index, variant, n) =>
            var visitor := new TupleFieldsVisitor(fs, n);
            r := VisitEnumSeq(name, index, variant, visitor);
          case MapArm(name, index, variant, keys) =>
            var visitor := new NamedFieldsVisitor(keys, fs);
            r := VisitEnumMap(name, index, variant, visitor);
        }
    }

    // ---------------------------------------------------------------
    // Element entry points: one call, then the element's own calls.

    method VisitSome(v: Value) returns (r: Result<(), Error>)
      requires WellTyped(v)
      modifies this
      decreases Size(v), 1
      ensures log == old(log) + Sent(SomeCall(v), |old(log)|, failAt)
      ensures r == Outcome(SomeCall(v), |old(log)|, failAt)
    {
      ghost var log0 := log;
      r := Call(Event.VisitSome);
      ghost var log1, r1 := log, r;
      if r.Ok? {
        r := Serialize(v);
      }
      Sequenced(log0, log1, log, [Event.VisitSome], Trace(v), failAt, r1, r);
    }

    method VisitSeqElt(v: Value) returns (r: Result<(), Error>)
      requires WellTyped(v)
      modifies this
      decreases Size(v), 1
      ensures log == old(log) + Sent(SeqElt(v), |old(log)|, failAt)
      ensures r == Outcome(SeqElt(v), |old(log)|, failAt)
    {
      ghost var log0 := log;
      r := Call(Event.VisitSeqElt);
      ghost var log1, r1 := log, r;
      if r.Ok? {
        r := Serialize(v);
      }
      Sequenced(log0, log1, log, [Event.VisitSeqElt], Trace(v), failAt, r1, r);
    }

    method VisitTupleElt(v: Value) returns (r: Result<(), Error>)
      requires WellTyped(v)
      modifies this
      decreases Size(v), 1
      ensures log == old(log) + Sent(TupleElt(v), |old(log)|, failAt)
      ensures r == Outcome(TupleElt(v), |old(log)|, failAt)
    {
      ghost var log0 := log;
      r := Call(Event.VisitTupleElt);
      ghost var log1, r1 := log, r;
      if r.Ok? {
        r := Serialize(v);
      }
      Sequenced(log0, log1, log, [Event.VisitTupleElt], Trace(v), failAt, r1, r);
    }

    /** Key and value travel in one call; the key's calls precede the value's. */
    method VisitMapElt(key: Value, value: Value) returns (r: Result<(), Error>)
      requires WellTyped(key) && WellTyped(value)
      modifies this
      decreases Size(key) + Size(value), 2
      ensures log == old(log) + Sent(MapElt(Entry(key, value)), |old(log)|, failAt)
      ensures r == Outcome(MapElt(Entry(key, value)), |old(log)|, failAt)
    {
      ghost var log0 := log;
      r := Call(Event.VisitMapElt);
      ghost var log1, r1 := log, r;
      if r.Ok? {
        r := SerializePair(key, value);
      }
      Sequenced(log0, log1, log, [Event.VisitMapElt], Trace(key) + Trace(value), failAt, r1, r);
    }

    /** The key, then, unless it failed, the value. */
    method SerializePair(key: Value, value: Value) returns (r: Result<(), Error>)
      requires WellTyped(key) && WellTyped(value)
      modifies this
      decreases Size(key) + Size(value), 1
      ensures log == old(log) + Sent(Trace(key) + Trace(value), |old(log)|, failAt)
      ensures r == Outcome(Trace(key) + Trace(value), |old(log)|, failAt)
    {
      ghost var log0 := log;
      r := Serialize(key);
      ghost var log1, r1 := log, r;
      if r.Ok? {
        r := Serialize(value);
      }
      Sequenced(log0, log1, log, Trace(key), Trace(value), failAt, r1, r);
    }

    method VisitNamedMapElt(key: string, v: Value) returns (r: Result<(), Error>)
      requires WellTyped(v)
      modifies this
      decreases Size(v), 1
      ensures log == old(log) + Sent(NamedMapElt(key, v), |old(log)|, failAt)
      ensures r == Outcome(NamedMapElt(key, v), |old(log)|, failAt)
    {
      ghost var log0 := log;
      r := Call(Event.VisitNamedMapElt(key));
      ghost var log1, r1 := log, r;
      if r.Ok? {
        r := Serialize(v);
      }
      Sequenced(log0, log1, log, [Event.VisitNamedMapElt(key)], Trace(v), failAt, r1, r);
    }

    // ---------------------------------------------------------------
    // Structural entry points: one call carrying the visitor's length
    // hint, then the visitor pulled until it reports exhaustion.

    method VisitSeq(visitor: SeqIteratorVisitor) returns (r: Result<(), Error>)
      requires visitor.Valid()
      modifies this, visitor
      decreases visitor.Weight(), 3
      ensures visitor.Valid() && (r.Ok? ==> visitor.Exhausted())
      ensures log == old(log) + Sent([Event.VisitSeq(visitor.len)] + old(visitor.pending), |old(log)|, failAt)
      ensures r == Outcome([Event.VisitSeq(visitor.len)] + old(visitor.pending), |old(log)|, failAt)
    {
      ghost var log0 := log;
      r := Call(Event.VisitSeq(visitor.Len()));
      ghost var log1, r1 := log, r;
      if r.Ok? {
        r := DriveSeq(visitor);
      }
      Sequenced(log0, log1, log, [Event.VisitSeq(visitor.len)], old(visitor.pending), failAt, r1, r);
    }

    method VisitTuple(visitor: TupleVisitor) returns (r: Result<(), Error>)
      requires visitor.Valid()
      modifies this, visitor
      decreases visitor.Weight(), 3
      ensures visitor.Valid() && (r.Ok? ==> visitor.Exhausted())
      ensures log == old(log) + Sent([Event.VisitTuple(visitor.Len())] + old(visitor.pending), |old(log)|, failAt)
      ensures r == Outcome([Event.VisitTuple(visitor.Len())] + old(visitor.pending), |old(log)|, failAt)
    {
      ghost var log0 := log;
      r := Call(Event.VisitTuple(visitor.Len()));
      ghost var log1, r1 := log, r;
      if r.Ok? {
        r := DriveTuple(visitor);
      }
      Sequenced(log0, log1, log, [Event.VisitTuple(visitor.Len())], old(visitor.pending), failAt, r1, r);
    }

    method VisitMap(visitor: MapIteratorVisitor) returns (r: Result<(), Error>)
      requires visitor.Valid()
      modifies this, visitor
      decreases visitor.Weight(), 3
      ensures visitor.Valid() && (r.Ok? ==> visitor.Exhausted())
      ensures log == old(log) + Sent([Event.VisitMap(visitor.len)] + old(visitor.pending), |old(log)|, failAt)
      ensures r == Outcome([Event.VisitMap(visitor.len)] + old(visitor.pending), |old(log)|, failAt)
    {
      ghost var log0 := log;
      r := Call(Event.VisitMap(visitor.Len()));
      ghost var log1, r1 := log, r;
      if r.Ok? {
        r := DriveMap(visitor);
      }
      Sequenced(log0, log1, log, [Event.VisitMap(visitor.len)], old(visitor.pending), failAt, r1, r);
    }

    method VisitNamedSeq(name: string, visitor: TupleFieldsVisitor) returns (r: Result<(), Error>)
      requires visitor.Valid()
      modifies this, visitor
      decreases visitor.Weight(), 3
      ensures visitor.Valid() && (r.Ok? ==> visitor.Exhausted())
      ensures log == old(log) + Sent([Event.VisitNamedSeq(name, visitor.Len())] + old(visitor.pending), |old(log)|, failAt)
      ensures r == Outcome([Event.VisitNamedSeq(name, visitor.Len())] + old(visitor.pending), |old(log)|, failAt)
    {
      ghost var log0 := log;
      r := Call(Event.VisitNamedSeq(name, visitor.Len()));
      ghost var log1, r1 := log, r;
      if r.Ok? {
        r := DriveTupleFields(visitor);
      }
      Sequenced(log0, log1, log, [Event.VisitNamedSeq(name, visitor.Len())], old(visitor.pending), failAt, r1, r);
    }

    method VisitEnumSeq(name: string, index: nat, variant: string, visitor: TupleFieldsVisitor)
      returns (r: Result<(), Error>)
      requires visitor.Valid()
      modifies this, visitor
      decreases visitor.Weight(), 3
      ensures visitor.Valid() && (r.Ok? ==> visitor.Exhausted())
      ensures log == old(log) + Sent([Event.VisitEnumSeq(name, index, variant, visitor.Len())] + old(visitor.pending), |old(log)|, failAt)
      ensures r == Outcome([Event.VisitEnumSeq(name, index, variant, visitor.Len())] + old(visitor.pending), |old(log)|, failAt)
    {
      ghost var log0 := log;
      r := Call(Event.VisitEnumSeq(name, index, variant, visitor.Len()));
      ghost var log1, r1 := log, r;
      if r.Ok? {
        r := DriveTupleFields(visitor);
      }
      Sequenced(log0, log1, log, [Event.VisitEnumSeq(name, index, variant, visitor.Len())], old(visitor.pending), failAt, r1, r);
    }

    method VisitNamedMap(name: string, visitor: NamedFieldsVisitor) returns (r: Result<(), Error>)
      requires visitor.Valid()
      modifies this, visitor
      decreases visitor.Weight(), 3
      ensures visitor.Valid() && (r.Ok? ==> visitor.Exhausted())
      ensures log == old(log) + Sent([Event.VisitNamedMap(name, visitor.Len())] + old(visitor.pending), |old(log)|, failAt)
      ensures r == Outcome([Event.VisitNamedMap(name, visitor.Len())] + old(visitor.pending), |old(log)|, failAt)
    {
      ghost var log0 := log;
      r := Call(Event.VisitNamedMap(name, visitor.Len()));
      ghost var log1, r1 := log, r;
      if r.Ok? {
        r := DriveNamedFields(visitor);
      }
      Sequenced(log0, log1, log, [Event.VisitNamedMap(name, visitor.Len())], old(visitor.pending), failAt, r1, r);
    }

    method VisitEnumMap(name: string, index: nat, variant: string, visitor: NamedFieldsVisitor)
      returns (r: Result<(), Error>)
      requires visitor.Valid()
      modifies this, visitor
      decreases visitor.Weight(), 3
      ensures visitor.Valid() && (r.Ok? ==> visitor.Exhausted())
      ensures log == old(log) + Sent([Event.VisitEnumMap(name, index, variant, visitor.Len())] + old(visitor.pending), |old(log)|, failAt)
      ensures r == Outcome([Event.VisitEnumMap(name, index, variant, visitor.Len())] + old(visitor.pending), |old(log)|, failAt)
    {
      ghost var log0 := log;
      r := Call(Event.VisitEnumMap(name, index, variant, visitor.Len()));
      ghost var log1, r1 := log, r;
      if r.Ok? {
        r := DriveNamedFields(visitor);
      }
      Sequenced(log0, log1, log, [Event.VisitEnumMap(name, index, variant, visitor.Len())], old(visitor.pending), failAt, r1, r);
    }

    // ---------------------------------------------------------------
    // The encoder's pull loop: call `visit` until it yields `None`, or
    // stop at the first failure and return it unchanged. Each pull is one
    // step of the recursion; the visitor's weight bounds the number of pulls.

    method DriveSeq(visitor: SeqIteratorVisitor) returns (r: Result<(), Error>)
      requires visitor.Valid()
      modifies this, visitor
      decreases visitor.Weight(), 2
      ensures visitor.Valid() && (r.Ok? ==> visitor.Exhausted())
      ensures log == old(log) + Sent(old(visitor.pending), |old(log)|, failAt)
      ensures r == Outcome(old(visitor.pending), |old(log)|, failAt)
    {
      ghost var log0 := log;
      var pulled;
      ghost var next;
      pulled, next := visitor.Visit(this);
      ghost var log1, r1, rest := log, Outcome(next, |log0|, failAt), visitor.pending;
      if pulled.Err? {
        r := Err(pulled.error);
      } else if pulled.value.None? {
        r := Ok(());
      } else {
        r := DriveSeq(visitor);
      }
      Sequenced(log0, log1, log, next, rest, failAt, r1, r);
    }

    method DriveTuple(visitor: TupleVisitor) returns (r: Result<(), Error>)
      requires visitor.Valid()
      modifies this, visitor
      decreases visitor.Weight(), 2
      ensures visitor.Valid() && (r.Ok? ==> visitor.Exhausted())
      ensures log == old(log) + Sent(old(visitor.pending), |old(log)|, failAt)
      ensures r == Outcome(old(visitor.pending), |old(log)|, failAt)
    {
      ghost var log0 := log;
      var pulled;
      ghost var next;
      pulled, next := visitor.Visit(this);
      ghost var log1, r1, rest := log, Outcome(next, |log0|, failAt), visitor.pending;
      if pulled.Err? {
        r := Err(pulled.error);
      } else if pulled.value.None? {
        r := Ok(());
      } else {
        r := DriveTuple(visitor);
      }
      Sequenced(log0, log1, log, next, rest, failAt, r1, r);
    }

    method DriveMap(visitor: MapIteratorVisitor) returns (r: Result<(), Error>)
      requires visitor.Valid()
      modifies this, visitor
      decreases visitor.Weight(), 2
      ensures visitor.Valid() && (r.Ok? ==> visitor.Exhausted())
      ensures log == old(log) + Sent(old(visitor.pending), |old(log)|, failAt)
      ensures r == Outcome(old(visitor.pending), |old(log)|, failAt)
    {
      ghost var log0 := log;
      var pulled;
      ghost var next;
      pulled, next := visitor.Visit(this);
      ghost var log1, r1, rest := log, Outcome(next, |log0|, failAt), visitor.pending;
      if pulled.Err? {
        r := Err(pulled.error);
      } else if pulled.value.None? {
        r := Ok(());
      } else {
        r := DriveMap(visitor);
      }
      Sequenced(log0, log1, log, next, rest, failAt, r1, r);
    }

    method DriveTupleFields(visitor: TupleFieldsVisitor) returns (r: Result<(), Error>)
      requires visitor.Valid()
      modifies this, visitor
      decreases visitor.Weight(), 2
      ensures visitor.Valid() && (r.Ok? ==> visitor.Exhausted())
      ensures log == old(log) + Sent(old(visitor.pending), |old(log)|, failAt)
      ensures r == Outcome(old(visitor.pending), |old(log)|, failAt)
    {
      ghost var log0 := log;
      var pulled;
      ghost var next;
      pulled, next := visitor.Visit(this);
      ghost var log1, r1, rest := log, Outcome(next, |log0|, failAt), visitor.pending;
      if pulled.Err? {
        r := Err(pulled.error);
      } else if pulled.value.None? {
        r := Ok(());
      } else {
        r := DriveTupleFields(visitor);
      }
      Sequenced(log0, log1, log, next, rest, failAt, r1, r);
    }

    method DriveNamedFields(visitor: NamedFieldsVisitor) returns (r: Result<(), Error>)
      requires visitor.Valid()
      modifies this, visitor
      decreases visitor.Weight(), 2
      ensures visitor.Valid() && (r.Ok? ==> visitor.Exhausted())
      ensures log == old(log) + Sent(old(visitor.pending), |old(log)|, failAt)
      ensures r == Outcome(old(visitor.pending), |old(log)|, failAt)
    {
      ghost var log0 := log;
      var pulled;
      ghost var next;
      pulled, next := visitor.Visit(this);
      ghost var log1, r1, rest := log, Outcome(next, |log0|, failAt), visitor.pending;
      if pulled.Err? {
        r := Err(pulled.error);
      } else if pulled.value.None? {
        r := Ok(());
      } else {
        r := DriveNamedFields(visitor);
      }
      Sequenced(log0, log1, log, next, rest, failAt, r1, r);
    }
  }

  /**
   * `SeqIteratorVisitor`: a forward-only cursor over the elements an
   * iterator has yet to yield, and the length hint it was built with.
   * `pending` is the ghost record of the calls the remaining pulls make.
   */
  class SeqIteratorVisitor {
    var iter: seq<Value>
    const len: Option<nat>
    ghost var pending: seq<Event>

    ghost predicate Valid()
      reads this
    {
      && AllWellTyped(iter)
      && pending == SeqElts(iter)
      && (Exhausted() ==> pending == [])
    }

    predicate Exhausted()
      reads this
    {
      iter == []
    }

    /** How many more pulls will yield an element. */
    ghost function Remaining(): (n: nat)
      reads this
      requires Valid()
      ensures n == 0 <==> Exhausted()
    {
      |iter|
    }

    ghost function Weight(): nat
      reads this
    {
      SeqWeight(iter)
    }

    constructor (iter: seq<Value>, len: Option<nat>)
      requires AllWellTyped(iter)
      ensures Valid() && this.iter == iter && this.len == len
      ensures pending == SeqElts(iter) && Remaining() == |iter|
    {
      this.iter := iter;
      this.len := len;
      pending := SeqElts(iter);
    }

    /** The hint given at construction. */
    function Len(): Option<nat>
    {
      len
    }

    /**
     * Takes the next element, if any, and hands it to `visit_seq_elt`;
     * the element is consumed even when that call fails. `next` is the
     * calls this pull makes.
     */
    method Visit(ser: Serializer) returns (r: Result<Option<()>, Error>, ghost next: seq<Event>)
      requires Valid()
      modifies this, ser
      decreases Weight(), 0
      ensures Valid()
      ensures old(pending) == next + pending
      ensures ser.log == old(ser.log) + Sent(next, |old(ser.log)|, ser.failAt)
      ensures old(Exhausted()) ==> iter == old(iter) && next == [] && r == Ok(None)
      ensures !old(Exhausted()) ==>
        && iter == old(iter)[1..]
        && next == SeqElt(old(iter)[0])
        && Weight() < old(Weight())
        && Remaining() == old(Remaining()) - 1
        && r == Pulled(Outcome(next, |old(ser.log)|, ser.failAt))
    {
      if iter == [] {
        return Ok(None), [];
      }
      var value := iter[0];
      next := SeqElt(value);
      iter := iter[1..];
      pending := SeqElts(iter);
      var o := ser.VisitSeqElt(value);
      r := Pulled(o);
    }
  }

  /**
   * `TupleVisitor1` .. `TupleVisitor12`, one class for the whole family:
   * the arity is `|tuple|`, and `state` counts the slots already pulled.
   */
  class TupleVisitor {
    const tuple: seq<Value>
    var state: nat
    ghost var pending: seq<Event>

    ghost predicate Valid()
      reads this
    {
      && 1 <= |tuple| <= 12
      && state <= |tuple|
      && AllWellTyped(tuple)
      && pending == SeqElts(tuple[state..])
      && (Exhausted() ==> pending == [])
    }

    predicate Exhausted()
      reads this
    {
      state >= |tuple|
    }

    /** How many more pulls will yield an element. */
    ghost function Remaining(): (n: nat)
      reads this
      requires Valid()
      ensures n == 0 <==> Exhausted()
    {
      |tuple| - state
    }

    ghost function Weight(): nat
      reads this
    {
      if state <= |tuple| then SeqWeight(tuple[state..]) else 0
    }

    constructor (tuple: seq<Value>)
      requires 1 <= |tuple| <= 12 && AllWellTyped(tuple)
      ensures Valid() && this.tuple == tuple && state == 0
      ensures pending == SeqElts(tuple) && Len() == Some(Remaining())
    {
      this.tuple := tuple;
      state := 0;
      pending := SeqElts(tuple);
      assert tuple[0..] == tuple;
    }

    function Len(): Option<nat>
    {
      Some(|tuple|)
    }

    /** At `state = i < N`: `state` becomes `i + 1`, then slot `i` goes to `visit_seq_elt`. */
    method Visit(ser: Serializer) returns (r: Result<Option<()>, Error>, ghost next: seq<Event>)
      requires Valid()
      modifies this, ser
      decreases Weight(), 0
      ensures Valid()
      ensures old(pending) == next + pending
      ensures ser.log == old(ser.log) + Sent(next, |old(ser.log)|, ser.failAt)
      ensures old(Exhausted()) ==> state == old(state) && next == [] && r == Ok(None)
      ensures !old(Exhausted()) ==>
        && state == old(state) + 1
        && next == SeqElt(tuple[old(state)])
        && Weight() < old(Weight())
        && Remaining() == old(Remaining()) - 1
        && r == Pulled(Outcome(next, |old(ser.log)|, ser.failAt))
    {
      if state < |tuple| {
        var i := state;
        SeqEltsAt(tuple, i);
        next := SeqElt(tuple[i]);
        state := state + 1;
        pending := SeqElts(tuple[state..]);
        var o := ser.VisitSeqElt(tuple[i]);
        r := Pulled(o);
      } else {
        r, next := Ok(None), [];
      }
    }
  }

  /** `MapIteratorVisitor`: like `SeqIteratorVisitor`, over key/value pairs. */
  class MapIteratorVisitor {
    var iter: seq<Entry>
    const len: Option<nat>
    ghost var pending: seq<Event>

    ghost predicate Valid()
      reads this
    {
      && EntriesWellTyped(iter)
      && pending == MapElts(iter)
      && (Exhausted() ==> pending == [])
    }

    predicate Exhausted()
      reads this
    {
      iter == []
    }

    /** How many more pulls will yield an element. */
    ghost function Remaining(): (n: nat)
      reads this
      requires Valid()
      ensures n == 0 <==> Exhausted()
    {
      |iter|
    }

    ghost function Weight(): nat
      reads this
    {
      MapWeight(iter)
    }

    constructor (iter: seq<Entry>, len: Option<nat>)
      requires EntriesWellTyped(iter)
      ensures Valid() && this.iter == iter && this.len == len
      ensures pending == MapElts(iter) && Remaining() == |iter|
    {
      this.iter := iter;
      this.len := len;
      pending := MapElts(iter);
    }

    function Len(): Option<nat>
    {
      len
    }

    /** Takes the next pair, if any, and hands key and value together to `visit_map_elt`. */
    method Visit(ser: Serializer) returns (r: Result<Option<()>, Error>, ghost next: seq<Event>)
      requires Valid()
      modifies this, ser
      decreases Weight(), 0
      ensures Valid()
      ensures old(pending) == next + pending
      ensures ser.log == old(ser.log) + Sent(next, |old(ser.log)|, ser.failAt)
      ensures old(Exhausted()) ==> iter == old(iter) && next == [] && r == Ok(None)
      ensures !old(Exhausted()) ==>
        && iter == old(iter)[1..]
        && next == MapElt(old(iter)[0])
        && Weight() < old(Weight())
        && Remaining() == old(Remaining()) - 1
        && r == Pulled(Outcome(next, |old(ser.log)|, ser.failAt))
    {
      if iter == [] {
        return Ok(None), [];
      }
      var entry := iter[0];
      next := MapElt(entry);
      iter := iter[1..];
      pending := MapElts(iter);
      var o := ser.VisitMapElt(entry.key, entry.value);
      r := Pulled(o);
    }
  }

  /**
   * The `Visitor` generated for a tuple-like struct or tuple variant: one
   * arm per field index below `fields`, each emitting `visit_tuple_elt`.
   */
  class TupleFieldsVisitor {
    var state: nat
    const value: seq<Value>
    const fields: nat
    ghost var pending: seq<Event>

    ghost predicate Valid()
      reads this
    {
      && |value| == fields
      && state <= fields
      && AllWellTyped(value)
      && pending == TupleElts(value[state..])
      && (Exhausted() ==> pending == [])
    }

    predicate Exhausted()
      reads this
    {
      state >= fields
    }

    /** How many more pulls will yield an element. */
    ghost function Remaining(): (n: nat)
      reads this
      requires Valid()
      ensures n == 0 <==> Exhausted()
    {
      fields - state
    }

    ghost function Weight(): nat
      reads this
    {
      if state <= |value| then SeqWeight(value[state..]) else 0
    }

    /** `Visitor { value, state: 0, .. }`. */
    constructor (value: seq<Value>, fields: nat)
      requires |value| == fields && AllWellTyped(value)
      ensures Valid() && this.value == value && this.fields == fields && state == 0
      ensures pending == TupleElts(value) && Len() == Some(Remaining())
    {
      this.value := value;
      this.fields := fields;
      state := 0;
      pending := TupleElts(value);
      assert value[0..] == value;
    }

    function Len(): Option<nat>
    {
      Some(fields)
    }

    /** At `state = i < fields`: `state` becomes `i + 1`, then field `i` goes to `visit_tuple_elt`. */
    method Visit(ser: Serializer) returns (r: Result<Option<()>, Error>, ghost next: seq<Event>)
      requires Valid()
      modifies this, ser
      decreases Weight(), 0
      ensures Valid()
      ensures old(pending) == next + pending
      ensures ser.log == old(ser.log) + Sent(next, |old(ser.log)|, ser.failAt)
      ensures old(Exhausted()) ==> state == old(state) && next == [] && r == Ok(None)
      ensures !old(Exhausted()) ==>
        && state == old(state) + 1
        && next == TupleElt(value[old(state)])
        && Weight() < old(Weight())
        && Remaining() == old(Remaining()) - 1
        && r == Pulled(Outcome(next, |old(ser.log)|, ser.failAt))
    {
      if state < fields {
        var i := state;
        TupleEltsAt(value, i);
        next := TupleElt(value[i]);
        state := state + 1;
        pending := TupleElts(value[state..]);
        var o := ser.VisitTupleElt(value[i]);
        r := Pulled(o);
      } else {
        r, next := Ok(None), [];
      }
    }
  }

  /**
   * The `Visitor` generated for a field-named struct or struct variant:
   * arm `i` emits `visit_named_map_elt(key_i, value_i)`.
   */
  class NamedFieldsVisitor {
    var state: nat
    const keys: seq<string>
    const value: seq<Value>
    ghost var pending: seq<Event>

    ghost predicate Valid()
      reads this
    {
      && |value| == |keys|
      && state <= |keys|
      && AllWellTyped(value)
      && pending == NamedElts(keys[state..], value[state..])
      && (Exhausted() ==> pending == [])
    }

    predicate Exhausted()
      reads this
    {
      state >= |keys|
    }

    /** How many more pulls will yield an element. */
    ghost function Remaining(): (n: nat)
      reads this
      requires Valid()
      ensures n == 0 <==> Exhausted()
    {
      |keys| - state
    }

    ghost function Weight(): nat
      reads this
    {
      if state <= |value| then SeqWeight(value[state..]) else 0
    }

    /** `Visitor { value, state: 0, .. }`. */
    constructor (keys: seq<string>, value: seq<Value>)
      requires |value| == |keys| && AllWellTyped(value)
      ensures Valid() && this.keys == keys && this.value == value && state == 0
      ensures pending == NamedElts(keys, value) && Len() == Some(Remaining())
    {
      this.keys := keys;
      this.value := value;
      state := 0;
      pending := NamedElts(keys, value);
      assert keys[0..] == keys && value[0..] == value;
    }

    /** `Some(struct_def.fields.len())`. */
    function Len(): Option<nat>
    {
      Some(|keys|)
    }

    /** At `state = i < N`: `state` becomes `i + 1`, then key `i` and field `i` go to `visit_named_map_elt`. */
    method Visit(ser: Serializer) returns (r: Result<Option<()>, Error>, ghost next: seq<Event>)
      requires Valid()
      modifies this, ser
      decreases Weight(), 0
      ensures Valid()
      ensures old(pending) == next + pending
      ensures ser.log == old(ser.log) + Sent(next, |old(ser.log)|, ser.failAt)
      ensures old(Exhausted()) ==> state == old(state) && next == [] && r == Ok(None)
      ensures !old(Exhausted()) ==>
        && state == old(state) + 1
        && next == NamedMapElt(keys[old(state)], value[old(state)])
        && Weight() < old(Weight())
        && Remaining() == old(Remaining()) - 1
        && r == Pulled(Outcome(next, |old(ser.log)|, ser.failAt))
    {
      if state < |keys| {
        var i := state;
        NamedEltsAt(keys, value, i);
        next := NamedMapElt(keys[i], value[i]);
        state := state + 1;
        pending := NamedElts(keys[state..], value[state..]);
        var o := ser.VisitNamedMapElt(keys[i], value[i]);
        r := Pulled(o);
      } else {
        r, next := Ok(None), [];
      }
    }
  }
}
