/**
 * The built-in `Serialize` adapters of serde/src/ser/impls.rs, and the
 * derived ones, as one function: `Trace(v)` is the complete list of
 * encoder calls that serializing `v` makes when no call fails.
 *
 * Element calls (`visit_seq_elt`, `visit_map_elt`, ...) are recorded by
 * the encoder as one event followed by the calls the element's own
 * serialization makes.
 */
module Impls {
  import opened Protocol
  import opened Plan

  /** The containers built on `SeqIteratorVisitor`. */
  datatype SeqKind = Slice | Vec | Array | BTreeSet | HashSet

  /** The containers built on `MapIteratorVisitor`. */
  datatype MapKind = BTreeMap | HashMap

  /** The ownership-transparent wrappers `&T`, `&mut T`, `Box<T>`, `Rc<T>`, `Arc<T>`. */
  datatype Pointer = Ref | RefMut | Box | Rc | Arc

  datatype Entry = Entry(key: Value, value: Value)

  /**
   * A value of some serializable type. Collections hold their elements in
   * the order the container's iterator yields them. `Struct` and `Enum`
   * are values of derived types, carrying the plan generated for the type.
   */
  datatype Value =
    | Scalar(scalar: Scalar)
    | Str(str: string)
    | OwnedString(str: string)
    | Unit
    | Opt(opt: Option<Value>)
    | Seq(kind: SeqKind, elems: seq<Value>)
    | Tuple(elems: seq<Value>)
    | Map(mapKind: MapKind, entries: seq<Entry>)
    | Ptr(pointer: Pointer, target: Value)
    | Struct(shape: StructShape, fields: seq<Value>)
    | Enum(arms: seq<Arm>, tag: nat, fields: seq<Value>)

  predicate Distinct<T(==)>(s: seq<T>)
  {
    forall i, j :: 0 <= i < j < |s| ==> s[i] != s[j]
  }

  function Keys(entries: seq<Entry>): (ks: seq<Value>)
    ensures |ks| == |entries|
    ensures forall i :: 0 <= i < |entries| ==> ks[i] == entries[i].key
  {
    if entries == [] then [] else [entries[0].key] + Keys(entries[1..])
  }

  /**
   * `v` inhabits a Rust type that has a `Serialize` impl here: arrays have
   * at most 32 elements, tuples 1 to 12, sets hold no element twice, maps
   * no key twice, and a derived value has as many fields as its plan says.
   */
  ghost predicate WellTyped(v: Value)
    decreases v
  {
    match v
    case Opt(o) => o.Some? ==> WellTyped(o.value)
    case Seq(kind, es) =>
      && (kind == Array ==> |es| <= 32)
      && (kind == BTreeSet || kind == HashSet ==> Distinct(es))
      && (forall i :: 0 <= i < |es| ==> WellTyped(es[i]))
    case Tuple(es) =>
      && 1 <= |es| <= 12
      && (forall i :: 0 <= i < |es| ==> WellTyped(es[i]))
    case Map(_, entries) =>
      && Distinct(Keys(entries))
      && (forall i :: 0 <= i < |entries| ==> EntryWellTyped(entries[i]))
    case Ptr(_, target) => WellTyped(target)
    case Struct(shape, fs) =>
      && |fs| == ShapeArity(shape)
      && (forall i :: 0 <= i < |fs| ==> WellTyped(fs[i]))
    case Enum(arms, tag, fs) =>
      && tag < |arms|
      && |fs| == ArmArity(arms[tag])
      && (forall i :: 0 <= i < |fs| ==> WellTyped(fs[i]))
    case _ => true
  }

  ghost predicate EntryWellTyped(e: Entry)
    decreases e
  {
    WellTyped(e.key) && WellTyped(e.value)
  }

  ghost predicate AllWellTyped(es: seq<Value>)
  {
    forall i :: 0 <= i < |es| ==> WellTyped(es[i])
  }

  ghost predicate EntriesWellTyped(entries: seq<Entry>)
  {
    forall i :: 0 <= i < |entries| ==> EntryWellTyped(entries[i])
  }

  // ---------------------------------------------------------------------
  // Sizes: the termination measure of the mutually recursive serializer.
  // A forwarding adapter (`String`, `Vec`, wrappers) is one larger than
  // what it forwards to; a container is larger than the weight of its
  // elements.

  ghost function Size(v: Value): nat
    decreases v
  {
    match v
    case OwnedString(_) => 2
    case Opt(o) => if o.Some? then Size(o.value) + 1 else 1
    case Seq(kind, es) => if kind == Vec then SeqWeight(es) + 2 else SeqWeight(es) + 1
    case Tuple(es) => SeqWeight(es) + 1
    case Map(_, entries) => MapWeight(entries) + 1
    case Ptr(_, target) => Size(target) + 1
    case Struct(_, fs) => SeqWeight(fs) + 1
    case Enum(_, _, fs) => SeqWeight(fs) + 1
    case _ => 1
  }

  ghost function SeqWeight(es: seq<Value>): (w: nat)
    decreases es
    ensures es != [] ==> w > Size(es[0])
  {
    if es == [] then 0 else Size(es[0]) + 1 + SeqWeight(es[1..])
  }

  ghost function EntrySize(e: Entry): nat
    decreases e
  {
    Size(e.key) + Size(e.value)
  }

  ghost function MapWeight(entries: seq<Entry>): (w: nat)
    decreases entries
    ensures entries != [] ==> w > EntrySize(entries[0])
  {
    if entries == [] then 0 else EntrySize(entries[0]) + 1 + MapWeight(entries[1..])
  }

  // ---------------------------------------------------------------------
  // The adapters.

  /**
   * The encoder calls serializing `v` makes when none of them fails. Every
   * value makes at least one call, and its first call is the value's own
   * entry point, never an element call of an enclosing structure.
   */
  function Trace(v: Value): (t: seq<Event>)
    requires WellTyped(v)
    decreases Size(v), 0
    ensures t != []
    ensures !(t[0].VisitSeqElt? || t[0].VisitMapElt? || t[0].VisitTupleElt? || t[0].VisitNamedMapElt?)
  {
    match v
    case Scalar(s) => [ScalarEvent(s)]
    case Str(s) => [VisitStr(s)]
    case OwnedString(s) => Trace(Str(s))
    case Unit => [VisitUnit]
    case Opt(o) =>
      if o.Some? then SomeCall(o.value) else [VisitNone]
    case Seq(kind, es) =>
      if kind == Vec then Trace(Seq(Slice, es))
      else [VisitSeq(Some(|es|))] + SeqElts(es)
    case Tuple(es) => [VisitTuple(Some(|es|))] + SeqElts(es)
    case Map(_, entries) => [VisitMap(Some(|entries|))] + MapElts(entries)
    case Ptr(_, target) => Trace(target)
    case Struct(shape, fs) =>
      (match shape
       case UnitShape(name) => [VisitNamedUnit(name)]
       case TupleShape(name, n) => [VisitNamedSeq(name, Some(n))] + TupleElts(fs)
       case MapShape(name, keys) => [VisitNamedMap(name, Some(|keys|))] + NamedElts(keys, fs))
    case Enum(arms, tag, fs) =>
      (match arms[tag]
       case UnitArm(name, index, variant) => [VisitEnumUnit(name, index, variant)]
       case SeqArm(name, index, variant, n) =>
         [VisitEnumSeq(name, index, variant, Some(n))] + TupleElts(fs)
       case MapArm(name, index, variant, keys) =>
         [VisitEnumMap(name, index, variant, Some(|keys|))] + NamedElts(keys, fs))
  }

  /** `visit_some(v)`: one call, then the calls of `v` itself. */
  function SomeCall(v: Value): seq<Event>
    requires WellTyped(v)
    decreases Size(v), 1
  {
    [VisitSome] + Trace(v)
  }

  /** `visit_seq_elt(v)`. */
  function SeqElt(v: Value): seq<Event>
    requires WellTyped(v)
    decreases Size(v), 1
  {
    [VisitSeqElt] + Trace(v)
  }

  /** `visit_tuple_elt(v)`, made by generated tuple visitors. */
  function TupleElt(v: Value): seq<Event>
    requires WellTyped(v)
    decreases Size(v), 1
  {
    [VisitTupleElt] + Trace(v)
  }

  /** `visit_map_elt(key, value)`: one call for the pair, then the key's calls, then the value's. */
  function MapElt(e: Entry): seq<Event>
    requires EntryWellTyped(e)
    decreases EntrySize(e), 1
  {
    [VisitMapElt] + (Trace(e.key) + Trace(e.value))
  }

  /** `visit_named_map_elt(key, value)`, made by generated field visitors. */
  function NamedMapElt(key: string, v: Value): seq<Event>
    requires WellTyped(v)
    decreases Size(v), 1
  {
    [VisitNamedMapElt(key)] + Trace(v)
  }

  function SeqElts(es: seq<Value>): seq<Event>
    requires AllWellTyped(es)
    decreases SeqWeight(es), 2
  {
    if es == [] then [] else SeqElt(es[0]) + SeqElts(es[1..])
  }

  function TupleElts(es: seq<Value>): seq<Event>
    requires AllWellTyped(es)
    decreases SeqWeight(es), 2
  {
    if es == [] then [] else TupleElt(es[0]) + TupleElts(es[1..])
  }

  function MapElts(entries: seq<Entry>): seq<Event>
    requires EntriesWellTyped(entries)
    decreases MapWeight(entries), 2
  {
    if entries == [] then [] else MapElt(entries[0]) + MapElts(entries[1..])
  }

  function NamedElts(keys: seq<string>, es: seq<Value>): seq<Event>
    requires |keys| == |es| && AllWellTyped(es)
    decreases SeqWeight(es), 2
  {
    if es == [] then [] else NamedMapElt(keys[0], es[0]) + NamedElts(keys[1..], es[1..])
  }

  // ---------------------------------------------------------------------
  // Forwarding adapters.

  /** `v` behind a stack of pointers, outermost first: `Wrap([Box, Ref], v)` is a `Box<&T>`. */
  function Wrap(ps: seq<Pointer>, v: Value): (w: Value)
    ensures ps != [] ==> w.Ptr? && w.pointer == ps[0]
  {
    if ps == [] then v else Ptr(ps[0], Wrap(ps[1..], v))
  }

  /**
   * `&T`, `&mut T`, `Box<T>`, `Rc<T>` and `Arc<T>` add no call of their own:
   * any stack of them serializes exactly as the value at the bottom.
   */
  lemma {:induction false} Forwarding(ps: seq<Pointer>, v: Value)
    requires WellTyped(v)
    ensures WellTyped(Wrap(ps, v))
    ensures Trace(Wrap(ps, v)) == Trace(v)
  {
    if ps != [] {
      Forwarding(ps[1..], v);
    }
  }

  /** `String` serializes as its `str` slice, one `visit_str`; `Vec<T>` as its slice. */
  lemma OwnedForwarding(s: string, es: seq<Value>)
    requires AllWellTyped(es)
    ensures Trace(OwnedString(s)) == Trace(Str(s)) == [VisitStr(s)]
    ensures Trace(Seq(Vec, es)) == Trace(Seq(Slice, es)) == [VisitSeq(Some(|es|))] + SeqElts(es)
  {
  }
}
