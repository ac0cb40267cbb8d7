/**
 * `#[derive(Serialize)]` of serde_codegen/src/ser.rs, reduced to the
 * decisions it makes about a declaration: which encoder entry point the
 * generated `serialize` calls, with which type name, variant index,
 * variant name and length hint, and which field keys its generated
 * `Visitor` hands out. The code it emits at run time is the pair of
 * visitor classes `Recorder.TupleFieldsVisitor` and
 * `Recorder.NamedFieldsVisitor`, driven by `Recorder.Serializer`.
 */
module Derive {
  import opened Protocol
  import opened Plan
  import opened Impls

  /**
   * A field of a struct or struct variant. `key` is the serialized name
   * the field attributes give a named field.
   */
  datatype Field = NamedField(name: string, key: string) | UnnamedField

  /** `TupleVariantKind` carries its arguments (only their number matters here). */
  datatype VariantKind = TupleVariantKind(args: nat) | StructVariantKind(fields: seq<Field>)

  datatype Variant = Variant(name: string, kind: VariantKind)

  datatype ItemKind =
    | ItemStruct(fields: seq<Field>)
    | ItemEnum(variants: seq<Variant>)
    | ItemOther

  datatype Item = Item(ident: string, node: ItemKind)

  /** What a `derive` attribute can be attached to. */
  datatype Annotatable = AnnotatedItem(item: Item) | AnnotatedTraitItem | AnnotatedImplItem

  datatype DeriveError =
    | NotAnItem                    // reported at the attribute; nothing is generated
    | NotStructOrEnum              // compiler bug: an item that is neither
    | MixedFields                  // compiler bug: a struct with named and unnamed fields
    | UnnamedFieldInStructVariant  // compiler bug: a struct variant with an unnamed field

  predicate AllNamed(fields: seq<Field>)
  {
    forall i :: 0 <= i < |fields| ==> fields[i].NamedField?
  }

  predicate AllUnnamed(fields: seq<Field>)
  {
    forall i :: 0 <= i < |fields| ==> fields[i].UnnamedField?
  }

  // ---------------------------------------------------------------------
  // Field classification (`serialize_item_struct`).

  /** The identifiers of the named fields, in declaration order. */
  function FieldNames(fields: seq<Field>): seq<string>
  {
    if fields == [] then []
    else
      var last := fields[|fields| - 1];
      FieldNames(fields[..|fields| - 1]) + (if last.NamedField? then [last.name] else [])
  }

  /** How many fields are unnamed. */
  function UnnamedCount(fields: seq<Field>): nat
  {
    if fields == [] then 0
    else UnnamedCount(fields[..|fields| - 1]) + (if fields[|fields| - 1].UnnamedField? then 1 else 0)
  }

  /**
   * Every field is counted once, as named or as unnamed: no named field
   * exactly when all are unnamed, no unnamed field exactly when all are named.
   */
  lemma {:induction false} ClassifyCounts(fields: seq<Field>)
    ensures |FieldNames(fields)| + UnnamedCount(fields) == |fields|
    ensures FieldNames(fields) == [] <==> AllUnnamed(fields)
    ensures UnnamedCount(fields) == 0 <==> AllNamed(fields)
  {
    if fields != [] {
      var init := fields[..|fields| - 1];
      ClassifyCounts(init);
      assert forall i :: 0 <= i < |init| ==> init[i] == fields[i];
    }
  }

  /** The keys of all-named fields, in declaration order. */
  function FieldKeys(fields: seq<Field>): (keys: seq<string>)
    requires AllNamed(fields)
    ensures |keys| == |fields|
    ensures forall i :: 0 <= i < |fields| ==> keys[i] == fields[i].key
  {
    seq(|fields|, i requires 0 <= i < |fields| => fields[i].key)
  }

  /**
   * The shape generated for a struct: unit without fields, tuple-like
   * when every field is unnamed, field-named when every field is named,
   * a compiler bug when both kinds occur.
   */
  function StructShapeOf(ident: string, fields: seq<Field>): (r: Result<StructShape, DeriveError>)
    ensures r.Ok? ==> r.value.typeName == ident && ShapeArity(r.value) == |fields|
    ensures (r.Ok? && r.value.UnitShape?) <==> fields == []
    ensures (r.Ok? && r.value.TupleShape?) <==> fields != [] && AllUnnamed(fields)
    ensures (r.Ok? && r.value.MapShape?) <==> fields != [] && AllNamed(fields)
    ensures r.Ok? && r.value.MapShape? ==>
      forall i :: 0 <= i < |fields| ==> fields[i].NamedField? && r.value.keys[i] == fields[i].key
    ensures r.Err? <==> !AllNamed(fields) && !AllUnnamed(fields)
    ensures r.Err? ==> r.error == MixedFields
  {
    ClassifyCounts(fields);
    var named := FieldNames(fields);
    var unnamed := UnnamedCount(fields);
    if named == [] && unnamed == 0 then Ok(UnitShape(ident))
    else if named == [] then Ok(TupleShape(ident, unnamed))
    else if unnamed == 0 then Ok(MapShape(ident, FieldKeys(fields)))
    else Err(MixedFields)
  }

  /**
   * `serialize_item_struct`: one pass over the fields collecting the
   * named ones and counting the unnamed ones, then the four-way choice.
   */
  method SerializeItemStruct(ident: string, fields: seq<Field>) returns (r: Result<StructShape, DeriveError>)
    ensures r == StructShapeOf(ident, fields)
  {
    var namedFields: seq<string> := [];
    var unnamedFields: nat := 0;
    for i := 0 to |fields|
      invariant namedFields == FieldNames(fields[..i])
      invariant unnamedFields == UnnamedCount(fields[..i])
    {
      assert fields[..i + 1][..i] == fields[..i];
      match fields[i] {
        case NamedField(name, _) =>
          namedFields := namedFields + [name];
        case UnnamedField =>
          unnamedFields := unnamedFields + 1;
      }
    }
    assert fields[..|fields|] == fields;
    ClassifyCounts(fields);
    if namedFields == [] && unnamedFields == 0 {
      r := Ok(UnitShape(ident));
    } else if namedFields == [] {
      r := Ok(TupleShape(ident, unnamedFields));
    } else if unnamedFields == 0 {
      r := Ok(MapShape(ident, FieldKeys(fields)));
    } else {
      r := Err(MixedFields);
    }
  }

  // ---------------------------------------------------------------------
  // Enums (`serialize_item_enum`, `serialize_variant`).

  /** A variant the generator accepts: a struct variant must have only named fields. */
  predicate Accepted(v: Variant)
  {
    v.kind.StructVariantKind? ==> AllNamed(v.kind.fields)
  }

  /** The arm of `match *self` generated for variant `v` at position `index`. */
  function SerializeVariant(ident: string, v: Variant, index: nat): (r: Result<Arm, DeriveError>)
    ensures r.Ok? <==> Accepted(v)
    ensures r.Ok? ==> DispatchesAs(ident, v, index, r.value)
    ensures r.Err? ==> r.error == UnnamedFieldInStructVariant
  {
    match v.kind
    case TupleVariantKind(args) =>
      if args == 0 then Ok(UnitArm(ident, index, v.name))
      else Ok(SeqArm(ident, index, v.name, args))
    case StructVariantKind(fields) =>
      if AllNamed(fields) then Ok(MapArm(ident, index, v.name, FieldKeys(fields)))
      else Err(UnnamedFieldInStructVariant)
  }

  /**
   * What the arm for variant `v` at position `index` must do: name the
   * type and the variant, carry the position, and dispatch on the variant's
   * kind (no arguments: unit; arguments: a tuple visitor over all of them;
   * fields: a field visitor with their keys in declaration order).
   */
  predicate DispatchesAs(ident: string, v: Variant, index: nat, arm: Arm)
  {
    && arm.typeName == ident
    && arm.index == index
    && arm.variant == v.name
    && match v.kind
       case TupleVariantKind(args) =>
         if args == 0 then arm.UnitArm? else arm.SeqArm? && arm.fields == args
       case StructVariantKind(fields) =>
         && arm.MapArm?
         && |arm.keys| == |fields|
         && forall i :: 0 <= i < |fields| ==> fields[i].NamedField? && arm.keys[i] == fields[i].key
  }

  /** The arms for `variants`, whose first one is declared at position `start`. */
  function ArmsFrom(ident: string, variants: seq<Variant>, start: nat): (r: Result<seq<Arm>, DeriveError>)
    ensures r.Ok? <==> forall i :: 0 <= i < |variants| ==> Accepted(variants[i])
    ensures r.Err? ==> r.error == UnnamedFieldInStructVariant
    ensures r.Ok? ==> |r.value| == |variants|
    ensures r.Ok? ==> forall i :: 0 <= i < |variants| ==> DispatchesAs(ident, variants[i], start + i, r.value[i])
    decreases |variants|
  {
    if variants == [] then Ok([])
    else
      var head := SerializeVariant(ident, variants[0], start);
      var tail := ArmsFrom(ident, variants[1..], start + 1);
      if head.Err? then Err(head.error)
      else if tail.Err? then Err(tail.error)
      else Ok([head.value] + tail.value)
  }

  /** `serialize_item_enum`: the variants numbered from zero in declaration order. */
  function SerializeItemEnum(ident: string, variants: seq<Variant>): (r: Result<seq<Arm>, DeriveError>)
    ensures r.Ok? <==> forall i :: 0 <= i < |variants| ==> Accepted(variants[i])
    ensures r.Err? ==> r.error == UnnamedFieldInStructVariant
    ensures r.Ok? ==> |r.value| == |variants|
    ensures r.Ok? ==> forall i :: 0 <= i < |variants| ==> DispatchesAs(ident, variants[i], i, r.value[i])
  {
    ArmsFrom(ident, variants, 0)
  }

  // ---------------------------------------------------------------------
  // The entry point (`expand_derive_serialize`).

  /** The plan derived for what the attribute is attached to. */
  function DerivePlan(a: Annotatable): (r: Result<Plan, DeriveError>)
    ensures r == Err(NotAnItem) <==> !a.AnnotatedItem?
    ensures r == Err(NotStructOrEnum) <==> a.AnnotatedItem? && a.item.node.ItemOther?
    ensures r.Ok? ==> a.AnnotatedItem? && (r.value.StructPlan? <==> a.item.node.ItemStruct?)
    ensures a.AnnotatedItem? && a.item.node.ItemStruct? ==>
      var shape := StructShapeOf(a.item.ident, a.item.node.fields);
      && (r.Ok? <==> shape.Ok?)
      && (r.Ok? ==> r.value == StructPlan(shape.value))
      && (r.Err? ==> r.error == MixedFields)
    ensures a.AnnotatedItem? && a.item.node.ItemEnum? ==>
      var arms := SerializeItemEnum(a.item.ident, a.item.node.variants);
      && (r.Ok? <==> forall i :: 0 <= i < |a.item.node.variants| ==> Accepted(a.item.node.variants[i]))
      && (r.Ok? ==> arms.Ok? && r.value == EnumPlan(arms.value))
      && (r.Err? ==> r.error == UnnamedFieldInStructVariant)
  {
    match a
    case AnnotatedItem(item) =>
      (match item.node
       case ItemStruct(fields) =>
         (match StructShapeOf(item.ident, fields)
          case Ok(shape) => Ok(StructPlan(shape))
          case Err(e) => Err(e))
       case ItemEnum(variants) =>
         (match SerializeItemEnum(item.ident, variants)
          case Ok(arms) => Ok(EnumPlan(arms))
          case Err(e) => Err(e))
       case ItemOther => Err(NotStructOrEnum))
    case _ => Err(NotAnItem)
  }

  /**
   * `expand_derive_serialize`: the attribute error for anything but an
   * item, then the plan of `DerivePlan`, whose contract says which plan a
   * struct or an enum gets and which declarations are rejected.
   */
  method ExpandDeriveSerialize(a: Annotatable) returns (r: Result<Plan, DeriveError>)
    ensures r == DerivePlan(a)
  {
    if !a.AnnotatedItem? {
      return Err(NotAnItem);
    }
    var item := a.item;
    match item.node {
      case ItemStruct(fields) =>
        var shape := SerializeItemStruct(item.ident, fields);
        r := if shape.Ok? then Ok(StructPlan(shape.value)) else Err(shape.error);
      case ItemEnum(variants) =>
        var arms := SerializeItemEnum(item.ident, variants);
        r := if arms.Ok? then Ok(EnumPlan(arms.value)) else Err(arms.error);
      case ItemOther =>
        r := Err(NotStructOrEnum);
    }
  }

  // ---------------------------------------------------------------------
  // What the generated code makes the encoder receive.

  /** How many payload values a variant holds. */
  function VariantArity(v: Variant): nat
  {
    match v.kind
    case TupleVariantKind(args) => args
    case StructVariantKind(fields) => |fields|
  }

  /**
   * A value of a derived struct: unit structs make one `visit_named_unit`
   * call with the type name; the others open with the type name and a
   * length hint equal to the number of declared fields, followed by one
   * `visit_tuple_elt` per field, or one `visit_named_map_elt` per field
   * carrying the field keys in declaration order.
   */
  lemma DerivedStructTrace(ident: string, fields: seq<Field>, fs: seq<Value>)
    requires StructShapeOf(ident, fields).Ok?
    requires |fs| == |fields| && AllWellTyped(fs)
    ensures WellTyped(Struct(StructShapeOf(ident, fields).value, fs))
    ensures fields == [] ==>
      Trace(Struct(StructShapeOf(ident, fields).value, fs)) == [VisitNamedUnit(ident)]
    ensures fields != [] && AllUnnamed(fields) ==>
      Trace(Struct(StructShapeOf(ident, fields).value, fs))
      == [VisitNamedSeq(ident, Some(|fields|))] + TupleElts(fs)
    ensures fields != [] && AllNamed(fields) ==>
      Trace(Struct(StructShapeOf(ident, fields).value, fs))
      == [VisitNamedMap(ident, Some(|fields|))] + NamedElts(FieldKeys(fields), fs)
  {
    var shape := StructShapeOf(ident, fields).value;
    if shape.MapShape? {
      assert shape.keys == FieldKeys(fields);
    }
  }

  /**
   * A value of a derived enum, holding the variant declared at position
   * `i`: its first call names the type, carries `i` as the variant index
   * and the variant's own name; a variant with arguments announces their
   * number and hands them out as `visit_tuple_elt` calls, a struct variant
   * announces its field count and hands out its field keys in declaration
   * order.
   */
  lemma DerivedVariantTrace(ident: string, variants: seq<Variant>, i: nat, fs: seq<Value>)
    requires SerializeItemEnum(ident, variants).Ok?
    requires i < |variants| && |fs| == VariantArity(variants[i]) && AllWellTyped(fs)
    ensures WellTyped(Enum(SerializeItemEnum(ident, variants).value, i, fs))
    ensures variants[i].kind == TupleVariantKind(0) ==>
      Trace(Enum(SerializeItemEnum(ident, variants).value, i, fs))
      == [VisitEnumUnit(ident, i, variants[i].name)]
    ensures variants[i].kind.TupleVariantKind? && variants[i].kind.args > 0 ==>
      Trace(Enum(SerializeItemEnum(ident, variants).value, i, fs))
      == [VisitEnumSeq(ident, i, variants[i].name, Some(|fs|))] + TupleElts(fs)
    ensures variants[i].kind.StructVariantKind? ==>
      && AllNamed(variants[i].kind.fields)
      && Trace(Enum(SerializeItemEnum(ident, variants).value, i, fs))
         == [VisitEnumMap(ident, i, variants[i].name, Some(|fs|))] + NamedElts(FieldKeys(variants[i].kind.fields), fs)
  {
    var arms := SerializeItemEnum(ident, variants).value;
    assert DispatchesAs(ident, variants[i], i, arms[i]);
    if variants[i].kind.StructVariantKind? {
      assert Accepted(variants[i]);
      assert arms[i].keys == FieldKeys(variants[i].kind.fields);
    }
  }

  /**
   * `#[derive(Serialize)] struct Point { x: i32, y: i32 }`, keys as declared:
   * one `visit_named_map` with hint 2, then `x` and `y` in declaration order.
   */
  lemma PointExample(x: int32, y: int32)
    ensures DerivePlan(AnnotatedItem(Item("Point", ItemStruct([NamedField("x", "x"), NamedField("y", "y")]))))
         == Ok(StructPlan(MapShape("Point", ["x", "y"])))
    ensures Trace(Struct(MapShape("Point", ["x", "y"]), [Scalar(I32(x)), Scalar(I32(y))]))
         == [VisitNamedMap("Point", Some(2)), VisitNamedMapElt("x"), VisitI32(x), VisitNamedMapElt("y"), VisitI32(y)]
  {
    var fields := [NamedField("x", "x"), NamedField("y", "y")];
    var fs := [Scalar(I32(x)), Scalar(I32(y))];
    assert AllNamed(fields);
    assert FieldKeys(fields) == ["x", "y"];
    DerivedStructTrace("Point", fields, fs);
    var keys := ["x", "y"];
    assert keys[1..] == ["y"] && fs[1..] == [fs[1]];
    assert NamedElts(["y"], [fs[1]]) == NamedMapElt("y", fs[1]) + NamedElts([], []);
    assert NamedMapElt("y", fs[1]) == [VisitNamedMapElt("y"), VisitI32(y)];
    assert NamedMapElt("x", fs[0]) == [VisitNamedMapElt("x"), VisitI32(x)];
  }
}
