/**
 * What `#[derive(Serialize)]` decides about a declaration: the shape of a
 * struct's body and the dispatch arms of an enum. A derived value carries
 * its plan, which stands for the code generated for its type.
 */
module Plan {

  /** The body generated for a struct. */
  datatype StructShape =
    | UnitShape(typeName: string)                       // `visit_named_unit`
    | TupleShape(typeName: string, fields: nat)         // `visit_named_seq` over a tuple visitor
    | MapShape(typeName: string, keys: seq<string>)     // `visit_named_map` over a field visitor

  /** One arm of the `match *self` generated for an enum. */
  datatype Arm =
    | UnitArm(typeName: string, index: nat, variant: string)
    | SeqArm(typeName: string, index: nat, variant: string, fields: nat)
    | MapArm(typeName: string, index: nat, variant: string, keys: seq<string>)

  datatype Plan = StructPlan(shape: StructShape) | EnumPlan(arms: seq<Arm>)

  /** How many payload values a struct of this shape holds. */
  function ShapeArity(shape: StructShape): nat
  {
    match shape
    case UnitShape(_) => 0
    case TupleShape(_, n) => n
    case MapShape(_, keys) => |keys|
  }

  /** How many payload values a variant dispatched by this arm holds. */
  function ArmArity(arm: Arm): nat
  {
    match arm
    case UnitArm(_, _, _) => 0
    case SeqArm(_, _, _, n) => n
    case MapArm(_, _, _, keys) => |keys|
  }
}
