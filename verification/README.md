# serde serialization protocol: a Dafny model

This project models how a value reaches an encoder in serde's early
serialization protocol. It covers two parts:

- **Built-in adapters.** These are the `Serialize` impls of
  `serde/src/ser/impls.rs`:
  - primitives, `str` and `String`, `Option`, `()`;
  - slices, arrays, `Vec`, `BTreeSet` and `HashSet`, over `SeqIteratorVisitor`;
  - tuples of 1 to 12 elements, over `TupleVisitor1..12`;
  - `BTreeMap` and `HashMap`, over `MapIteratorVisitor`;
  - the forwarding impls for `&T`, `&mut T`, `Box<T>`, `Rc<T>` and `Arc<T>`.
- **`#[derive(Serialize)]`.** This is `serde_codegen/src/ser.rs`. The model
  covers the decisions the generator makes about a struct or enum, and the
  run-time behaviour of the `Visitor` state machines it emits.

The model has four layers:

- **`Impls.Trace(v)`** is the reference. It is the complete list of encoder
  calls (`Protocol.Event`, one constructor per `visit_*` entry point)
  that serializing `v` makes when no call fails.
- **`Recorder.Serializer`** is a recording encoder. It appends every call it
  receives to `log`. It can be told to fail at call `k`: that call is
  recorded and reports an error.
- **The visitor classes** are `SeqIteratorVisitor`, `TupleVisitor`,
  `MapIteratorVisitor`, `TupleFieldsVisitor` and `NamedFieldsVisitor`. They
  keep the source's mutable cursor or `state` counter. Their `Visit` method
  returns `Ok(None)`, `Ok(Some(()))` or the encoder's error, unchanged.
- **Proof of each method against `Trace`.** The encoder receives exactly the
  calls of `Trace(v)` up to and including the first failing one. That
  failure is what the whole serialization returns, and no call follows it.

`Derive` computes the plan that the generated code follows:
- a struct is unit, tuple-like or field-named;
- each enum variant gets an arm carrying its declaration index and name.

Derived values carry their plan, and their traces are stated in terms of
the declaration.

`Reader` proves that the length hints make every trace self-delimiting.

## Model

| member | source | states |
|---|---|---|
| Protocol.ScalarEvent | serde/src/ser/impls.rs:16-42 | each primitive makes one call of its own kind carrying the same value; the call reads back to the primitive |
| Protocol.ScalarEventInjective | serde/src/ser/impls.rs:29-42 | two primitives make the same call exactly when they are equal |
| Protocol.ScalarOfInverse | serde/src/ser/impls.rs:29-42 | every primitive call is the call of the primitive it reads back to |
| Protocol.Sent | serde/src/ser/impls.rs:107 | what an encoder failing at call `k` receives is a prefix of the full trace, ending at call `k`; the whole trace when `k` lies outside it |
| Protocol.Outcome | serde/src/ser/impls.rs:107 | the serialization fails exactly when the failing call lies within the trace, and then with that call's error unchanged (`try!`) |
| Protocol.SentAppend | serde/src/ser/impls.rs:107 | after a failure in the first part no call of the second part is made and the error is kept; otherwise the second part follows at the next call index |
| Impls.Trace | serde/src/ser/impls.rs:16-519 | the calls every adapter makes for a value when none fails: one call for a primitive, `str`, `()` or `None`; `visit_some` then the inner value; a structural call with the exact `Some(len)` hint followed by one element call per element in iterator order; wrappers, `String` and `Vec` forward; every trace is non-empty and opens with the value's own entry call, never an element call |
| Impls.WellTyped | serde/src/ser/impls.rs:133-389 | which values have an impl: arrays of at most 32 elements (`array_impls!(0..32)`), tuples of 1 to 12 (`tuple_impls!`), sets without repeated elements, maps without repeated keys, derived values with as many fields as their plan |
| Impls.Forwarding | serde/src/ser/impls.rs:476-519 | any stack of `&`, `&mut`, `Box`, `Rc`, `Arc` around a value serializes exactly as the value itself |
| Impls.OwnedForwarding | serde/src/ser/impls.rs:55-62 | `String` makes the one `visit_str` call of its `str`; `Vec` makes the calls of its slice: `visit_seq` with hint `Some(len)`, then one `visit_seq_elt` per element in order |
| Recorder.Pulled | serde/src/ser/impls.rs:105-111 | a pull that handed out an element returns `Ok(Some(()))` on success and the element call's error unchanged on failure |
| Recorder.Serializer.Serialize | serde/src/ser/impls.rs:16-519 | for every well-typed value, the encoder receives `Trace(v)` cut at the failing call, and the result is the failure or success of that trace |
| Recorder.Serializer.VisitSome | serde/src/ser/impls.rs:66-76 | `visit_some`, then the calls of the value inside, unless `visit_some` failed |
| Recorder.Serializer.VisitSeqElt | serde/src/ser/impls.rs:107 | one `visit_seq_elt` call, then the element's own calls, cut at the failing call |
| Recorder.Serializer.VisitTupleElt | serde_codegen/src/ser.rs:487 | one `visit_tuple_elt` call, then the field's own calls, cut at the failing call |
| Recorder.Serializer.VisitMapElt | serde/src/ser/impls.rs:421 | one combined `visit_map_elt` call per pair, then the key's calls, then the value's; never key and value as separate elements |
| Recorder.Serializer.SerializePair | serde/src/ser/impls.rs:421 | the key's calls, then the value's; a failing key suppresses the value |
| Recorder.Serializer.VisitNamedMapElt | serde_codegen/src/ser.rs:570-573 | one `visit_named_map_elt(key)` call carrying the field key, then the field's own calls |
| Recorder.Serializer.VisitSeq | serde/src/ser/impls.rs:129 | `visit_seq` carrying the visitor's `len()`, then every pending pull, cut at the failing call; on success the visitor is exhausted |
| Recorder.Serializer.VisitTuple | serde/src/ser/impls.rs:279 | `visit_tuple` carrying `Some(N)`, then the pulls of all N slots |
| Recorder.Serializer.VisitMap | serde/src/ser/impls.rs:444 | `visit_map` carrying the visitor's `len()`, then one element per pair |
| Recorder.Serializer.VisitNamedSeq | serde_codegen/src/ser.rs:197-201 | `visit_named_seq(type name, Some(n))`, then the generated tuple visitor's pulls |
| Recorder.Serializer.VisitEnumSeq | serde_codegen/src/ser.rs:405-409 | `visit_enum_seq(type, index, variant, Some(n))`, then the tuple visitor's pulls |
| Recorder.Serializer.VisitNamedMap | serde_codegen/src/ser.rs:229-233 | `visit_named_map(type name, Some(n))`, then the field visitor's pulls |
| Recorder.Serializer.VisitEnumMap | serde_codegen/src/ser.rs:462-466 | `visit_enum_map(type, index, variant, Some(n))`, then the field visitor's pulls |
| Recorder.Serializer.DriveSeq | serde/src/ser/impls.rs:102-112 | pulling until `None` sends exactly the pending element calls and stops at the first failure, returning it unchanged; success leaves the cursor exhausted |
| Recorder.Serializer.DriveTuple | serde/src/ser/impls.rs:253-267 | the same for a tuple visitor |
| Recorder.Serializer.DriveMap | serde/src/ser/impls.rs:416-426 | the same for a map cursor |
| Recorder.Serializer.DriveTupleFields | serde_codegen/src/ser.rs:526-533 | the same for the generated tuple visitor |
| Recorder.Serializer.DriveNamedFields | serde_codegen/src/ser.rs:615-622 | the same for the generated field visitor |
| Recorder.SeqIteratorVisitor.constructor | serde/src/ser/impls.rs:89-94 | keeps the iterator and the hint as given; exactly as many pulls as elements will yield one |
| Recorder.SeqIteratorVisitor.Remaining | serde/src/ser/impls.rs:105-110 | the number of pulls still to yield an element is zero exactly when the cursor is exhausted |
| Recorder.SeqIteratorVisitor.Visit | serde/src/ser/impls.rs:102-112 | with an element left: consumes it, makes one `visit_seq_elt` call (consumed even if the call fails) and returns `Some` or the error; when exhausted: no call, `Ok(None)`, cursor unchanged |
| Recorder.TupleVisitor.constructor | serde/src/ser/impls.rs:242-247 | `state` starts at 0 and `len()` equals the number of remaining slots, N |
| Recorder.TupleVisitor.Remaining | serde/src/ser/impls.rs:256-266 | N minus `state`; zero exactly when the visitor is exhausted |
| Recorder.TupleVisitor.Visit | serde/src/ser/impls.rs:253-267 | at `state = i < N`: `state` becomes `i + 1` whether or not the call fails, and slot `i` goes to `visit_seq_elt`; at `state >= N`: no call, `Ok(None)`, `state` unchanged; `state <= N` is kept |
| Recorder.MapIteratorVisitor.constructor | serde/src/ser/impls.rs:402-407 | keeps the iterator and the hint as given; exactly as many pulls as pairs will yield one |
| Recorder.MapIteratorVisitor.Remaining | serde/src/ser/impls.rs:419-424 | zero exactly when the cursor is exhausted |
| Recorder.MapIteratorVisitor.Visit | serde/src/ser/impls.rs:416-426 | with a pair left: consumes it and hands key and value together to one `visit_map_elt`; when exhausted: no call, `Ok(None)` |
| Recorder.TupleFieldsVisitor.constructor | serde_codegen/src/ser.rs:197-201 | the generated tuple visitor starts at `state: 0`, with `len() == Some(n)` |
| Recorder.TupleFieldsVisitor.Remaining | serde_codegen/src/ser.rs:529-532 | zero exactly when `state` has passed the last field |
| Recorder.TupleFieldsVisitor.Visit | serde_codegen/src/ser.rs:478-492 | at `state = i < n`: increments `state` first, then field `i` goes to `visit_tuple_elt`; otherwise no call and `Ok(None)` |
| Recorder.NamedFieldsVisitor.constructor | serde_codegen/src/ser.rs:229-233 | the generated field visitor starts at `state: 0`, with `len() == Some(fields.len())` |
| Recorder.NamedFieldsVisitor.Remaining | serde_codegen/src/ser.rs:618-621 | zero exactly when `state` has passed the last field |
| Recorder.NamedFieldsVisitor.Visit | serde_codegen/src/ser.rs:559-580 | at `state = i`: increments `state` first, then `visit_named_map_elt(key_i, value_i)`, in declaration order; past the last field, no call and `Ok(None)` |
| Derive.ClassifyCounts | serde_codegen/src/ser.rs:120-128 | every field is counted once as named or unnamed; no named field exactly when all are unnamed, no unnamed field exactly when all are named |
| Derive.FieldKeys | serde_codegen/src/ser.rs:559-563 | one key per field, in declaration order |
| Derive.StructShapeOf | serde_codegen/src/ser.rs:130-162 | zero fields gives the unit shape; only unnamed fields give the tuple shape with that count; only named fields give the named shape with their keys in order; both kinds give the mixed-fields error; the type name is the struct's |
| Derive.SerializeItemStruct | serde_codegen/src/ser.rs:112-163 | the collecting loop and the four-way match compute exactly `StructShapeOf` |
| Derive.SerializeVariant | serde_codegen/src/ser.rs:267-359 | a variant is rejected, with the unnamed-field error, exactly when it is a struct variant with an unnamed field; otherwise the arm names the type, carries `variant_index` and the variant's own name, and dispatches on its kind: no arguments gives the unit arm, arguments a tuple arm with their count, fields a map arm with their keys in declaration order |
| Derive.ArmsFrom | serde_codegen/src/ser.rs:245-258 | one arm per variant, in order, the `i`-th numbered `start + i`; an error exactly when some variant is rejected |
| Derive.SerializeItemEnum | serde_codegen/src/ser.rs:237-265 | the arm for the variant at position `i` carries index `i`, the type name and the variant's own name, and dispatches on its kind (unit, tuple with its argument count, struct with its keys); the enum is rejected exactly when some variant is |
| Derive.DerivePlan | serde_codegen/src/ser.rs:25-41 | a non-item gets the attribute error; an item that is neither struct nor enum is the compiler-bug error; a struct gets the plan of its classified shape, or the mixed-fields error; an enum gets its numbered arms, or is rejected exactly when some variant has an unnamed field |
| Derive.ExpandDeriveSerialize | serde_codegen/src/ser.rs:18-41 | the entry point produces exactly the plan or error of `DerivePlan`, and so the struct shape, enum arms and rejections it states |
| Derive.DerivedStructTrace | serde_codegen/src/ser.rs:165-235 | unit struct: one `visit_named_unit(name)`; tuple struct: `visit_named_seq(name, Some(n))` then one `visit_tuple_elt` per field; named struct: `visit_named_map(name, Some(n))` then `visit_named_map_elt(key_i)` per field in declaration order |
| Derive.DerivedVariantTrace | serde_codegen/src/ser.rs:280-357 | the variant at position `i` makes `visit_enum_unit` / `visit_enum_seq` / `visit_enum_map` with the type name, `i` and its own name, and for payloads the same element calls as a struct |
| Derive.PointExample | serde_codegen/src/ser.rs:205-235 | `struct Point { x: i32, y: i32 }` derives the named plan with keys `x`, `y` and serializes as `visit_named_map("Point", Some(2))`, then `x`, then `y` |
| Reader.SkipTrace | serde/src/ser/impls.rs:114-117 | because every structural call carries the exact element count, a reader can skip the calls of any one value, whatever follows |
| Reader.SelfDelimiting | serde/src/ser/impls.rs:114-117 | no value's trace is a proper prefix of another's: the same stream of calls splits into a value and its continuation in only one way |

## Left out

- `Path` and `PathBuf` (serde/src/ser/impls.rs:523-537). They depend on
  OS-string conversion and on an `unwrap()` that can panic.
- Recorder.SeqIteratorVisitor and Recorder.MapIteratorVisitor: the iterator
  is modelled as the finite sequence of items it yields. That exhaustion is
  terminal (a pull after `None` again returns `None`, cursor unchanged) holds
  only for fused iterators; the source's `new` accepts any `Iterator`, but
  every built-in adapter passes a fused standard-library iterator.
- The commented-out `VecMap` impl (serde/src/ser/impls.rs:460-472).
- Floating point. `f32` and `f64` are carried as opaque bit patterns.
- Iteration order. A set or map value holds its elements in the order its
  iterator yields them:
  - `HashSet`/`HashMap` order is any order, each element once;
  - `BTreeSet`/`BTreeMap` ascending order comes from the standard library
    and is not modelled.
  - `Impls.WellTyped` requires only that set elements and map keys are
    distinct.
- `isize` and `usize` are modelled at 64 bits.
- `Recorder.TupleVisitor`: `state` is a `u8` in the source. Here it is a
  `nat`, which `Valid` keeps at or below the arity (12 at most), so the
  two never differ.
- Rust's trait and generic dispatch. Serializable types form a closed
  `Impls.Value` datatype. Elements of one container are not required to
  share a type.
- The `Serializer`, `Serialize`, `SeqVisitor` and `MapVisitor` trait
  definitions and the concrete encoders are not part of this model.
  `Recorder.Serializer` is a recording encoder of its own. Its pull loop
  (`Drive*`) calls `visit` until `None` or the first error and returns that
  error unchanged. This is the behaviour the visitors assume of an encoder.
- All AST, quoting and macro machinery of the generator: `aster`,
  `quote_*!`, `ExtCtxt`, spans, generics, lifetimes and the `PhantomData`
  field (serde_codegen/src/ser.rs:43-77, 494-510, 582-598). Derived code is
  modelled by what it does at run time: the plan plus the two generated
  visitor classes.
- Field keys. `struct_field_attrs` and `serializer_key_expr` are not part of
  this model. Each named field carries its key as a given string.
- Compiler bugs and reported errors. `cx.bug` aborts compilation and
  `cx.span_err` reports an error and generates nothing. Both are modelled as
  an error value of `Derive.DeriveError`.
- Visitors built without a length hint. Every adapter in the source passes
  `Some(..)`, so the model never builds one with `None`; a reader cannot
  skip such a structure (`Reader.SkipValue` returns `None`).
