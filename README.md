# dynamic-graphql core, modelled in Dafny

This project models the core of dynamic-graphql. That crate derives, from annotated Rust
declarations, the code that registers types with a dynamic GraphQL schema registry, and the code
that converts incoming untyped values into typed ones. The model has one module per core source file:

- `FromValue` (`src/from_value.rs`): inbound value conversion.
  - An `Accessor` is either a failed lookup or a reached node of the value tree.
  - String, `ID` and `bool` read the matching scalar kind.
  - Unsigned targets read a u64 and wrap modulo 2^width. Signed targets read an i64 and wrap in two's complement. This is the Rust `as` cast, written out.
  - `Option`, `MaybeUndefined` and `Vec` are combinators over the element type's own conversion.
- `Generics` (`derive/src/args/common/generics.rs`): the lifetime-erasure normaliser.
  - It is a method with nested loops that rewrites a cloned type slot by slot, as the source does.
  - It is proved equal to a recursive specification `EraseType`. Its result has every visited lifetime `'static` and keeps the shape of the input.
  - Lemmas prove idempotence and that erased types are fixpoints.
  - It also appends the crate's `'__dynamic_graphql_lifetime` parameter to a generics list.
- `FnArg` (`derive/src/utils/impl_block/fn_arg.rs`): classifies an impl-block argument as a receiver or a named typed argument.
- `Common` (`derive/src/utils/common.rs`): the object, field and argument capability contracts and their default methods. A method with a default body is a `Provided` slot.
- `InterfaceArgs`: the parsed interface declaration, its methods and their arguments, each carrying its capability record.
- `Codegen`: generated code as abstract fragment records, and `Generated`, a result that is either code or a compile-time abort. It is shared by the two emitters below.
- `SimpleObject` (`derive/src/args/simple_object.rs`):
  - the derived struct is a class whose `SetContext` rewrites every field's context in place;
  - the resolver, field-definition and register emitters read it;
  - `ToTokens` appends the five generated items to a token buffer.
- `InterfaceRoot` (`derive/src/args/interface/root.rs`):
  - the interface-method field shape, which never executes or resolves;
  - the argument shape;
  - the marker struct with its `NAME` and `MARK`;
  - the interface register function.
- `InterfaceAttr` (`derive/src/utils/interface_attr.rs`): an attribute value that accepts string literals only.
- `ClippyError` (`derive/src/args/common/clippy_error.rs`): the hidden method that reads every tuple member once.
- `NodeData` (`derive/tests/schema_data/node_data.rs`): the global-ID fixture.
  - `format_id` and `parse_id`. The latter drives a `SplitIter` class, proved against the `Split` function.
  - The `NodeData` side-table inside a `Registry` class, filled by `RegisterFooNode`.
  - The `node` lookup, and the test query `node(id: "FooNode:1")`.

Two behaviours of the code worth noting:

- The lifetime-erasure normaliser does not descend into the element type of a reference. It rewrites only the reference's own lifetime (generics.rs:33-37). `ReferenceElementNotRewritten` shows this on `&'a Foo<'b>`.
- A failing element of a `Vec` conversion does not add its list index to the error. The error is passed through `InputValueError::propagate`, which is not part of this model, and nothing in `src/from_value.rs` appends an index. `CollectStopsAtFirstFailure` states that the whole conversion fails with exactly that element's error.

## Model

| member | source | states |
|---|---|---|
| FromValue.Reach | src/from_value.rs:8-11 | `value?` succeeds exactly when the lookup reached a node |
| FromValue.StringFromValue | src/from_value.rs:8-12 | succeeds iff the node is a string, returning that string; a failed lookup keeps its reason; any other node is a string-kind error |
| FromValue.IdFromValue | src/from_value.rs:14-18 | succeeds exactly when the String conversion does, wrapping the same string in `ID`; otherwise fails with the same error |
| FromValue.BoolFromValue | src/from_value.rs:20-24 | succeeds iff the node is a boolean, returning it; a failed lookup or any other node is an error |
| FromValue.UnsignedModulus | src/from_value.rs:61 | the modulus 2^width of each unsigned target is positive and at most 2^64 |
| FromValue.SignedHalf | src/from_value.rs:62 | half the modulus of each signed target is positive and at most 2^63 |
| FromValue.CastUnsigned | src/from_value.rs:43 | `x as uN` lies in [0, 2^N) and differs from x by a multiple of 2^N |
| FromValue.CastSigned | src/from_value.rs:54 | `x as iN` lies in [-2^(N-1), 2^(N-1)) and differs from x by a multiple of 2^N |
| FromValue.UnsignedFromValue | src/from_value.rs:38-48 | succeeds iff the node is an integer in the u64 range; the result is the wrapped cast, in the target's range; any other node is an unsigned-kind error |
| FromValue.SignedFromValue | src/from_value.rs:49-59 | succeeds iff the node is an integer in the i64 range; the result is the two's-complement cast, in the target's range; any other node is a signed-kind error |
| FromValue.UnsignedRoundTrip | src/from_value.rs:41-45 | every value of an unsigned target is read back unchanged |
| FromValue.SignedRoundTrip | src/from_value.rs:52-56 | every value of a signed target is read back unchanged |
| FromValue.NarrowingTruncates | src/from_value.rs:38-62 | out-of-range input is truncated, not rejected: 300 as u8 is 44, 200 as i8 is -56 |
| FromValue.SignedIgnoresUnsignedAccessor | src/from_value.rs:52-56 | a number above the i64 range is refused by every signed target, although the u64 accessor accepts it |
| FromValue.OptionFromValue | src/from_value.rs:64-77 | a failed lookup or null gives `Ok(None)`; otherwise `Some` of the inner result, or exactly the inner error |
| FromValue.MaybeUndefinedFromValue | src/from_value.rs:79-92 | failed lookup iff `Undefined`, null iff `Null`, inner success iff `Value` of it, inner failure iff that error: exactly one branch applies |
| FromValue.CollectElements | src/from_value.rs:98-104 | succeeds iff every element converts; the result then has the list's length, and its i-th entry is the i-th element's conversion |
| FromValue.VecFromValue | src/from_value.rs:94-105 | a failed lookup or a non-list node is an error; a list gives the element-wise collection |
| FromValue.VecOfEmptyList | src/from_value.rs:98-103 | an empty list converts to an empty sequence |
| FromValue.CollectStopsAtFirstFailure | src/from_value.rs:101-103 | when elements before k convert and element k fails, the whole conversion fails with element k's error |
| Generics.AddNewLifetimeToGenerics | derive/src/args/common/generics.rs:5-10 | the parameters grow by exactly one, the prefix and where-clause are unchanged, and the appended parameter is the returned `'__dynamic_graphql_lifetime` |
| Generics.EraseType | derive/src/args/common/generics.rs:12-41 | a path type stays a path with as many segments; a reference keeps its mutability, its element and whether it has a lifetime; any other type is unchanged |
| Generics.EraseSegment | derive/src/args/common/generics.rs:17-31 | the segment keeps its identifier; angle-bracketed arguments keep their count, other arguments are unchanged |
| Generics.EraseArg | derive/src/args/common/generics.rs:19-28 | a lifetime argument becomes `'static` at the same span; a type argument stays a type argument; every other argument is unchanged |
| Generics.MakeStatic | derive/src/args/common/generics.rs:24-26 | the rewritten lifetime is named `static` and keeps its span |
| Generics.ReplaceTypeGenericsWithStatic | derive/src/args/common/generics.rs:12-41 | the in-place rewrite computes `EraseType(ty)`; its result has every visited lifetime `'static` and the input's shape |
| Generics.ErasedResult | derive/src/args/common/generics.rs:15-37 | after normalisation every lifetime argument of every segment, recursively, and the reference's lifetime are `'static` |
| Generics.ErasedSegmentResult | derive/src/args/common/generics.rs:17-31 | the same for one path segment |
| Generics.ErasedIsFixpoint | derive/src/args/common/generics.rs:12-41 | a type that is already erased is returned unchanged |
| Generics.ErasedSegmentIsFixpoint | derive/src/args/common/generics.rs:18-30 | the same for one path segment |
| Generics.EraseIdempotent | derive/src/args/common/generics.rs:12-41 | normalising twice equals normalising once |
| Generics.ShapePreserved | derive/src/args/common/generics.rs:12-41 | normalisation keeps type kinds, segment identifiers, argument counts and kinds, other arguments and every lifetime span |
| Generics.SegmentShapePreserved | derive/src/args/common/generics.rs:17-31 | the same for one path segment; segments without angle-bracketed arguments are unchanged |
| Generics.ReferenceElementNotRewritten | derive/src/args/common/generics.rs:33-37 | `&'a Foo<'b>` becomes `&'static Foo<'b>`, while a reference nested in a type argument has only its own lifetime rewritten |
| FnArg.GetAttrs | derive/src/utils/impl_block/fn_arg.rs:32-37 | the attribute list of the receiver or of the typed argument, whichever it is |
| FnArg.GetIndex | derive/src/utils/impl_block/fn_arg.rs:46-51 | the index stored in the receiver or in the typed argument |
| FnArg.ArgSpan | derive/src/utils/impl_block/fn_arg.rs:54-61 | the receiver's own span, or the span of the typed argument's identifier |
| FnArg.SetAttrs | derive/src/utils/impl_block/fn_arg.rs:38-43 | writing through `get_attrs_mut` replaces the attribute list of that variant and nothing else |
| FnArg.AttrsLens | derive/src/utils/impl_block/fn_arg.rs:32-43 | the read and the write of the attribute list form a lawful lens |
| FnArg.FromFnArg | derive/src/utils/impl_block/fn_arg.rs:64-91 | a receiver gives `SelfArg` with `is_mut` iff `mut` and `is_ref` iff `&`; a typed argument succeeds iff its pattern is an identifier, keeping identifier and type; otherwise "Only named arguments are supported" at the pattern's span; `get_index` is the given index |
| FnArg.FromFnArgIgnored | derive/src/utils/impl_block/fn_arg.rs:93-97 | never fails |
| FnArg.ReceiverFlags | derive/src/utils/impl_block/fn_arg.rs:66-71 | `&mut self` is a mutable reference receiver; `self` is neither |
| FnArg.ClassifiedSpan | derive/src/utils/impl_block/fn_arg.rs:54-61 | a classified argument's span is the receiver's span or its identifier's span |
| Common.RenameRuleOf | derive/src/utils/common.rs:28-33 | a rename-rule slot left at the trait default is `None`, an overridden one is the override |
| Common.ObjectFieldsRenameRule | derive/src/utils/common.rs:10-12 | defaults to `None` |
| Common.ObjectArgsRenameRule | derive/src/utils/common.rs:13-15 | defaults to `None` |
| Common.FieldDeprecation | derive/src/utils/common.rs:25-27 | defaults to `Ok(NoDeprecated)` |
| Common.FieldRenameRule | derive/src/utils/common.rs:28-30 | defaults to `None` |
| Common.FieldArgsRenameRule | derive/src/utils/common.rs:31-33 | defaults to `None` |
| Common.ArgRenameRule | derive/src/utils/common.rs:41-43 | defaults to `None` |
| Common.TypeName | derive/src/utils/common.rs:6-8 | the user-defined name when given, the identifier otherwise |
| Common.TypeNameDependsOnNameAndIdent | derive/src/utils/common.rs:6-8 | objects with the same override, or no override and the same identifier, have the same schema name |
| Codegen.FieldNameOf | derive/src/args/simple_object.rs:191 | a field's name is computed from its override, identifier and field rename rule |
| SimpleObject.WithContext | derive/src/args/simple_object.rs:61-67 | every field gets the given context and keeps its attributes, identifier and type |
| SimpleObject.SimpleObject.SetContext | derive/src/args/simple_object.rs:61-67 | the loop leaves the fields equal to `WithContext(old fields, ctx)` |
| SimpleObject.SimpleObject.MakeContext | derive/src/args/simple_object.rs:97-103 | the context carries the object's `rename_fields` |
| SimpleObject.SimpleObject.FromDeriveInput | derive/src/args/simple_object.rs:89-95 | after construction every field's rename rule equals the object's fields rename rule |
| SimpleObject.ObjectCapabilities | derive/src/args/simple_object.rs:105-120 | name, identifier and doc come from the attributes; the fields rename rule is overridden by `rename_fields`; the args rule stays `None` |
| SimpleObject.FieldCapabilities | derive/src/args/simple_object.rs:122-148 | name, skip, identifier, type and doc from the field; deprecation is `Ok` of the attribute; the rename rule comes from the field's context; the args rule stays `None` |
| SimpleObject.ContextPropagates | derive/src/args/simple_object.rs:89-103 | handing out the object's context makes every field, and every field name, use the object's rename rule |
| SimpleObject.NonSkipped | derive/src/args/simple_object.rs:176-182 | the filter keeps no skipped field and never grows the list |
| SimpleObject.KeptPositions | derive/src/args/simple_object.rs:176-182 | positions of non-skipped fields only, strictly increasing |
| SimpleObject.KeptPositionsComplete | derive/src/args/simple_object.rs:176-182 | every non-skipped field's position is among the kept positions |
| SimpleObject.NonSkippedInOrder | derive/src/args/simple_object.rs:176-182 | the k-th kept field is the field at the k-th non-skipped position: declaration order is preserved |
| SimpleObject.NonSkippedSnoc | derive/src/args/simple_object.rs:176-182 | filtering a list with one more field at the end appends that field exactly when it is not skipped |
| SimpleObject.GetResolverIdentAsWritten | derive/src/args/simple_object.rs:154-160 | the display text of the field identifier after `__resolve_`, at its span; for an identifier without `#`, this aborts exactly when the identifier is raw |
| SimpleObject.RawFieldIdentAborts | derive/src/args/simple_object.rs:154-160 | for the raw field identifier `r#type`, the resolver name `__resolve_r#type` is rejected and the derive aborts |
| SimpleObject.GetResolverIdent | derive/src/args/simple_object.rs:154-160 | `__resolve_` followed by the identifier's name without any `r#` prefix, at the identifier's span; a valid, non-raw identifier |
| SimpleObject.ResolverIdentAgreesOffRaw | derive/src/args/simple_object.rs:154-160 | for every non-raw identifier the corrected name is the one the code builds |
| SimpleObject.ResolverIdentInjective | derive/src/args/simple_object.rs:154-160 | equal resolver names come from equal field identifiers |
| SimpleObject.ImplResolver | derive/src/args/simple_object.rs:162-171 | the resolver is named by `GetResolverIdent` and returns a reference to the field, at its type |
| SimpleObject.ImplResolvers | derive/src/args/simple_object.rs:173-188 | one resolver per non-skipped field, in filter order, on the object's own type |
| SimpleObject.ResolversFollowDeclarations | derive/src/args/simple_object.rs:173-188 | the k-th resolver reads the k-th non-skipped field in declaration order and is named after it |
| SimpleObject.ImplDefineField | derive/src/args/simple_object.rs:190-209 | define the field with its name, type and resolver, then its description, then its deprecation, then attach it |
| SimpleObject.DefineAll | derive/src/args/simple_object.rs:211-219 | four fragments per kept field |
| SimpleObject.GetDefineFields | derive/src/args/simple_object.rs:211-219 | four fragments per non-skipped field |
| SimpleObject.GetDefineFieldsInOrder | derive/src/args/simple_object.rs:211-219 | the k-th block of four fragments defines the field at the k-th non-skipped position of the declaration |
| SimpleObject.DefineAllLayout | derive/src/args/simple_object.rs:211-219 | the k-th block of four fragments is the definition of the k-th kept field |
| SimpleObject.BlockDefinesOneName | derive/src/args/simple_object.rs:190-209 | one field's definition block defines exactly that field's name |
| SimpleObject.DefineAllNames | derive/src/args/simple_object.rs:211-219 | the defined field names are those of the kept fields, each once, in order |
| SimpleObject.FooNodeDefinesName | derive/tests/schema_data/node_data.rs:90-94 | for `FooNode`, with `id` skipped, the only field the object defines is `name` |
| SimpleObject.ImplRegister | derive/src/args/simple_object.rs:221-242 | define the object, then its description, then the field definitions, then submit it to the registry |
| SimpleObject.Snapshot | derive/src/args/simple_object.rs:246-248 | the value handed to the object and resolve emitters carries the object's identifier, attributes and fields |
| SimpleObject.ToTokens | derive/src/args/simple_object.rs:244-258 | appends the object, owned-resolve and ref-resolve items built from the object itself, then its resolvers and register items, in that order, to what the buffer held |
| InterfaceRoot.DefineField | derive/src/args/interface/root.rs:14-24 | an interface field with the field's name and the output type, and no resolver |
| InterfaceRoot.GetExecuteCode | derive/src/args/interface/root.rs:26-28 | always an abort with "Interface method can't be executed" |
| InterfaceRoot.GetResolveCode | derive/src/args/interface/root.rs:30-32 | always an abort with "Interface method can't be resolved" |
| InterfaceRoot.NeverExecutedOrResolved | derive/src/args/interface/root.rs:14-32 | the interface-method shape never yields execute or resolve code and never a resolving field |
| InterfaceRoot.GetFieldArgumentDefinition | derive/src/args/interface/root.rs:34-36 | the definitions of the method's arguments, one per argument, in order |
| InterfaceRoot.GetFieldDescriptionCode | derive/src/args/interface/root.rs:38-40 | the field description is the method's doc |
| InterfaceRoot.GetFieldDeprecationCode | derive/src/args/interface/root.rs:42-44 | fails exactly when the method's deprecation cannot be read; otherwise it encodes that deprecation, `NoDeprecated` for the default |
| InterfaceRoot.GetFieldUsageCode | derive/src/args/interface/root.rs:46-50 | attaches the field to the interface builder |
| InterfaceRoot.GetSelfArgDefinition | derive/src/args/interface/root.rs:54-61 | two statements: downcast the parent to the implementer `I`, then bind this argument to it |
| InterfaceRoot.GetTypedArgDefinition | derive/src/args/interface/root.rs:63-65 | the typed-argument definition of this argument |
| InterfaceRoot.GetSelfArgUsage | derive/src/args/interface/root.rs:67-69 | the self-argument usage of this argument |
| InterfaceRoot.GetTypedArgUsage | derive/src/args/interface/root.rs:71-73 | the typed-argument usage of this argument |
| InterfaceRoot.DefineInterfaceStruct | derive/src/args/interface/root.rs:76-92 | `NAME` is the resolved type name, `MARK` is the hash of that name, and the struct carries the crate lifetime |
| InterfaceRoot.MarkDependsOnlyOnName | derive/src/args/interface/root.rs:78-89 | interfaces with equal schema names have equal marks, for every hash function |
| InterfaceRoot.ExplicitNameDecidesMark | derive/src/args/interface/root.rs:78-89 | an explicit name is the `NAME` and decides the `MARK`, whatever the identifier and methods |
| InterfaceRoot.ImplRegister | derive/src/args/interface/root.rs:94-113 | create the interface builder, then the description of the interface's doc, then the field definitions of the whole interface, then submit |
| InterfaceAttr.FromValue | derive/src/utils/interface_attr.rs:28-40 | succeeds iff the literal is a string, keeping its value (via deref) and span; otherwise "expected a string literal" |
| InterfaceAttr.Deref | derive/src/utils/interface_attr.rs:14-20 | dereferencing gives the stored string |
| InterfaceAttr.AttrSpan | derive/src/utils/interface_attr.rs:22-26 | the span is the stored span |
| InterfaceAttr.ParseRoundTrip | derive/src/utils/interface_attr.rs:14-39 | parsing the literal an attribute derefs to, at its span, gives the attribute back |
| ClippyError.SplitForImpl | derive/src/args/common/clippy_error.rs:10 | the impl part, type part and where-clause come from the input generics |
| ClippyError.Accesses | derive/src/args/common/clippy_error.rs:11-18 | exactly `len` accesses, the i-th to member i |
| ClippyError.EachMemberOnce | derive/src/args/common/clippy_error.rs:11-18 | every member below `len` is accessed exactly once and no other member is |
| ClippyError.AccessesIncreasing | derive/src/args/common/clippy_error.rs:11-16 | the accesses are strictly increasing |
| ClippyError.ImplSuppressTuppleClippyError | derive/src/args/common/clippy_error.rs:5-28 | an impl on the given type with the split generics, whose body accesses members 0 to len-1 in order and is empty for len 0 |
| NodeData.FirstSeparator | derive/tests/schema_data/node_data.rs:41 | the position of the first `':'`, before which there is none |
| NodeData.Split | derive/tests/schema_data/node_data.rs:41 | at least one piece, and no piece contains `':'` |
| NodeData.SplitIter.constructor | derive/tests/schema_data/node_data.rs:41 | the new iterator will yield exactly the pieces of the string |
| NodeData.SplitIter.Next | derive/tests/schema_data/node_data.rs:42-43 | yields the next piece and drops it from those remaining, or `None` once none remain |
| NodeData.FindSeparator | derive/tests/schema_data/node_data.rs:41 | the scan for the next piece stops at the first `':'` at or after the start, or at the end |
| NodeData.SplitFrom | derive/tests/schema_data/node_data.rs:41 | from a start position, the first piece runs up to the first `':'`, and the pieces after it are those of the rest of the string |
| NodeData.ParsedId | derive/tests/schema_data/node_data.rs:40-45 | `None` iff the id has no `':'`; otherwise two pieces, neither containing `':'` |
| NodeData.ParseId | derive/tests/schema_data/node_data.rs:40-45 | advancing the iterator twice gives `ParsedId(id)` |
| NodeData.FormatId | derive/tests/schema_data/node_data.rs:36-38 | the type name, then `':'`, then the id |
| NodeData.SplitWithoutSeparator | derive/tests/schema_data/node_data.rs:41 | a string without `':'` splits into itself alone |
| NodeData.SplitAfterFirst | derive/tests/schema_data/node_data.rs:41 | splitting `a:rest`, where `a` has no `':'`, yields `a` and then the pieces of `rest` |
| NodeData.ParseFormatRoundTrip | derive/tests/schema_data/node_data.rs:36-45 | when neither part contains `':'`, parsing a formatted id gives back the type name and the id |
| NodeData.ParseIgnoresExtraPieces | derive/tests/schema_data/node_data.rs:41-44 | pieces after the second are ignored |
| NodeData.GetId | derive/tests/schema_data/node_data.rs:97-99 | the node's `id` |
| NodeData.GetName | derive/tests/schema_data/node_data.rs:100-102 | always `FooNode` |
| NodeData.IdField | derive/tests/schema_data/node_data.rs:49-54 | the default `id` field is `format_id` of the node's type name and id |
| NodeData.IdFieldParsesBack | derive/tests/schema_data/node_data.rs:36-54 | when the id has no `':'`, the `id` field parses back to the node's type name and id |
| NodeData.GetFooNode | derive/tests/schema_data/node_data.rs:111-116 | always a node, with the given id and the name "foo" |
| NodeData.NodeLookup | derive/tests/schema_data/node_data.rs:68-73 | `None` if parsing fails, no table is registered, or the name has no entry; otherwise the entry applied to the id |
| NodeData.Registry.constructor | derive/tests/schema_data/node_data.rs:107-108 | a fresh registry has no `NodeData` entry yet, so the first registration creates it |
| NodeData.RegisterFooNode | derive/tests/schema_data/node_data.rs:107-119 | the table is created if absent, maps `FooNode` to its constructor, keeps every other entry and gains no other key |
| NodeData.NodeFindsRegisteredFooNode | derive/tests/schema_data/node_data.rs:68-73 | once `FooNode` is registered, looking up `FooNode:<id>` yields the node with that id, named "foo", whose `id` field is the id looked up |
| NodeData.NodeScenario | derive/tests/schema_data/node_data.rs:161-180 | the query for `FooNode:1` answers `id` "FooNode:1" and `name` "foo" |

## Left out

- Floating-point conversions (`f32`, `f64`) and floating-point nodes are not modelled, because floating point is out of scope.
- `InputValueError::propagate` is taken to be the identity on errors, because its body is not part of this model. No path breadcrumbs are modelled.
- The accessor belongs to the external GraphQL engine. Only its extraction contract is modelled, with u64 reads accepting [0, 2^64) and i64 reads accepting [-2^63, 2^63).
- `usize` and `isize` are taken to be 64 bits wide.
- The `syn` syntax tree is reduced to the shapes the core inspects. Spans are opaque positions. Attributes, where-predicates and other token streams are opaque.
- `parse_quote!` in `add_new_lifetime_to_generics` builds the lifetime at the call site. The model takes that span as the parameter `span`.
- Rename rules are opaque tags. How a rule transforms a name is not part of this model.
- `common::get_field_name`, `field_description`, `field_deprecation_code`, `object_description`, `register_object_code`, `impl_object`, `impl_resolve_owned`, `impl_resolve_ref`, `get_define_fields_code`, `get_argument_definitions`, `get_typed_arg_definition`, `get_self_arg_usage` and `get_typed_arg_usage` are not part of this model. Each fragment that stands for their output records either the whole declaration it was given (the object snapshot, the interface, the argument list, the argument) or the one capability it is named after (a doc, a deprecation, a field name). Fragments of different declarations may therefore coincide when those capabilities agree.
- Common.TypeName: the body of `get_type_name` is not part of this model. The model assumes it returns the user-defined name when there is one and the identifier otherwise, with no rename rule applied.
- InterfaceRoot.GetFieldDescriptionCode: the failure of `field_description` (root.rs:39) is not modelled. Its body is not part of this model, and the capability record holds the doc it reads.
- InterfaceRoot.GetTypedArgDefinition: the failure of `get_typed_arg_definition` (root.rs:64) is not modelled, for the same reason.
- InterfaceRoot.GetSelfArgUsage: the failure of `get_self_arg_usage` (root.rs:68) is not modelled, for the same reason.
- InterfaceRoot.GetTypedArgUsage: the failure of `get_typed_arg_usage` (root.rs:72) is not modelled, for the same reason.
- InterfaceRoot.DefineField: the failures of `get_field_name` and `get_field_type` (root.rs:16-17) are not modelled. Their bodies are not part of this model, and the capability record holds the answers of successful calls.
- InterfaceRoot.GetFieldArgumentDefinition: the failures of `get_args` and `get_argument_definitions` (root.rs:35) are not modelled, for the same reason.
- InterfaceRoot.DefineInterfaceStruct: the failure of `get_type_name` (root.rs:78) is not modelled, for the same reason.
- InterfaceRoot.ImplRegister: the failures of `get_doc`, `object_description` and `get_define_fields_code` (root.rs:98-99) are not modelled, for the same reason.
- `get_interface_hash` is not part of this model. It is the parameter `hash`, and every property about marks holds for every hash function.
- darling attribute parsing (`FromDeriveInput`, `FromField`, `FromAttributes`) is not modelled: the model starts from the parsed attributes. So the error paths of `get_fields`, `get_ident`, `get_type` and `get_doc` are not modelled; for the struct shape they always succeed.
- The `with_span(...).into_token_stream()` conversion of emitter errors into compile errors is not modelled. The emitters for a simple object are built on the corrected resolver name, which cannot fail; the one abort the source has on this path is shown only by `SimpleObject.GetResolverIdentAsWritten`.
- SimpleObject.ImplResolver: built on the corrected `GetResolverIdent`, so for a raw field identifier such as `r#type` it emits `__resolve_type` where the source aborts (simple_object.rs:164). The same holds downstream in `ImplResolvers` and `ToTokens`.
- SimpleObject.ImplDefineField: built on the corrected `GetResolverIdent`, so for a raw field identifier it emits a definition where the source aborts (simple_object.rs:193). The same holds downstream in `DefineAll`, `GetDefineFields`, `ImplRegister` and `ToTokens`.
- Runtime resolution is not modelled: `FieldFuture`, the async resolver bodies, and the engine that runs them. A failed `try_downcast_ref` at run time is not modelled either; the downcast is recorded only as a fragment.
- Only these implementor shapes of `FieldImplementor` and `ArgImplementor` (simple-object fields, interface methods and their arguments) are modelled.
- The registry's side-table, keyed by type, is reduced to its single `NodeData` slot. `ctx.get_schema_data()` reads that slot.
- NodeData.NodeLookup: `Instance<dyn Node>` is modelled for the fixture's only implementer, `FooNode`.
- The SDL snapshot of the node test (node_data.rs:136-159) is not modelled, because it is printed by the external engine. What the object itself defines is stated by `SimpleObject.FooNodeDefinesName`.
- `from_fn_arg` takes the argument by mutable reference but does not change it. It is modelled on a value.

## Findings

| source | as written | input that shows it | evidently intended | confidence | as-written member | corrected member |
|---|---|---|---|---|---|---|
| derive/src/args/simple_object.rs:154-160 | the resolver name is built from the identifier's display text, which keeps the `r#` of a raw identifier, and `syn::Ident::new` panics on a name containing `#` | a field declared as `r#type: String` gives `__resolve_r#type` | the resolver name `__resolve_type`, built from the identifier without its `r#` prefix | medium, not executed | SimpleObject.GetResolverIdentAsWritten | SimpleObject.GetResolverIdent |
