/**
 * The root of `#[Interface]`: the interface's own method declarations as a
 * degenerate field shape, its marker struct with the `NAME` and `MARK`
 * constants, and its register function.
 */
module InterfaceRoot {
  import opened Wrappers
  import opened Syn
  import Common
  import opened InterfaceArgs
  import opened Codegen

  /** A 64-bit identity tag. */
  newtype u64 = x: int | 0 <= x < 0x1_0000_0000_0000_0000

  const EXECUTE_UNREACHABLE: string := "Interface method can't be executed"
  const RESOLVE_UNREACHABLE: string := "Interface method can't be resolved"

  /** Statements that bind and pass arguments inside a generated resolver; each records the argument it is about. */
  datatype ArgCode =
    | DowncastParentTo(target: string)                 // `let parent = ctx.parent_value.try_downcast_ref::<target>()?;`
    | BindToParent(arg: InterfaceMethodArg)            // `let #arg_ident = parent;`, with `common::get_arg_ident(arg)`
    | TypedArgDefinition(arg: InterfaceMethodArg)      // `common::get_typed_arg_definition(arg)`
    | SelfArgUsage(arg: InterfaceMethodArg)            // `common::get_self_arg_usage(arg)`
    | TypedArgUsage(arg: InterfaceMethodArg)           // `common::get_typed_arg_usage(arg)`
    | ArgumentDefinitions(args: seq<InterfaceMethodArg>) // `common::get_argument_definitions(args)`

  // ---------------------------------------------------------------------------
  // FieldImplementor for InterfaceMethod
  // ---------------------------------------------------------------------------

  /** `define_field`: an interface field with only a name and an output type reference, no resolver. */
  function DefineField(m: InterfaceMethod): (r: Fragment)
    ensures r.DefineInterfaceField? && !r.DefineField?
    ensures r.name == FieldNameOf(m.field) && r.ty == m.outputType
  {
    DefineInterfaceField(FieldNameOf(m.field), m.outputType)
  }

  /** `get_execute_code`: an interface method is never executed, so generating it aborts. */
  function GetExecuteCode(m: InterfaceMethod): (r: Generated<seq<Fragment>>)
    ensures r.Panic? && r.message == EXECUTE_UNREACHABLE
  {
    Panic(EXECUTE_UNREACHABLE)
  }

  /** `get_resolve_code`: an interface method is never resolved, so generating it aborts. */
  function GetResolveCode(m: InterfaceMethod): (r: Generated<seq<Fragment>>)
    ensures r.Panic? && r.message == RESOLVE_UNREACHABLE
  {
    Panic(RESOLVE_UNREACHABLE)
  }

  /** `get_field_argument_definition`: the definitions of exactly the method's arguments, in order. */
  function GetFieldArgumentDefinition(m: InterfaceMethod): (r: ArgCode)
    ensures r.ArgumentDefinitions? && |r.args| == |m.args|
    ensures forall k :: 0 <= k < |m.args| ==> r.args[k] == m.args[k]
  {
    ArgumentDefinitions(m.args)
  }

  /** `get_field_description_code`: the description of the field is the method's doc comment. */
  function GetFieldDescriptionCode(m: InterfaceMethod): (r: Fragment)
    ensures r.FieldDescription? && r.doc == m.field.doc
  {
    FieldDescription(m.field.doc)
  }

  /** `get_field_deprecation_code`: fails exactly when the method's deprecation cannot be read. */
  function GetFieldDeprecationCode(m: InterfaceMethod): (r: Result<Fragment, Common.DarlingError>)
    ensures r.Ok? <==> Common.FieldDeprecation(m.field).Ok?
    ensures r.Ok? ==> r.value == FieldDeprecationCode(Common.FieldDeprecation(m.field).value)
    ensures m.field.deprecation.Default? ==> r == Ok(FieldDeprecationCode(Common.NoDeprecated))
  {
    match Common.FieldDeprecation(m.field)
    case Err(e) => Err(e)
    case Ok(d) => Ok(FieldDeprecationCode(d))
  }

  /** `get_field_usage_code`: attach the field to the interface builder. */
  function GetFieldUsageCode(m: InterfaceMethod): (r: Fragment)
    ensures r.AttachField?
  {
    AttachField
  }

  /** Whatever the method, the interface shape never yields execute or resolve code. */
  lemma NeverExecutedOrResolved(m: InterfaceMethod)
    ensures !GetExecuteCode(m).Code? && !GetResolveCode(m).Code?
    ensures !DefineField(m).DefineField?
  {
  }

  // ---------------------------------------------------------------------------
  // ArgImplementor for InterfaceMethodArg
  // ---------------------------------------------------------------------------

  /** The implementer type parameter the generated code downcasts to. */
  const IMPLEMENTER: string := "I"

  /**
   * `get_self_arg_definition`: the receiver of an interface method is the
   * implementer, reached by a checked downcast of the parent value (the resolver
   * fails if the downcast does), and bound to the argument's name.
   */
  function GetSelfArgDefinition(a: InterfaceMethodArg): (r: seq<ArgCode>)
    ensures |r| == 2
    ensures r[0] == DowncastParentTo(IMPLEMENTER)
    ensures r[1].BindToParent? && r[1].arg == a
  {
    [DowncastParentTo(IMPLEMENTER), BindToParent(a)]
  }

  /** `get_typed_arg_definition`: delegated to the shared helper, for this argument. */
  function GetTypedArgDefinition(a: InterfaceMethodArg): (r: ArgCode)
    ensures r.TypedArgDefinition? && r.arg == a
  {
    TypedArgDefinition(a)
  }

  /** `get_self_arg_usage`: delegated to the shared helper, for this argument. */
  function GetSelfArgUsage(a: InterfaceMethodArg): (r: ArgCode)
    ensures r.SelfArgUsage? && r.arg == a
  {
    SelfArgUsage(a)
  }

  /** `get_typed_arg_usage`: delegated to the shared helper, for this argument. */
  function GetTypedArgUsage(a: InterfaceMethodArg): (r: ArgCode)
    ensures r.TypedArgUsage? && r.arg == a
  {
    TypedArgUsage(a)
  }

  // ---------------------------------------------------------------------------
  // The marker struct and the register function
  // ---------------------------------------------------------------------------

  /** The crate's own lifetime parameter, carried by the marker struct. */
  const DYNAMIC_LIFETIME: string := "__dynamic_graphql_lifetime"

  /**
   * `pub struct #ident<'__dynamic_graphql_lifetime, T = InterfaceRoot>(PhantomData<T>, AnyBox<'..>)`
   * with `GraphqlType::NAME = name` and `Interface::MARK = mark` on its `'static` instance.
   */
  datatype InterfaceStruct = InterfaceStruct(ident: Ident, lifetime: string, defaultRoot: string, name: string, mark: u64)

  /**
   * `define_interface_struct`.  `hash` stands for `get_interface_hash`, whose body
   * is not part of this model: the properties below hold whatever it computes.
   */
  function DefineInterfaceStruct(input: Interface, hash: string -> u64): (r: InterfaceStruct)
    ensures r.ident == input.caps.ident
    ensures r.name == Common.TypeName(input.caps)
    ensures r.mark == hash(r.name)
    ensures r.lifetime == DYNAMIC_LIFETIME
  {
    var name := Common.TypeName(input.caps);
    InterfaceStruct(input.caps.ident, DYNAMIC_LIFETIME, "InterfaceRoot", name, hash(name))
  }

  /** The mark depends on the schema name only: interfaces with equal names carry equal marks. */
  lemma MarkDependsOnlyOnName(a: Interface, b: Interface, hash: string -> u64)
    requires Common.TypeName(a.caps) == Common.TypeName(b.caps)
    ensures DefineInterfaceStruct(a, hash).mark == DefineInterfaceStruct(b, hash).mark
  {
  }

  /** An explicit name decides the mark, whatever the identifier and the methods. */
  lemma ExplicitNameDecidesMark(a: Interface, b: Interface, name: string, hash: string -> u64)
    requires a.caps.name == Some(name) && b.caps.name == Some(name)
    ensures DefineInterfaceStruct(a, hash).name == name
    ensures DefineInterfaceStruct(a, hash).mark == DefineInterfaceStruct(b, hash).mark == hash(name)
  {
  }

  /** `impl_register`: create the interface builder under `NAME`, describe it, define its fields, submit it. */
  function ImplRegister(input: Interface): (r: RegisterImpl)
    ensures r.target == input.caps.ident
    ensures |r.body| == 4
    ensures r.body[0] == DefineInterface
    ensures r.body[1] == ObjectDescription(input.caps.doc)
    ensures r.body[2] == DefineFieldsOf(input)
    ensures r.body[3] == RegisterObject
  {
    RegisterImpl(input.caps.ident,
      [DefineInterface, ObjectDescription(input.caps.doc), DefineFieldsOf(input), RegisterObject])
  }
}
