/**
 * Generated code, represented as abstract fragment records instead of token
 * streams.  A fragment produced by a helper that is not part of this model
 * records what that helper is given: the whole declaration when it receives the
 * declaration, and the one capability it is named after (the doc, the
 * deprecation, or the name inputs) when that is all it reads.
 */
module Codegen {
  import opened Wrappers
  import opened Syn
  import Common
  import InterfaceArgs

  /** The inputs of `common::get_field_name`: user-defined name, identifier and rename rule. */
  datatype FieldName = FieldName(nameOverride: Option<string>, ident: Ident, renameRule: Option<Common.RenameRule>)

  /** One statement of a generated `register` function. */
  datatype Fragment =
    | DefineObject                      // `let object = Object::new(<Self as Object>::NAME);`
    | DefineInterface                   // `let object = Interface::new(<Self as Interface>::NAME);`
    | ObjectDescription(doc: Option<string>)
    | DefineField(name: FieldName, ty: Type, resolver: Ident)   // `let field = Field::new(name, <ty>::output type ref, resolve Self::resolver(parent))`
    | DefineInterfaceField(name: FieldName, ty: Type)           // `let field = InterfaceField::new(name, <ty>::output type ref);`
    | FieldDescription(doc: Option<string>)
    | FieldDeprecationCode(deprecation: Common.Deprecation)
    | AttachField                       // `let object = object.field(field);`
    | DefineFieldsOf(input: InterfaceArgs.Interface)  // `common::get_define_fields_code(input)`
    | RegisterObject                    // `common::register_object_code()`: submit the builder, return the registry

  /** `impl Register for Target { fn register(registry) -> Registry { body } }`. */
  datatype RegisterImpl = RegisterImpl(target: Ident, body: seq<Fragment>)

  /** The result of generating a fragment: code, or a panic that aborts the expansion. */
  datatype Generated<T> = Code(code: T) | Panic(message: string)

  /** The field name a capability record produces. */
  function FieldNameOf(f: Common.FieldImpl): (r: FieldName)
    ensures r.nameOverride == f.name && r.ident == f.ident
    ensures r.renameRule == Common.FieldRenameRule(f)
  {
    FieldName(f.name, f.ident, Common.FieldRenameRule(f))
  }
}
