/**
 * The capability contracts shared by every declaration shape: object-like,
 * field-like and argument-like.  A Rust trait with default methods becomes a
 * record of what one implementor answers; a method with a default body is a
 * `Provided` slot that the implementor either leaves at the default or overrides.
 */
module Common {
  import opened Wrappers
  import opened Syn
  import FnArg

  /** A rename rule such as camelCase; its cases and their text transformation are not part of this model. */
  datatype RenameRule = RenameRule(tag: nat)

  /** A field's deprecation state. */
  datatype Deprecation = NoDeprecated | Deprecated(reason: Option<string>)

  /** An error reported by attribute parsing or code generation. */
  datatype DarlingError = DarlingError(message: string)

  /** A trait method with a default body: kept at the default, or overridden by the implementor. */
  datatype Provided<T> = Default | Overridden(value: T)

  /** What an implementor of `CommonObject` answers. */
  datatype ObjectImpl = ObjectImpl(
    name: Option<string>,
    ident: Ident,
    doc: Option<string>,
    fieldsRenameRule: Provided<Option<RenameRule>>,
    argsRenameRule: Provided<Option<RenameRule>>)

  /** What an implementor of `CommonField` answers. */
  datatype FieldImpl = FieldImpl(
    name: Option<string>,
    ident: Ident,
    ty: Type,
    skip: bool,
    doc: Option<string>,
    deprecation: Provided<Result<Deprecation, DarlingError>>,
    fieldRenameRule: Provided<Option<RenameRule>>,
    argsRenameRule: Provided<Option<RenameRule>>)

  /** What an implementor of `CommonArg` answers. */
  datatype ArgImpl = ArgImpl(
    name: Option<string>,
    index: nat,
    arg: FnArg.BaseFnArg,
    argRenameRule: Provided<Option<RenameRule>>)

  /** A rename-rule slot: the trait's default is "no rule". */
  function RenameRuleOf(p: Provided<Option<RenameRule>>): (r: Option<RenameRule>)
    ensures p.Default? ==> r == None
    ensures p.Overridden? ==> r == p.value
  {
    match p
    case Default => None
    case Overridden(rule) => rule
  }

  /** `CommonObject::get_fields_rename_rule`. */
  function ObjectFieldsRenameRule(o: ObjectImpl): (r: Option<RenameRule>)
    ensures o.fieldsRenameRule.Default? ==> r == None
    ensures o.fieldsRenameRule.Overridden? ==> r == o.fieldsRenameRule.value
  {
    RenameRuleOf(o.fieldsRenameRule)
  }

  /** `CommonObject::get_args_rename_rule`. */
  function ObjectArgsRenameRule(o: ObjectImpl): (r: Option<RenameRule>)
    ensures o.argsRenameRule.Default? ==> r == None
    ensures o.argsRenameRule.Overridden? ==> r == o.argsRenameRule.value
  {
    RenameRuleOf(o.argsRenameRule)
  }

  /** `CommonField::get_deprecation`: the default is `Ok(NoDeprecated)`. */
  function FieldDeprecation(f: FieldImpl): (r: Result<Deprecation, DarlingError>)
    ensures f.deprecation.Default? ==> r == Ok(NoDeprecated)
    ensures f.deprecation.Overridden? ==> r == f.deprecation.value
  {
    match f.deprecation
    case Default => Ok(NoDeprecated)
    case Overridden(d) => d
  }

  /** `CommonField::get_field_rename_rule`. */
  function FieldRenameRule(f: FieldImpl): (r: Option<RenameRule>)
    ensures f.fieldRenameRule.Default? ==> r == None
    ensures f.fieldRenameRule.Overridden? ==> r == f.fieldRenameRule.value
  {
    RenameRuleOf(f.fieldRenameRule)
  }

  /** `CommonField::get_args_rename_rule`. */
  function FieldArgsRenameRule(f: FieldImpl): (r: Option<RenameRule>)
    ensures f.argsRenameRule.Default? ==> r == None
    ensures f.argsRenameRule.Overridden? ==> r == f.argsRenameRule.value
  {
    RenameRuleOf(f.argsRenameRule)
  }

  /** `CommonArg::get_arg_rename_rule`. */
  function ArgRenameRule(a: ArgImpl): (r: Option<RenameRule>)
    ensures a.argRenameRule.Default? ==> r == None
    ensures a.argRenameRule.Overridden? ==> r == a.argRenameRule.value
  {
    RenameRuleOf(a.argRenameRule)
  }

  /**
   * The schema name of a type: the user-defined name when one is given, the
   * identifier otherwise.
   */
  function TypeName(o: ObjectImpl): (r: string)
    ensures o.name.Some? ==> r == o.name.value
    ensures o.name.None? ==> r == o.ident.name
  {
    match o.name
    case Some(name) => name
    case None => o.ident.name
  }

  /** Only the user-defined name and the identifier decide a type's schema name. */
  lemma TypeNameDependsOnNameAndIdent(a: ObjectImpl, b: ObjectImpl)
    requires a.name == b.name
    requires a.name.None? ==> a.ident.name == b.ident.name
    ensures TypeName(a) == TypeName(b)
  {
  }
}
