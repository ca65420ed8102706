/**
 * Classification of one function argument of an impl block: a receiver (`self`,
 * `&self`, `&mut self`, `mut self`) or a named, typed argument.
 */
module FnArg {
  import opened Wrappers
  import opened Syn

  /** The argument pattern: a plain identifier, or any other pattern (tuple, wildcard, ...). */
  datatype Pat = IdentPat(ident: Ident) | OtherPat(span: Span)

  /** `syn::FnArg`.  A receiver records whether `&` and `mut` were written. */
  datatype SynFnArg =
    | ReceiverArg(attrs: seq<Attribute>, reference: Option<Option<Lifetime>>, mutability: Option<Span>, span: Span)
    | TypedFnArg(attrs: seq<Attribute>, pat: Pat, ty: Type)

  datatype SelfArg = SelfArg(index: nat, isMut: bool, isRef: bool, span: Span)

  datatype TypedArg = TypedArg(index: nat, ident: Ident, ty: Type)

  datatype BaseFnArg = Receiver(selfArg: SelfArg) | Typed(typed: TypedArg)

  /** A build-time error carrying the offending source position. */
  datatype GeneratorError = GeneratorError(span: Span, message: string)

  /** darling's `Ignored`: accepts any argument and keeps nothing. */
  datatype Ignored = Ignored

  const ONLY_NAMED_ARGUMENTS: string := "Only named arguments are supported"

  function PatSpan(p: Pat): Span {
    match p
    case IdentPat(ident) => ident.span
    case OtherPat(span) => span
  }

  /** `BaseFnArg::get_attrs`: the attribute list of whichever variant the argument is. */
  function GetAttrs(arg: SynFnArg): (attrs: seq<Attribute>)
    ensures arg.ReceiverArg? ==> attrs == arg.attrs
    ensures arg.TypedFnArg? ==> attrs == arg.attrs
  {
    match arg
    case ReceiverArg(attrs, _, _, _) => attrs
    case TypedFnArg(attrs, _, _) => attrs
  }

  /**
   * `BaseFnArg::get_attrs_mut`, read as a lens: writing through the returned
   * reference replaces the attribute list of that variant and nothing else.
   */
  function SetAttrs(arg: SynFnArg, attrs: seq<Attribute>): (r: SynFnArg)
    ensures GetAttrs(r) == attrs
    ensures r.ReceiverArg? == arg.ReceiverArg?
    ensures r.ReceiverArg? ==> r.reference == arg.reference && r.mutability == arg.mutability && r.span == arg.span
    ensures r.TypedFnArg? ==> r.pat == arg.pat && r.ty == arg.ty
  {
    match arg
    case ReceiverArg(_, reference, mutability, span) => ReceiverArg(attrs, reference, mutability, span)
    case TypedFnArg(_, pat, ty) => TypedFnArg(attrs, pat, ty)
  }

  /** Writing back what was read changes nothing, and what was written is what is read next. */
  lemma AttrsLens(arg: SynFnArg, attrs: seq<Attribute>)
    ensures SetAttrs(arg, GetAttrs(arg)) == arg
    ensures GetAttrs(SetAttrs(arg, attrs)) == attrs
    ensures SetAttrs(SetAttrs(arg, attrs), GetAttrs(arg)) == arg
  {
  }

  /** `BaseFnArg::get_index`. */
  function GetIndex(arg: BaseFnArg): (index: nat)
    ensures arg.Receiver? ==> index == arg.selfArg.index
    ensures arg.Typed? ==> index == arg.typed.index
  {
    match arg
    case Receiver(r) => r.index
    case Typed(t) => t.index
  }

  /** `impl Spanned for BaseFnArg`: the receiver's span, or the span of the argument's identifier. */
  function ArgSpan(arg: BaseFnArg): (span: Span)
    ensures arg.Receiver? ==> span == arg.selfArg.span
    ensures arg.Typed? ==> span == arg.typed.ident.span
  {
    match arg
    case Receiver(r) => r.span
    case Typed(t) => t.ident.span
  }

  /** `<BaseFnArg as FromFnArg>::from_fn_arg`. */
  function FromFnArg(arg: SynFnArg, index: nat): (r: Result<BaseFnArg, GeneratorError>)
    ensures arg.ReceiverArg? ==>
              r == Ok(Receiver(SelfArg(index, arg.mutability.Some?, arg.reference.Some?, arg.span)))
    ensures arg.TypedFnArg? ==> (r.Ok? <==> arg.pat.IdentPat?)
    ensures arg.TypedFnArg? && r.Ok? ==> r.value == Typed(TypedArg(index, arg.pat.ident, arg.ty))
    ensures r.Err? ==> r.error == GeneratorError(PatSpan(arg.pat), ONLY_NAMED_ARGUMENTS)
    ensures r.Ok? ==> GetIndex(r.value) == index
  {
    match arg
    case ReceiverArg(_, reference, mutability, span) =>
      Ok(Receiver(SelfArg(index, mutability.Some?, reference.Some?, span)))
    case TypedFnArg(_, pat, ty) =>
      match pat
      case IdentPat(ident) => Ok(Typed(TypedArg(index, ident, ty)))
      case OtherPat(span) => Err(GeneratorError(span, ONLY_NAMED_ARGUMENTS))
  }

  /** `<Ignored as FromFnArg>::from_fn_arg`: never fails. */
  function FromFnArgIgnored(arg: SynFnArg, index: nat): (r: Result<Ignored, GeneratorError>)
    ensures r.Ok?
  {
    Ok(Ignored)
  }

  /** A receiver is classified by its flags: `&mut self` is a mutable reference receiver, `self` neither. */
  lemma ReceiverFlags(attrs: seq<Attribute>, lifetime: Option<Lifetime>, mutSpan: Span, span: Span, index: nat)
    ensures FromFnArg(ReceiverArg(attrs, Some(lifetime), Some(mutSpan), span), index).value.selfArg
            == SelfArg(index, true, true, span)
    ensures FromFnArg(ReceiverArg(attrs, None, None, span), index).value.selfArg
            == SelfArg(index, false, false, span)
  {
  }

  /** A successfully classified argument keeps the source position of its name. */
  lemma ClassifiedSpan(arg: SynFnArg, index: nat)
    requires FromFnArg(arg, index).Ok?
    ensures ArgSpan(FromFnArg(arg, index).value) == if arg.ReceiverArg? then arg.span else PatSpan(arg.pat)
  {
  }
}
