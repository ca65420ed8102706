/**
 * The handful of `syn` / `proc_macro2` shapes the code generator inspects and
 * rewrites.  Only the parts that the modelled functions read or change are kept;
 * spans are opaque source positions.
 */
module Syn {
  import opened Wrappers

  /** An opaque source position (`proc_macro2::Span`). */
  datatype Span = Span(pos: nat)

  /**
   * An identifier with the span it was written at.  A raw identifier such as
   * `r#type` has `raw` set; `name` never carries the `r#` marker.
   */
  datatype Ident = Ident(name: string, span: Span, raw: bool)

  /** The `Display` text of an identifier: a raw identifier is printed with its `r#` marker. */
  function IdentText(i: Ident): (text: string)
    ensures !i.raw ==> text == i.name
    ensures i.raw ==> |text| == |i.name| + 2 && text[..2] == "r#" && text[2..] == i.name
  {
    if i.raw then "r#" + i.name else i.name
  }

  /**
   * Text that `Ident::new` accepts.  Only the rule that matters here is kept: the
   * text contains no `#` (the `r#` prefix of a raw identifier is not identifier text).
   */
  predicate IsIdentText(s: string) {
    '#' !in s
  }

  /** A lifetime `'ident`; the apostrophe is implicit. */
  datatype Lifetime = Lifetime(ident: Ident)

  /** An outer attribute `#[path tokens]`. */
  datatype Attribute = Attribute(path: string, tokens: string)

  /** The type syntax tree, restricted to the kinds the lifetime normaliser distinguishes. */
  datatype Type =
    | PathType(segments: seq<PathSegment>)
    | ReferenceType(lifetime: Option<Lifetime>, mutable: bool, elem: Type)
    | OtherType(tokens: string)

  datatype PathSegment = PathSegment(ident: Ident, arguments: PathArguments)

  datatype PathArguments =
    | NoArguments
    | AngleBracketed(args: seq<GenericArgument>)
    | Parenthesized(inputs: seq<Type>, output: Option<Type>)

  datatype GenericArgument =
    | TypeArg(ty: Type)
    | LifetimeArg(lifetime: Lifetime)
    | ConstArg(expr: string)
    | OtherArg(tokens: string)

  datatype GenericParam =
    | LifetimeParam(lifetime: Lifetime)
    | TypeParam(ident: Ident)
    | ConstParam(ident: Ident, ty: Type)

  /** `syn::Generics`: the parameter list and the where-clause predicates. */
  datatype Generics = Generics(params: seq<GenericParam>, wherePredicates: seq<string>)
}
