/** A string-valued attribute argument that remembers where it was written: accepts string literals only. */
module InterfaceAttr {
  import opened Wrappers
  import opened Syn
  import Common

  /** A Rust literal, by kind. */
  datatype Lit =
    | LitStr(value: string, span: Span)
    | LitInt(digits: string, span: Span)
    | LitBool(b: bool, span: Span)
    | LitOther(span: Span)

  datatype InterfaceAttr = InterfaceAttr(inner: string, span: Span)

  const EXPECTED_STRING: string := "expected a string literal"

  /** `FromMeta::from_value`: a string literal is kept with its span; anything else is refused. */
  function FromValue(lit: Lit): (r: Result<InterfaceAttr, Common.DarlingError>)
    ensures r.Ok? <==> lit.LitStr?
    ensures r.Ok? ==> Deref(r.value) == lit.value && AttrSpan(r.value) == lit.span
    ensures r.Err? ==> r.error == Common.DarlingError(EXPECTED_STRING)
  {
    match lit
    case LitStr(value, span) => Ok(InterfaceAttr(value, span))
    case _ => Err(Common.DarlingError(EXPECTED_STRING))
  }

  /** `Deref for InterfaceAttr`: the string it holds. */
  function Deref(a: InterfaceAttr): (s: string)
    ensures s == a.inner
  {
    a.inner
  }

  /** `Spanned for InterfaceAttr`: the span it was written at. */
  function AttrSpan(a: InterfaceAttr): (span: Span)
    ensures span == a.span
  {
    a.span
  }

  /** Parsing the literal that an attribute came from gives the same attribute back. */
  lemma ParseRoundTrip(a: InterfaceAttr)
    ensures FromValue(LitStr(Deref(a), AttrSpan(a))) == Ok(a)
  {
  }
}
