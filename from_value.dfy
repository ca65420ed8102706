/**
 * Inbound value conversion: turning a fallible accessor into one node of the
 * incoming untyped value tree into a typed value (the `FromValue` impls).
 *
 * The value tree and its accessor belong to the external GraphQL engine; only the
 * extraction contract the impls rely on is modelled here.  Each generic impl
 * (`Option<T>`, `MaybeUndefined<T>`, `Vec<T>`) is a combinator that receives the
 * element type's own conversion `T::from_value` as the total function `inner`.
 */
module FromValue {
  import opened Wrappers

  /** A node of the incoming value tree.  Floating-point numbers and uploads are left out. */
  datatype ConstValue =
    | Null
    | Number(n: int)
    | String(s: string)
    | Boolean(b: bool)
    | Enum(name: string)
    | List(items: seq<ConstValue>)
    | Object(entries: seq<(string, ConstValue)>)

  /** `Result<ValueAccessor>`: the lookup of a node either failed or reached a node. */
  datatype Accessor = Missing(reason: string) | Present(value: ConstValue)

  /** The scalar kinds the accessor can extract. */
  datatype Kind = StringKind | BooleanKind | SignedKind | UnsignedKind | ListKind

  /** An input value error: the failed lookup, or a node of the wrong kind. */
  datatype InputError = LookupFailed(reason: string) | NotA(expected: Kind)

  type Converted<T> = Result<T, InputError>

  /** The three-way input wrapper: not supplied, supplied as null, supplied with a value. */
  datatype MaybeUndefined<T> = Undefined | Null | Value(value: T)

  /** The `ID` scalar: a string newtype. */
  datatype ID = ID(s: string)

  const U64_LIMIT: int := 0x1_0000_0000_0000_0000
  const I64_MIN: int := -0x8000_0000_0000_0000
  const I64_LIMIT: int := 0x8000_0000_0000_0000

  // ---------------------------------------------------------------------------
  // The accessor's extraction contract (owned by the engine, not by this crate)
  // ---------------------------------------------------------------------------

  /** `value?`: a failed lookup becomes an input error carrying its reason. */
  function Reach(a: Accessor): (r: Converted<ConstValue>)
    ensures r.Ok? <==> a.Present?
  {
    match a
    case Missing(reason) => Err(LookupFailed(reason))
    case Present(v) => Ok(v)
  }

  function AsString(v: ConstValue): Converted<string> {
    if v.String? then Ok(v.s) else Err(NotA(StringKind))
  }

  function AsBoolean(v: ConstValue): Converted<bool> {
    if v.Boolean? then Ok(v.b) else Err(NotA(BooleanKind))
  }

  /** `u64()`: succeeds on an integer that fits in 64 unsigned bits. */
  function AsU64(v: ConstValue): Converted<int> {
    if v.Number? && 0 <= v.n < U64_LIMIT then Ok(v.n) else Err(NotA(UnsignedKind))
  }

  /** `i64()`: succeeds on an integer that fits in 64 signed bits. */
  function AsI64(v: ConstValue): Converted<int> {
    if v.Number? && I64_MIN <= v.n < I64_LIMIT then Ok(v.n) else Err(NotA(SignedKind))
  }

  function AsList(v: ConstValue): Converted<seq<ConstValue>> {
    if v.List? then Ok(v.items) else Err(NotA(ListKind))
  }

  // ---------------------------------------------------------------------------
  // Scalars
  // ---------------------------------------------------------------------------

  /** `impl FromValue for String`. */
  function StringFromValue(a: Accessor): (r: Converted<string>)
    ensures r.Ok? <==> a.Present? && a.value.String?
    ensures r.Ok? ==> r.value == a.value.s
    ensures a.Missing? ==> r == Err(LookupFailed(a.reason))
    ensures a.Present? && !a.value.String? ==> r == Err(NotA(StringKind))
  {
    match Reach(a)
    case Err(e) => Err(e)
    case Ok(v) => AsString(v)
  }

  /** `impl FromValue for ID`: the same extraction as for `String`, wrapped. */
  function IdFromValue(a: Accessor): (r: Converted<ID>)
    ensures r.Ok? <==> StringFromValue(a).Ok?
    ensures r.Ok? ==> r.value == ID(StringFromValue(a).value)
    ensures r.Err? ==> r.error == StringFromValue(a).error
  {
    match Reach(a)
    case Err(e) => Err(e)
    case Ok(v) =>
      match AsString(v)
      case Err(e) => Err(e)
      case Ok(s) => Ok(ID(s))
  }

  /** `impl FromValue for bool`. */
  function BoolFromValue(a: Accessor): (r: Converted<bool>)
    ensures r.Ok? <==> a.Present? && a.value.Boolean?
    ensures r.Ok? ==> r.value == a.value.b
    ensures a.Missing? ==> r == Err(LookupFailed(a.reason))
    ensures a.Present? && !a.value.Boolean? ==> r == Err(NotA(BooleanKind))
  {
    match Reach(a)
    case Err(e) => Err(e)
    case Ok(v) => AsBoolean(v)
  }

  // ---------------------------------------------------------------------------
  // Integers: read a 64-bit value, then narrow with an `as` cast
  // ---------------------------------------------------------------------------

  /** The unsigned targets of `uint_from_value!`; `usize` is taken to be 64 bits wide. */
  datatype UnsignedTarget = U8 | U16 | U32 | U64 | USize

  /** The signed targets of `int_from_value!`; `isize` is taken to be 64 bits wide. */
  datatype SignedTarget = I8 | I16 | I32 | I64 | ISize

  /** 2^width of an unsigned target. */
  function UnsignedModulus(t: UnsignedTarget): (m: int)
    ensures 0 < m <= U64_LIMIT
  {
    match t
    case U8 => 0x100
    case U16 => 0x1_0000
    case U32 => 0x1_0000_0000
    case U64 => U64_LIMIT
    case USize => U64_LIMIT
  }

  /** 2^(width - 1) of a signed target. */
  function SignedHalf(t: SignedTarget): (h: int)
    ensures 0 < h <= I64_LIMIT
  {
    match t
    case I8 => 0x80
    case I16 => 0x8000
    case I32 => 0x8000_0000
    case I64 => I64_LIMIT
    case ISize => I64_LIMIT
  }

  /** `x as uN`: keep the low N bits, that is, the remainder of x modulo 2^N. */
  function CastUnsigned(t: UnsignedTarget, x: int): (r: int)
    ensures 0 <= r < UnsignedModulus(t)
    ensures x == x / UnsignedModulus(t) * UnsignedModulus(t) + r
  {
    x % UnsignedModulus(t)
  }

  /** `x as iN`: keep the low N bits and read them in two's complement, so r differs from x by a multiple of 2^N. */
  function CastSigned(t: SignedTarget, x: int): (r: int)
    ensures -SignedHalf(t) <= r < SignedHalf(t)
    ensures x == (x + SignedHalf(t)) / (2 * SignedHalf(t)) * (2 * SignedHalf(t)) + r
  {
    var h := SignedHalf(t);
    (x + h) % (2 * h) - h
  }

  /** `Ok(value?.u64()? as $t)` for an unsigned target. */
  function UnsignedFromValue(t: UnsignedTarget, a: Accessor): (r: Converted<int>)
    ensures r.Ok? <==> a.Present? && a.value.Number? && 0 <= a.value.n < U64_LIMIT
    ensures r.Ok? ==> 0 <= r.value < UnsignedModulus(t)
    ensures r.Ok? ==> r.value == CastUnsigned(t, a.value.n)
    ensures a.Missing? ==> r == Err(LookupFailed(a.reason))
    ensures a.Present? && r.Err? ==> r.error == NotA(UnsignedKind)
  {
    match Reach(a)
    case Err(e) => Err(e)
    case Ok(v) =>
      match AsU64(v)
      case Err(e) => Err(e)
      case Ok(n) => Ok(CastUnsigned(t, n))
  }

  /** `Ok(value?.i64()? as $t)` for a signed target. */
  function SignedFromValue(t: SignedTarget, a: Accessor): (r: Converted<int>)
    ensures r.Ok? <==> a.Present? && a.value.Number? && I64_MIN <= a.value.n < I64_LIMIT
    ensures r.Ok? ==> -SignedHalf(t) <= r.value < SignedHalf(t)
    ensures r.Ok? ==> r.value == CastSigned(t, a.value.n)
    ensures a.Missing? ==> r == Err(LookupFailed(a.reason))
    ensures a.Present? && r.Err? ==> r.error == NotA(SignedKind)
  {
    match Reach(a)
    case Err(e) => Err(e)
    case Ok(v) =>
      match AsI64(v)
      case Err(e) => Err(e)
      case Ok(n) => Ok(CastSigned(t, n))
  }

  /** Every value of an unsigned target survives being sent as a number and read back. */
  lemma UnsignedRoundTrip(t: UnsignedTarget, x: int)
    requires 0 <= x < UnsignedModulus(t)
    ensures UnsignedFromValue(t, Present(Number(x))) == Ok(x)
  {
  }

  /** Every value of a signed target survives being sent as a number and read back. */
  lemma SignedRoundTrip(t: SignedTarget, x: int)
    requires -SignedHalf(t) <= x < SignedHalf(t)
    ensures SignedFromValue(t, Present(Number(x))) == Ok(x)
  {
  }

  /** Out-of-range input is truncated, not rejected: 300 read as `u8` is 44, and 200 read as `i8` is -56. */
  lemma NarrowingTruncates()
    ensures UnsignedFromValue(U8, Present(Number(300))) == Ok(44)
    ensures SignedFromValue(I8, Present(Number(200))) == Ok(-56)
  {
  }

  /**
   * The signed impls only consult the signed accessor: a number above the signed
   * 64-bit range is refused even though the unsigned accessor would accept it.
   */
  lemma SignedIgnoresUnsignedAccessor(t: SignedTarget, n: int)
    requires I64_LIMIT <= n < U64_LIMIT
    ensures AsU64(Number(n)).Ok?
    ensures SignedFromValue(t, Present(Number(n))) == Err(NotA(SignedKind))
  {
  }

  // ---------------------------------------------------------------------------
  // Structural combinators
  // ---------------------------------------------------------------------------

  /** `impl FromValue for Option<T>`: a failed lookup and an explicit null are both `None`. */
  function OptionFromValue<T>(inner: Accessor -> Converted<T>, a: Accessor): (r: Converted<Option<T>>)
    ensures (r == Ok(None)) <==> a.Missing? || a.value.Null?
    ensures r.Ok? && r.value.Some? <==> a.Present? && !a.value.Null? && inner(a).Ok?
    ensures r.Ok? && r.value.Some? ==> inner(a) == Ok(r.value.value)
    ensures r.Err? <==> a.Present? && !a.value.Null? && inner(a).Err?
    ensures r.Err? ==> inner(a) == Err(r.error)
  {
    match a
    case Missing(_) => Ok(None)
    case Present(v) =>
      if v.Null? then Ok(None)
      else
        match inner(Present(v))
        case Err(e) => Err(e)
        case Ok(x) => Ok(Some(x))
  }

  /** `impl FromValue for MaybeUndefined<T>`. */
  function MaybeUndefinedFromValue<T>(inner: Accessor -> Converted<T>, a: Accessor): (r: Converted<MaybeUndefined<T>>)
    ensures a.Missing? <==> r == Ok(Undefined)
    ensures (a.Present? && a.value.Null?) <==> r == Ok(MaybeUndefined.Null)
    ensures r.Ok? && r.value.Value? <==> a.Present? && !a.value.Null? && inner(a).Ok?
    ensures r.Ok? && r.value.Value? ==> inner(a) == Ok(r.value.value)
    ensures r.Err? <==> a.Present? && !a.value.Null? && inner(a).Err?
    ensures r.Err? ==> inner(a) == Err(r.error)
  {
    match a
    case Missing(_) => Ok(Undefined)
    case Present(v) =>
      if v.Null? then Ok(MaybeUndefined.Null)
      else
        match inner(Present(v))
        case Err(e) => Err(e)
        case Ok(x) => Ok(Value(x))
  }

  /**
   * `iter().map(T::from_value).collect()`: converts every element in order and
   * stops at the first element that fails.
   */
  function CollectElements<T>(inner: Accessor -> Converted<T>, items: seq<ConstValue>): (r: Converted<seq<T>>)
    ensures r.Ok? <==> forall i :: 0 <= i < |items| ==> inner(Present(items[i])).Ok?
    ensures r.Ok? ==> |r.value| == |items|
    ensures r.Ok? ==> forall i :: 0 <= i < |items| ==> inner(Present(items[i])) == Ok(r.value[i])
  {
    if |items| == 0 then Ok([])
    else
      match inner(Present(items[0]))
      case Err(e) => Err(e)
      case Ok(x) =>
        match CollectElements(inner, items[1..])
        case Err(e) => Err(e)
        case Ok(xs) => Ok([x] + xs)
  }

  /** `impl FromValue for Vec<T>`: the node must be a list; its elements are collected. */
  function VecFromValue<T>(inner: Accessor -> Converted<T>, a: Accessor): (r: Converted<seq<T>>)
    ensures a.Missing? ==> r == Err(LookupFailed(a.reason))
    ensures a.Present? && !a.value.List? ==> r == Err(NotA(ListKind))
    ensures a.Present? && a.value.List? ==> r == CollectElements(inner, a.value.items)
  {
    match Reach(a)
    case Err(e) => Err(e)
    case Ok(v) =>
      match AsList(v)
      case Err(e) => Err(e)
      case Ok(items) => CollectElements(inner, items)
  }

  /** An empty list converts to an empty sequence, whatever the element type. */
  lemma VecOfEmptyList<T>(inner: Accessor -> Converted<T>)
    ensures VecFromValue(inner, Present(List([]))) == Ok([])
  {
  }

  /** The first failing element decides the error of the whole conversion. */
  lemma {:induction false} CollectStopsAtFirstFailure<T>(inner: Accessor -> Converted<T>, items: seq<ConstValue>, k: nat)
    requires k < |items|
    requires forall j :: 0 <= j < k ==> inner(Present(items[j])).Ok?
    requires inner(Present(items[k])).Err?
    ensures CollectElements(inner, items) == Err(inner(Present(items[k])).error)
  {
    if k > 0 {
      CollectStopsAtFirstFailure(inner, items[1..], k - 1);
    }
  }
}
