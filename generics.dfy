/**
 * The lifetime-erasure normaliser: producing the `'static` variant of a type, and
 * adding the crate's own lifetime parameter to a generics list.
 */
module Generics {
  import opened Wrappers
  import opened Syn

  /** The name of the lifetime parameter the derive macros add. */
  const DYNAMIC_LIFETIME: string := "__dynamic_graphql_lifetime"

  /** The name every erased lifetime gets. */
  const STATIC: string := "static"

  /**
   * `add_new_lifetime_to_generics`: a copy of the generics with
   * `'__dynamic_graphql_lifetime` pushed onto its parameters, and that parameter.
   */
  method AddNewLifetimeToGenerics(generics: Generics, span: Span) returns (extended: Generics, lifetime: GenericParam)
    ensures lifetime == LifetimeParam(Lifetime(Ident(DYNAMIC_LIFETIME, span, false)))
    ensures |extended.params| == |generics.params| + 1
    ensures extended.params[..|generics.params|] == generics.params
    ensures extended.params[|generics.params|] == lifetime
    ensures extended.wherePredicates == generics.wherePredicates
  {
    extended := generics;
    lifetime := LifetimeParam(Lifetime(Ident(DYNAMIC_LIFETIME, span, false)));
    extended := extended.(params := extended.params + [lifetime]);
  }

  // ---------------------------------------------------------------------------
  // The normaliser as a specification
  // ---------------------------------------------------------------------------

  /** `lifetime.ident = Ident::new("static", lifetime.ident.span())`. */
  function MakeStatic(l: Lifetime): (r: Lifetime)
    ensures r.ident.name == STATIC && r.ident.span == l.ident.span && !r.ident.raw
  {
    Lifetime(Ident(STATIC, l.ident.span, false))
  }

  /** The normalised form of a type, as `replace_type_generics_with_static` computes it. */
  function EraseType(t: Type): (r: Type)
    ensures t.PathType? <==> r.PathType?
    ensures t.PathType? ==> |r.segments| == |t.segments|
    ensures t.ReferenceType? ==>
              r.ReferenceType? && r.mutable == t.mutable && r.elem == t.elem &&
              (r.lifetime.Some? <==> t.lifetime.Some?)
    ensures t.OtherType? ==> r == t
  {
    match t
    case PathType(segments) => PathType(EraseSegments(segments))
    case ReferenceType(lifetime, mutable, elem) =>
      ReferenceType(if lifetime.Some? then Some(MakeStatic(lifetime.value)) else None, mutable, elem)
    case OtherType(_) => t
  }

  function EraseSegments(segments: seq<PathSegment>): seq<PathSegment>
  {
    seq(|segments|, k requires 0 <= k < |segments| => EraseSegment(segments[k]))
  }

  /** Only angle-bracketed arguments are visited; other segments are kept as they are. */
  function EraseSegment(segment: PathSegment): (r: PathSegment)
    ensures r.ident == segment.ident
    ensures !segment.arguments.AngleBracketed? ==> r == segment
    ensures segment.arguments.AngleBracketed? ==>
              r.arguments.AngleBracketed? && |r.arguments.args| == |segment.arguments.args|
  {
    match segment.arguments
    case AngleBracketed(args) => segment.(arguments := AngleBracketed(EraseArgs(args)))
    case _ => segment
  }

  function EraseArgs(args: seq<GenericArgument>): seq<GenericArgument>
  {
    seq(|args|, k requires 0 <= k < |args| => EraseArg(args[k]))
  }

  /** A type argument is normalised recursively, a lifetime becomes `'static`, anything else is kept. */
  function EraseArg(arg: GenericArgument): (r: GenericArgument)
    ensures arg.TypeArg? <==> r.TypeArg?
    ensures arg.LifetimeArg? <==> r.LifetimeArg?
    ensures arg.LifetimeArg? ==> r.lifetime.ident.name == STATIC && r.lifetime.ident.span == arg.lifetime.ident.span
    ensures !arg.TypeArg? && !arg.LifetimeArg? ==> r == arg
  {
    match arg
    case TypeArg(ty) => TypeArg(EraseType(ty))
    case LifetimeArg(l) => LifetimeArg(MakeStatic(l))
    case _ => arg
  }

  // ---------------------------------------------------------------------------
  // The normaliser as the source runs it: clone, then rewrite in place
  // ---------------------------------------------------------------------------

  /** `replace_type_generics_with_static`: walks the segments and their arguments, rewriting each slot. */
  method ReplaceTypeGenericsWithStatic(ty: Type) returns (r: Type)
    ensures r == EraseType(ty)
    ensures Erased(r)
    ensures SameShape(ty, r)
  {
    r := ty;
    match r {
      case PathType(segments) =>
        var segs := segments;
        var i := 0;
        while i < |segs|
          invariant 0 <= i <= |segs| == |segments|
          invariant forall k :: 0 <= k < i ==> segs[k] == EraseSegment(segments[k])
          invariant forall k :: i <= k < |segs| ==> segs[k] == segments[k]
        {
          if segs[i].arguments.AngleBracketed? {
            ghost var original := segments[i].arguments.args;
            var args := segs[i].arguments.args;
            var j := 0;
            while j < |args|
              invariant 0 <= j <= |args| == |original|
              invariant forall k :: 0 <= k < j ==> args[k] == EraseArg(original[k])
              invariant forall k :: j <= k < |args| ==> args[k] == original[k]
            {
              match args[j] {
                case TypeArg(t) =>
                  assert t < ty by {
                    assert args[j] in original;
                  }
                  var t' := ReplaceTypeGenericsWithStatic(t);
                  args := args[j := TypeArg(t')];
                case LifetimeArg(l) =>
                  args := args[j := LifetimeArg(MakeStatic(l))];
                case _ =>
              }
              j := j + 1;
            }
            assert args == EraseArgs(original);
            segs := segs[i := segs[i].(arguments := AngleBracketed(args))];
          }
          i := i + 1;
        }
        r := PathType(segs);
      case ReferenceType(lifetime, _, _) =>
        if lifetime.Some? {
          r := r.(lifetime := Some(MakeStatic(lifetime.value)));
        }
      case OtherType(_) =>
    }
    ErasedResult(ty);
    ShapePreserved(ty);
  }

  // ---------------------------------------------------------------------------
  // What the normaliser guarantees
  // ---------------------------------------------------------------------------

  /**
   * A type is erased when every lifetime the normaliser visits is `'static`: the
   * lifetime arguments of path segments (recursively through type arguments) and
   * the reference's own lifetime.  The referenced element type is not visited.
   */
  predicate Erased(t: Type) {
    match t
    case PathType(segments) => forall k :: 0 <= k < |segments| ==> ErasedSegment(segments[k])
    case ReferenceType(lifetime, _, _) => lifetime.None? || IsStatic(lifetime.value)
    case OtherType(_) => true
  }

  /** `'static`, written as a plain identifier. */
  predicate IsStatic(l: Lifetime) {
    l.ident.name == STATIC && !l.ident.raw
  }

  predicate ErasedSegment(segment: PathSegment) {
    segment.arguments.AngleBracketed? ==>
      forall k :: 0 <= k < |segment.arguments.args| ==> ErasedArg(segment.arguments.args[k])
  }

  predicate ErasedArg(arg: GenericArgument) {
    match arg
    case TypeArg(ty) => Erased(ty)
    case LifetimeArg(l) => IsStatic(l)
    case _ => true
  }

  /**
   * Two types have the same shape when they differ at most in the names of the
   * lifetimes the normaliser visits: same kinds, segment idents, argument counts
   * and argument kinds, and the same lifetime spans.
   */
  predicate SameShape(a: Type, b: Type) {
    match a
    case PathType(sa) =>
      b.PathType? && |sa| == |b.segments| &&
      forall k :: 0 <= k < |sa| ==> SameSegmentShape(sa[k], b.segments[k])
    case ReferenceType(la, ma, ea) =>
      b.ReferenceType? && ma == b.mutable && ea == b.elem &&
      la.Some? == b.lifetime.Some? &&
      (la.Some? ==> la.value.ident.span == b.lifetime.value.ident.span)
    case OtherType(_) => a == b
  }

  predicate SameSegmentShape(a: PathSegment, b: PathSegment) {
    a.ident == b.ident &&
    match a.arguments
    case AngleBracketed(xs) =>
      b.arguments.AngleBracketed? && |xs| == |b.arguments.args| &&
      forall k :: 0 <= k < |xs| ==> SameArgShape(xs[k], b.arguments.args[k])
    case _ => a.arguments == b.arguments
  }

  predicate SameArgShape(a: GenericArgument, b: GenericArgument) {
    match a
    case TypeArg(ta) => b.TypeArg? && SameShape(ta, b.ty)
    case LifetimeArg(la) => b.LifetimeArg? && la.ident.span == b.lifetime.ident.span
    case _ => a == b
  }

  /** After normalisation every visited lifetime is `'static`. */
  lemma {:induction false} ErasedResult(t: Type)
    ensures Erased(EraseType(t))
  {
    match t
    case PathType(segments) =>
      forall k | 0 <= k < |segments|
        ensures ErasedSegment(EraseSegment(segments[k]))
      {
        ErasedSegmentResult(segments[k]);
      }
    case ReferenceType(_, _, _) =>
    case OtherType(_) =>
  }

  lemma {:induction false} ErasedSegmentResult(segment: PathSegment)
    ensures ErasedSegment(EraseSegment(segment))
  {
    match segment.arguments
    case AngleBracketed(args) =>
      forall k | 0 <= k < |args|
        ensures ErasedArg(EraseArg(args[k]))
      {
        if args[k].TypeArg? {
          ErasedResult(args[k].ty);
        }
      }
    case _ =>
  }

  /** A type that is already erased is left exactly as it is. */
  lemma {:induction false} ErasedIsFixpoint(t: Type)
    requires Erased(t)
    ensures EraseType(t) == t
  {
    match t
    case PathType(segments) =>
      forall k | 0 <= k < |segments|
        ensures EraseSegment(segments[k]) == segments[k]
      {
        ErasedSegmentIsFixpoint(segments[k]);
      }
      assert EraseSegments(segments) == segments;
    case ReferenceType(_, _, _) =>
    case OtherType(_) =>
  }

  lemma {:induction false} ErasedSegmentIsFixpoint(segment: PathSegment)
    requires ErasedSegment(segment)
    ensures EraseSegment(segment) == segment
  {
    match segment.arguments
    case AngleBracketed(args) =>
      forall k | 0 <= k < |args|
        ensures EraseArg(args[k]) == args[k]
      {
        if args[k].TypeArg? {
          ErasedIsFixpoint(args[k].ty);
        }
      }
      assert EraseArgs(args) == args;
    case _ =>
  }

  /** Normalising twice is the same as normalising once. */
  lemma EraseIdempotent(t: Type)
    ensures EraseType(EraseType(t)) == EraseType(t)
  {
    ErasedResult(t);
    ErasedIsFixpoint(EraseType(t));
  }

  /** Normalisation keeps the shape of the tree and every span. */
  lemma {:induction false} ShapePreserved(t: Type)
    ensures SameShape(t, EraseType(t))
  {
    match t
    case PathType(segments) =>
      forall k | 0 <= k < |segments|
        ensures SameSegmentShape(segments[k], EraseSegment(segments[k]))
      {
        SegmentShapePreserved(segments[k]);
      }
    case ReferenceType(_, _, _) =>
    case OtherType(_) =>
  }

  lemma {:induction false} SegmentShapePreserved(segment: PathSegment)
    ensures SameSegmentShape(segment, EraseSegment(segment))
  {
    match segment.arguments
    case AngleBracketed(args) =>
      forall k | 0 <= k < |args|
        ensures SameArgShape(args[k], EraseArg(args[k]))
      {
        if args[k].TypeArg? {
          ShapePreserved(args[k].ty);
        }
      }
    case _ =>
  }

  /**
   * Only the reference's own lifetime is rewritten: `&'a Foo<'b>` becomes
   * `&'static Foo<'b>`, whereas `Foo<&'a Bar<'b>>` becomes `Foo<&'static Bar<'b>>`.
   */
  lemma ReferenceElementNotRewritten(a: Span, b: Span, foo: Ident, bar: Ident)
    ensures var inner := PathType([PathSegment(foo, AngleBracketed([LifetimeArg(Lifetime(Ident("b", b, false)))]))]);
            EraseType(ReferenceType(Some(Lifetime(Ident("a", a, false))), false, inner))
            == ReferenceType(Some(Lifetime(Ident(STATIC, a, false))), false, inner)
    ensures var inner := PathType([PathSegment(bar, AngleBracketed([LifetimeArg(Lifetime(Ident("b", b, false)))]))]);
            var outer := PathType([PathSegment(foo, AngleBracketed([TypeArg(ReferenceType(Some(Lifetime(Ident("a", a, false))), false, inner))]))]);
            EraseType(outer)
            == PathType([PathSegment(foo, AngleBracketed([TypeArg(ReferenceType(Some(Lifetime(Ident(STATIC, a, false))), false, inner))]))])
  {
    var inner := PathType([PathSegment(bar, AngleBracketed([LifetimeArg(Lifetime(Ident("b", b, false)))]))]);
    var args := [TypeArg(ReferenceType(Some(Lifetime(Ident("a", a, false))), false, inner))];
    var erasedArgs := [TypeArg(ReferenceType(Some(Lifetime(Ident(STATIC, a, false))), false, inner))];
    assert EraseArg(args[0]) == erasedArgs[0];
    assert EraseArgs(args) == erasedArgs;
    var segment := PathSegment(foo, AngleBracketed(args));
    assert EraseSegments([segment]) == [EraseSegment(segment)];
  }
}
