/**
 * `#[derive(SimpleObject)]`: a struct whose non-skipped fields become schema
 * fields, each resolved by reading the struct member directly.
 */
module SimpleObject {
  import opened Wrappers
  import opened Syn
  import Common
  import opened Codegen

  /** The `#[graphql(...)]` attributes of a field, with its doc comment. */
  datatype SimpleObjectFieldAttrs = SimpleObjectFieldAttrs(
    skip: bool,
    name: Option<string>,
    deprecation: Common.Deprecation,
    doc: Option<string>)

  /** What a field inherits from its object. */
  datatype SimpleObjectFieldContext = SimpleObjectFieldContext(renameFields: Option<Common.RenameRule>)

  /** One named struct field, its attributes and its context. */
  datatype SimpleObjectField = SimpleObjectField(
    attrs: SimpleObjectFieldAttrs,
    ctx: SimpleObjectFieldContext,
    ident: Ident,
    ty: Type)

  /** The `#[graphql(...)]` attributes of the struct, with its doc comment. */
  datatype SimpleObjectAttrs = SimpleObjectAttrs(
    name: Option<string>,
    renameFields: Option<Common.RenameRule>,
    doc: Option<string>)

  /** Every field with its context replaced by `ctx`. */
  function WithContext(fields: seq<SimpleObjectField>, ctx: SimpleObjectFieldContext): (r: seq<SimpleObjectField>)
    ensures |r| == |fields|
    ensures forall i :: 0 <= i < |r| ==> r[i].ctx == ctx
    ensures forall i :: 0 <= i < |r| ==>
              r[i].attrs == fields[i].attrs && r[i].ident == fields[i].ident && r[i].ty == fields[i].ty
  {
    seq(|fields|, i requires 0 <= i < |fields| => fields[i].(ctx := ctx))
  }

  /** The derived struct, as parsed; `set_context` updates its fields in place. */
  class SimpleObject {
    const ident: Ident
    const attrs: SimpleObjectAttrs
    var fields: seq<SimpleObjectField>

    /** `from_derive_input`: parse, then hand every field the object's context. */
    constructor FromDeriveInput(ident: Ident, attrs: SimpleObjectAttrs, parsed: seq<SimpleObjectField>)
      ensures this.ident == ident && this.attrs == attrs
      ensures fields == WithContext(parsed, MakeContext())
      ensures forall i :: 0 <= i < |fields| ==>
                Common.FieldRenameRule(FieldCapabilities(fields[i])) == Common.ObjectFieldsRenameRule(ObjectCapabilities(this))
    {
      this.ident := ident;
      this.attrs := attrs;
      this.fields := parsed;
      new;
      SetContext(MakeContext());
    }

    /** `make_context`: the context a field inherits is the object's `rename_fields`. */
    function MakeContext(): (ctx: SimpleObjectFieldContext)
      ensures ctx.renameFields == attrs.renameFields
    {
      SimpleObjectFieldContext(attrs.renameFields)
    }

    /** `set_context`: replaces the context of every field, one field at a time. */
    method SetContext(ctx: SimpleObjectFieldContext)
      modifies this
      ensures fields == WithContext(old(fields), ctx)
    {
      var i := 0;
      while i < |fields|
        invariant 0 <= i <= |fields| == |old(fields)|
        invariant forall k :: 0 <= k < i ==> fields[k] == old(fields)[k].(ctx := ctx)
        invariant forall k :: i <= k < |fields| ==> fields[k] == old(fields)[k]
      {
        fields := fields[i := fields[i].(ctx := ctx)];
        i := i + 1;
      }
    }
  }

  /** `impl CommonObject for SimpleObject`: name, ident, doc and the overridden fields rename rule. */
  function ObjectCapabilities(o: SimpleObject): (caps: Common.ObjectImpl)
    ensures caps.name == o.attrs.name && caps.ident == o.ident && caps.doc == o.attrs.doc
    ensures Common.ObjectFieldsRenameRule(caps) == o.attrs.renameFields
    ensures Common.ObjectArgsRenameRule(caps) == None
  {
    Common.ObjectImpl(o.attrs.name, o.ident, o.attrs.doc, Common.Overridden(o.attrs.renameFields), Common.Default)
  }

  /** `impl CommonField for SimpleObjectField`: the rename rule comes from the field's context. */
  function FieldCapabilities(f: SimpleObjectField): (caps: Common.FieldImpl)
    ensures caps.name == f.attrs.name && caps.skip == f.attrs.skip
    ensures caps.ident == f.ident && caps.ty == f.ty && caps.doc == f.attrs.doc
    ensures Common.FieldDeprecation(caps) == Ok(f.attrs.deprecation)
    ensures Common.FieldRenameRule(caps) == f.ctx.renameFields
    ensures Common.FieldArgsRenameRule(caps) == None
  {
    Common.FieldImpl(
      f.attrs.name, f.ident, f.ty, f.attrs.skip, f.attrs.doc,
      Common.Overridden(Ok(f.attrs.deprecation)),
      Common.Overridden(f.ctx.renameFields),
      Common.Default)
  }

  /** Handing out the object's context makes every field follow the object's rename rule. */
  lemma {:induction false} ContextPropagates(parsed: seq<SimpleObjectField>, attrs: SimpleObjectAttrs)
    ensures var fields := WithContext(parsed, SimpleObjectFieldContext(attrs.renameFields));
            forall i :: 0 <= i < |fields| ==>
              Common.FieldRenameRule(FieldCapabilities(fields[i])) == attrs.renameFields &&
              FieldNameOf(FieldCapabilities(fields[i])).renameRule == attrs.renameFields
  {
    var fields := WithContext(parsed, SimpleObjectFieldContext(attrs.renameFields));
    forall i | 0 <= i < |fields|
      ensures Common.FieldRenameRule(FieldCapabilities(fields[i])) == attrs.renameFields
    {
      assert fields[i].ctx.renameFields == attrs.renameFields;
    }
  }

  // ---------------------------------------------------------------------------
  // Which fields are emitted
  // ---------------------------------------------------------------------------

  /** `.filter(|field| !field.get_skip())`. */
  function NonSkipped(fields: seq<SimpleObjectField>): (r: seq<SimpleObjectField>)
    ensures |r| <= |fields|
    ensures forall k :: 0 <= k < |r| ==> !r[k].attrs.skip
  {
    if fields == [] then []
    else (if fields[0].attrs.skip then [] else [fields[0]]) + NonSkipped(fields[1..])
  }

  /** The positions, in declaration order, of the fields that are not skipped. */
  function KeptPositions(fields: seq<SimpleObjectField>): (ix: seq<nat>)
    ensures forall k :: 0 <= k < |ix| ==> ix[k] < |fields| && !fields[ix[k]].attrs.skip
    ensures forall k, l :: 0 <= k < l < |ix| ==> ix[k] < ix[l]
  {
    if fields == [] then []
    else
      var front := fields[..|fields| - 1];
      KeptPositions(front) + (if fields[|fields| - 1].attrs.skip then [] else [|fields| - 1])
  }

  /** No non-skipped field is missed: its position is among the kept ones. */
  lemma {:induction false} KeptPositionsComplete(fields: seq<SimpleObjectField>, i: nat)
    requires i < |fields| && !fields[i].attrs.skip
    ensures i in KeptPositions(fields)
  {
    var front := fields[..|fields| - 1];
    if i < |front| {
      assert front[i] == fields[i];
      KeptPositionsComplete(front, i);
    }
  }

  /**
   * The filter keeps exactly the non-skipped fields, in declaration order: its
   * k-th element is the field at the k-th kept position.
   */
  lemma {:induction false} NonSkippedInOrder(fields: seq<SimpleObjectField>)
    ensures |NonSkipped(fields)| == |KeptPositions(fields)|
    ensures forall k :: 0 <= k < |NonSkipped(fields)| ==> NonSkipped(fields)[k] == fields[KeptPositions(fields)[k]]
  {
    if fields != [] {
      var front := fields[..|fields| - 1];
      var last := fields[|fields| - 1];
      NonSkippedInOrder(front);
      NonSkippedSnoc(front, last);
      assert fields == front + [last];
      assert KeptPositions(fields) == KeptPositions(front) + (if last.attrs.skip then [] else [|front|]);
      SelectionSnoc(front, last, NonSkipped(front), KeptPositions(front), NonSkipped(fields), KeptPositions(fields));
    }
  }

  /** Extending a list by one element, and its selection by that element when it is kept, keeps the selection in step. */
  lemma SelectionSnoc<T>(front: seq<T>, last: T, kept: seq<T>, ix: seq<nat>, kept': seq<T>, ix': seq<nat>)
    requires |kept| == |ix|
    requires forall k :: 0 <= k < |ix| ==> ix[k] < |front| && kept[k] == front[ix[k]]
    requires (kept' == kept && ix' == ix) || (kept' == kept + [last] && ix' == ix + [|front|])
    ensures |kept'| == |ix'|
    ensures forall k :: 0 <= k < |kept'| ==> kept'[k] == (front + [last])[ix'[k]]
  {
    var all := front + [last];
    forall k | 0 <= k < |kept'|
      ensures kept'[k] == all[ix'[k]]
    {
      if k < |kept| {
        assert kept'[k] == kept[k] && ix'[k] == ix[k];
      }
    }
  }

  lemma {:induction false} NonSkippedSnoc(fields: seq<SimpleObjectField>, f: SimpleObjectField)
    ensures NonSkipped(fields + [f]) == NonSkipped(fields) + (if f.attrs.skip then [] else [f])
  {
    if fields == [] {
      assert [f][1..] == [];
    } else {
      assert (fields + [f])[1..] == fields[1..] + [f];
      NonSkippedSnoc(fields[1..], f);
    }
  }

  // ---------------------------------------------------------------------------
  // Resolvers
  // ---------------------------------------------------------------------------

  const RESOLVER_PREFIX: string := "__resolve_"

  /** `fn #resolver(&self) -> &#ty { &self.#field }`. */
  datatype ResolverFn = ResolverFn(name: Ident, returnsRefTo: Ident, ty: Type)

  /** `impl #ident { #(#resolvers)* }`. */
  datatype ResolversImpl = ResolversImpl(selfType: Ident, resolvers: seq<ResolverFn>)

  const NOT_AN_IDENT: string := "is not a valid identifier"

  /**
   * `get_resolver_ident` as written: the resolver name is formatted from the
   * identifier's `Display` text and handed to `Ident::new`, which panics on text
   * that is not an identifier.  A raw field identifier such as `r#type` displays
   * with its `r#` marker, so the derive aborts on it.
   */
  function GetResolverIdentAsWritten(f: Common.FieldImpl): (r: Generated<Ident>)
    ensures IsIdentText(f.ident.name) ==> (r.Code? <==> !f.ident.raw)
    ensures r.Code? ==> r.code.name == RESOLVER_PREFIX + IdentText(f.ident) && r.code.span == f.ident.span
    ensures r.Panic? ==> r.message == NOT_AN_IDENT
  {
    var text := RESOLVER_PREFIX + IdentText(f.ident);
    assert f.ident.raw ==> text[|RESOLVER_PREFIX| + 1] == '#';
    if IsIdentText(text) then Code(Ident(text, f.ident.span, false)) else Panic(NOT_AN_IDENT)
  }

  /** The counterexample: a field declared as `r#type` makes the resolver name `__resolve_r#type`, and the derive panics. */
  lemma RawFieldIdentAborts(f: Common.FieldImpl)
    requires f.ident == Ident("type", f.ident.span, true)
    ensures GetResolverIdentAsWritten(f) == Panic(NOT_AN_IDENT)
  {
  }

  /**
   * `get_resolver_ident`, corrected: `__resolve_` followed by the identifier's
   * name without any `r#` marker, at the identifier's span.  It never panics.
   */
  function GetResolverIdent(f: Common.FieldImpl): (r: Ident)
    ensures |r.name| == |RESOLVER_PREFIX| + |f.ident.name|
    ensures r.name[..|RESOLVER_PREFIX|] == RESOLVER_PREFIX
    ensures r.name[|RESOLVER_PREFIX|..] == f.ident.name
    ensures r.span == f.ident.span && !r.raw
    ensures IsIdentText(f.ident.name) ==> IsIdentText(r.name)
  {
    Ident(RESOLVER_PREFIX + f.ident.name, f.ident.span, false)
  }

  /** On every identifier the code as written accepts, the corrected resolver name is the same. */
  lemma ResolverIdentAgreesOffRaw(f: Common.FieldImpl)
    requires !f.ident.raw && IsIdentText(f.ident.name)
    ensures GetResolverIdentAsWritten(f) == Code(GetResolverIdent(f))
  {
  }

  /** Distinct field identifiers give distinct resolver identifiers. */
  lemma ResolverIdentInjective(f: Common.FieldImpl, g: Common.FieldImpl)
    requires GetResolverIdent(f).name == GetResolverIdent(g).name
    ensures f.ident.name == g.ident.name
  {
    assert f.ident.name == GetResolverIdent(f).name[|RESOLVER_PREFIX|..];
  }

  /** `impl_resolver`: a resolver that returns a reference to the field. */
  function ImplResolver(f: SimpleObjectField): (r: ResolverFn)
    ensures r.name == GetResolverIdent(FieldCapabilities(f))
    ensures r.returnsRefTo == f.ident && r.ty == f.ty
  {
    var caps := FieldCapabilities(f);
    ResolverFn(GetResolverIdent(caps), caps.ident, caps.ty)
  }

  /** `impl_resolvers`: one resolver per non-skipped field, in declaration order. */
  function ImplResolvers(o: SimpleObject): (r: ResolversImpl)
    reads o
    ensures r.selfType == o.ident
    ensures |r.resolvers| == |NonSkipped(o.fields)|
    ensures forall k :: 0 <= k < |r.resolvers| ==> r.resolvers[k] == ImplResolver(NonSkipped(o.fields)[k])
  {
    var kept := NonSkipped(o.fields);
    ResolversImpl(o.ident, seq(|kept|, k requires 0 <= k < |kept| => ImplResolver(kept[k])))
  }

  /** Every emitted resolver belongs to a non-skipped field, and they come in declaration order. */
  lemma ResolversFollowDeclarations(o: SimpleObject, k: nat)
    requires k < |ImplResolvers(o).resolvers| && k < |KeptPositions(o.fields)|
    ensures var i := KeptPositions(o.fields)[k];
            i < |o.fields| && !o.fields[i].attrs.skip &&
            ImplResolvers(o).resolvers[k].returnsRefTo == o.fields[i].ident &&
            ImplResolvers(o).resolvers[k].name.name == RESOLVER_PREFIX + o.fields[i].ident.name
  {
    NonSkippedInOrder(o.fields);
    var i := KeptPositions(o.fields)[k];
    var name := ImplResolvers(o).resolvers[k].name.name;
    assert name == RESOLVER_PREFIX + o.fields[i].ident.name;
  }

  // ---------------------------------------------------------------------------
  // Field definitions and the register function
  // ---------------------------------------------------------------------------

  /**
   * `impl_define_field`: define the field (resolved through its resolver), add its
   * description and deprecation, then attach it to the object builder.
   */
  function ImplDefineField(f: SimpleObjectField): (r: seq<Fragment>)
    ensures |r| == 4
    ensures r[0] == DefineField(FieldNameOf(FieldCapabilities(f)), f.ty, GetResolverIdent(FieldCapabilities(f)))
    ensures r[1] == FieldDescription(f.attrs.doc)
    ensures r[2] == FieldDeprecationCode(f.attrs.deprecation)
    ensures r[3] == AttachField
  {
    var caps := FieldCapabilities(f);
    [DefineField(FieldNameOf(caps), caps.ty, GetResolverIdent(caps)),
     FieldDescription(caps.doc),
     FieldDeprecationCode(f.attrs.deprecation),
     AttachField]
  }

  /** The concatenated definitions of the given fields. */
  function DefineAll(kept: seq<SimpleObjectField>): (r: seq<Fragment>)
    ensures |r| == 4 * |kept|
  {
    if kept == [] then [] else ImplDefineField(kept[0]) + DefineAll(kept[1..])
  }

  /** `get_define_fields`: the definitions of the non-skipped fields, in declaration order. */
  function GetDefineFields(o: SimpleObject): (r: seq<Fragment>)
    reads o
    ensures |r| == 4 * |NonSkipped(o.fields)|
  {
    DefineAll(NonSkipped(o.fields))
  }

  /** The field definitions follow declaration order: the k-th block defines the k-th non-skipped field. */
  lemma GetDefineFieldsInOrder(o: SimpleObject, k: nat)
    requires k < |KeptPositions(o.fields)|
    ensures 4 * k + 4 <= |GetDefineFields(o)|
    ensures GetDefineFields(o)[4 * k .. 4 * k + 4] == ImplDefineField(o.fields[KeptPositions(o.fields)[k]])
  {
    NonSkippedInOrder(o.fields);
    DefineAllLayout(NonSkipped(o.fields), k);
  }

  /** The k-th block of four fragments defines the k-th field. */
  lemma {:induction false} DefineAllLayout(kept: seq<SimpleObjectField>, k: nat)
    requires k < |kept|
    ensures 4 * k + 4 <= |DefineAll(kept)|
    ensures DefineAll(kept)[4 * k .. 4 * k + 4] == ImplDefineField(kept[k])
  {
    if k > 0 {
      DefineAllLayout(kept[1..], k - 1);
      var head, tail := ImplDefineField(kept[0]), DefineAll(kept[1..]);
      assert DefineAll(kept) == head + tail;
      SliceAfterBlock(head, tail, k - 1);
    }
  }

  /** Past a leading block of four, a block of four is the matching block of the rest. */
  lemma SliceAfterBlock<T>(head: seq<T>, tail: seq<T>, j: nat)
    requires |head| == 4 && 4 * j + 4 <= |tail|
    ensures (head + tail)[4 * j + 4 .. 4 * j + 8] == tail[4 * j .. 4 * j + 4]
  {
  }

  /** The fields a register function defines, in the order it defines them. */
  function DefinedFieldNames(body: seq<Fragment>): (names: seq<FieldName>)
    ensures |names| <= |body|
  {
    if body == [] then []
    else (if body[0].DefineField? then [body[0].name] else []) + DefinedFieldNames(body[1..])
  }

  /** The definitions define the kept fields, each once, in the order given. */
  lemma {:induction false} DefineAllNames(kept: seq<SimpleObjectField>)
    ensures DefinedFieldNames(DefineAll(kept))
            == seq(|kept|, k requires 0 <= k < |kept| => FieldNameOf(FieldCapabilities(kept[k])))
  {
    if kept != [] {
      var block := ImplDefineField(kept[0]);
      DefineAllNames(kept[1..]);
      DefinedFieldNamesAppend(block, DefineAll(kept[1..]));
      BlockDefinesOneName(kept[0]);
      assert DefineAll(kept) == block + DefineAll(kept[1..]);
    }
  }

  /** One field's block of fragments defines exactly that field's name. */
  lemma BlockDefinesOneName(f: SimpleObjectField)
    ensures DefinedFieldNames(ImplDefineField(f)) == [FieldNameOf(FieldCapabilities(f))]
  {
    var block := ImplDefineField(f);
    assert DefinedFieldNames(block[3..]) == [] by {
      assert block[3..][1..] == [];
    }
    assert DefinedFieldNames(block[2..]) == [] by {
      assert block[2..][1..] == block[3..];
    }
    assert DefinedFieldNames(block[1..]) == [] by {
      assert block[1..][1..] == block[2..];
    }
  }

  lemma {:induction false} DefinedFieldNamesAppend(a: seq<Fragment>, b: seq<Fragment>)
    ensures DefinedFieldNames(a + b) == DefinedFieldNames(a) + DefinedFieldNames(b)
  {
    if a == [] {
      assert a + b == b;
    } else {
      assert (a + b)[0] == a[0];
      assert (a + b)[1..] == a[1..] + b;
      DefinedFieldNamesAppend(a[1..], b);
    }
  }

  /**
   * The `FooNode` object of the node test: its `id` member is skipped, so the only
   * field it defines itself is `name` (the interface supplies `id` afterwards).
   */
  lemma FooNodeDefinesName(idIdent: Ident, nameIdent: Ident, stringType: Type, ctx: SimpleObjectFieldContext)
    ensures var idField := SimpleObjectField(SimpleObjectFieldAttrs(true, None, Common.NoDeprecated, None), ctx, idIdent, stringType);
            var nameField := SimpleObjectField(SimpleObjectFieldAttrs(false, None, Common.NoDeprecated, None), ctx, nameIdent, stringType);
            DefinedFieldNames(DefineAll(NonSkipped([idField, nameField]))) == [FieldName(None, nameIdent, ctx.renameFields)]
  {
    var idField := SimpleObjectField(SimpleObjectFieldAttrs(true, None, Common.NoDeprecated, None), ctx, idIdent, stringType);
    var nameField := SimpleObjectField(SimpleObjectFieldAttrs(false, None, Common.NoDeprecated, None), ctx, nameIdent, stringType);
    assert NonSkipped([idField, nameField]) == [nameField] by {
      assert [idField, nameField][1..] == [nameField];
      assert [nameField][1..] == [];
    }
    DefineAllNames([nameField]);
  }

  /** `impl_register`: define the object, describe it, define its fields, then submit it. */
  function ImplRegister(o: SimpleObject): (r: RegisterImpl)
    reads o
    ensures r.target == o.ident
    ensures |r.body| >= 3
    ensures r.body[0] == DefineObject
    ensures r.body[1] == ObjectDescription(o.attrs.doc)
    ensures r.body[2..|r.body| - 1] == GetDefineFields(o)
    ensures r.body[|r.body| - 1] == RegisterObject
  {
    RegisterImpl(o.ident, [DefineObject, ObjectDescription(o.attrs.doc)] + GetDefineFields(o) + [RegisterObject])
  }

  // ---------------------------------------------------------------------------
  // The whole expansion
  // ---------------------------------------------------------------------------

  /** The whole derived object, as the helpers that receive `self` see it. */
  datatype ObjectValue = ObjectValue(ident: Ident, attrs: SimpleObjectAttrs, fields: seq<SimpleObjectField>)

  function Snapshot(o: SimpleObject): (v: ObjectValue)
    reads o
    ensures v.ident == o.ident && v.attrs == o.attrs && v.fields == o.fields
  {
    ObjectValue(o.ident, o.attrs, o.fields)
  }

  /** The five items the derive emits. */
  datatype Item =
    | ImplObject(object: ObjectValue)        // `common::impl_object(self)`
    | ImplResolveOwned(object: ObjectValue)  // `common::impl_resolve_owned(self)`
    | ImplResolveRef(object: ObjectValue)    // `common::impl_resolve_ref(self)`
    | Resolvers(resolvers: ResolversImpl)
    | Register(register: RegisterImpl)

  /** The token buffer a derive appends to. */
  class TokenStream {
    var items: seq<Item>

    constructor ()
      ensures items == []
    {
      items := [];
    }
  }

  /** `to_tokens`: appends the object, resolve, resolver and register items, in that order. */
  method ToTokens(o: SimpleObject, tokens: TokenStream)
    modifies tokens
    ensures tokens.items == old(tokens.items) +
              [ImplObject(Snapshot(o)), ImplResolveOwned(Snapshot(o)), ImplResolveRef(Snapshot(o)),
               Resolvers(ImplResolvers(o)), Register(ImplRegister(o))]
  {
    tokens.items := tokens.items +
      [ImplObject(Snapshot(o)), ImplResolveOwned(Snapshot(o)), ImplResolveRef(Snapshot(o)),
       Resolvers(ImplResolvers(o)), Register(ImplRegister(o))];
  }
}
