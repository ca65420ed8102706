/**
 * `impl_suppress_tupple_clippy_error`: a hidden method that reads every
 * member of a tuple struct once, so that none is reported as unused.
 */
module ClippyError {
  import opened Syn

  /** `generics.split_for_impl()`: the impl parameters, the type arguments and the where-clause. */
  datatype SplitGenerics = SplitGenerics(implGenerics: seq<GenericParam>, typeGenerics: seq<GenericParam>, whereClause: seq<string>)

  /**
   * `impl #impl_generics #ident #ty_generics #where_clause { fn __suppress_clippy_error(&self) { accesses } }`;
   * each access `let _ = self.#index;` is recorded by its index.
   */
  datatype SuppressImpl = SuppressImpl(generics: SplitGenerics, ident: Ident, accesses: seq<nat>)

  function SplitForImpl(g: Generics): (s: SplitGenerics)
    ensures s.implGenerics == g.params && s.typeGenerics == g.params && s.whereClause == g.wherePredicates
  {
    SplitGenerics(g.params, g.params, g.wherePredicates)
  }

  /** `(0..len).map(|index| quote!(let _ = self.#index;)).collect()`: the accesses, in increasing order. */
  function Accesses(len: nat): (r: seq<nat>)
    ensures |r| == len
    ensures forall i :: 0 <= i < len ==> r[i] == i
  {
    if len == 0 then [] else Accesses(len - 1) + [len - 1]
  }

  /** Every member below `len` is read exactly once, and nothing else is read. */
  lemma {:induction false} EachMemberOnce(len: nat, k: nat)
    ensures multiset(Accesses(len))[k] == if k < len then 1 else 0
  {
    if len > 0 {
      var last: nat := len - 1;
      EachMemberOnce(last, k);
      CountAfterAppend(Accesses(last), last, k);
    }
  }

  /** Appending x to a sequence adds one to the count of x and leaves every other count alone. */
  lemma CountAfterAppend(s: seq<nat>, x: nat, k: nat)
    ensures multiset(s + [x])[k] == multiset(s)[k] + (if k == x then 1 else 0)
  {
    assert multiset(s + [x]) == multiset(s) + multiset{x};
  }

  /** The accesses are strictly increasing. */
  lemma AccessesIncreasing(len: nat)
    ensures forall i, j :: 0 <= i < j < len ==> Accesses(len)[i] < Accesses(len)[j]
  {
  }

  function ImplSuppressTuppleClippyError(ident: Ident, generics: Generics, len: nat): (r: SuppressImpl)
    ensures r.ident == ident
    ensures r.generics == SplitForImpl(generics)
    ensures |r.accesses| == len
    ensures forall i :: 0 <= i < len ==> r.accesses[i] == i
    ensures len == 0 ==> r.accesses == []
  {
    SuppressImpl(SplitForImpl(generics), ident, Accesses(len))
  }
}
