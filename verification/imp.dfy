/** Implementation site: an `impl Trait for Type` block registered against
    a declared trait. It is checked, followed by the size assertion, and
    then the trait's binder macro is invoked for the concrete type. */
module Imp {
  import opened Wrappers
  import opened Syntax
  import Args

  /** An impl block as parsed; `traitPath` is `None` for an inherent impl.
      The items of the block are passed through untouched and not modelled. */
  datatype ItemImpl = ItemImpl(
    unsafety: bool,
    genericParams: seq<string>,
    whereClause: Option<seq<string>>,
    traitPath: Option<Path>,
    selfTy: Type)

  /** `assert!(size_of::<T>() <= size_of::<usize>() * 2, ...)` in a `const _`. */
  datatype SizeAssertion = SizeAssertion(ty: Type)

  /** `Trait!(Trait: Type)`: the binder invoked through the trait's path. */
  datatype BinderCall = BinderCall(macroPath: Path, traitArg: Path, ty: Type)

  /** The impl as written, then the size assertion, then the binder call. */
  datatype ImpOutput = ImpOutput(item: ItemImpl, sizeAssertion: SizeAssertion, call: BinderCall)

  const ExpectedTraitImpl := "expected a trait impl"
  const ImplsMayNotHaveGenerics := "#[extern_trait] impls may not have generics"
  const ImplsMayNotHaveWhereClause := "#[extern_trait] impls may not have a where clause"
  const TooLarge := " is too large to be used with #[extern_trait]"

  /** `imp::expand`. The checks run in the order trait impl, generic
      parameters, where-clause; an empty `where` is refused too. */
  function Expand(input: ItemImpl): (r: Result<ImpOutput, Error>)
    ensures input.traitPath.None? ==> r == Err(Error(ExpectedTraitImpl, CallSite))
    ensures input.traitPath.Some? && |input.genericParams| > 0 ==> r == Err(Error(ImplsMayNotHaveGenerics, AtGenerics))
    ensures input.traitPath.Some? && |input.genericParams| == 0 && input.whereClause.Some? ==>
              r == Err(Error(ImplsMayNotHaveWhereClause, AtWhereClause))
    ensures r.Ok? <==> input.traitPath.Some? && |input.genericParams| == 0 && input.whereClause.None?
    ensures r.Ok? ==>
              && r.value.item == input
              && r.value.sizeAssertion.ty == input.selfTy
              && r.value.call.macroPath == r.value.call.traitArg == input.traitPath.value
              && r.value.call.ty == input.selfTy
  {
    match input.traitPath
    case None => Err(Error(ExpectedTraitImpl, CallSite))
    case Some(path) =>
      if |input.genericParams| > 0 then Err(Error(ImplsMayNotHaveGenerics, AtGenerics))
      else if input.whereClause.Some? then Err(Error(ImplsMayNotHaveWhereClause, AtWhereClause))
      else Ok(ImpOutput(input, SizeAssertion(input.selfTy), BinderCall(path, path, input.selfTy)))
  }

  /** Whether the impl is written `unsafe impl` plays no part in the
      registration: it is neither checked nor changed. */
  lemma UnsafetyNotChecked(input: ItemImpl)
    ensures Expand(input).Ok? <==> Expand(input.(unsafety := !input.unsafety)).Ok?
    ensures Expand(input).Ok? ==> Expand(input).value.item.unsafety == input.unsafety
  {
  }

  /** The compiler's evaluation of the size assertion, given the size of the
      implementing type and of `usize` in bytes and the `stringify!`
      rendering of the type. */
  function CheckSize(a: SizeAssertion, size: nat, wordSize: nat, render: Type -> string): (r: Result<(), Error>)
    ensures r.Err? ==> r.error == Error(render(a.ty) + TooLarge, AtType(a.ty))
  {
    if size <= wordSize * 2 then Ok(()) else Err(Error(render(a.ty) + TooLarge, AtType(a.ty)))
  }

  /** A type of exactly two words passes; one byte more fails. */
  lemma SizeBoundary(a: SizeAssertion, wordSize: nat, render: Type -> string)
    ensures CheckSize(a, 2 * wordSize, wordSize, render).Ok?
    ensures CheckSize(a, 2 * wordSize + 1, wordSize, render) == Err(Error(render(a.ty) + TooLarge, AtType(a.ty)))
  {
  }

  /** The assertion passes exactly for the types that fit in the proxy's
      storage: the value of any accepted type can be held by a proxy. */
  lemma AcceptedTypeFitsProxy(a: SizeAssertion, size: nat, wordSize: nat, render: Type -> string, p: Args.Proxy)
    ensures CheckSize(a, size, wordSize, render).Ok? <==> size <= Args.PointerStructSize(Args.ToItemStruct(p), wordSize)
  {
  }
}
