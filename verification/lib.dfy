/** The attribute entry point, and what the two sites agree on once an
    implementation expands the binder the declaration published. */
module Lib {
  import opened Wrappers
  import opened Syntax
  import Args
  import Decl
  import Imp

  /** The item the attribute is attached to, as far as it parses. */
  datatype Item = TraitInput(itemTrait: Decl.ItemTrait) | ImplInput(itemImpl: Imp.ItemImpl) | OtherInput

  datatype Expansion = Declared(decl: Decl.DeclOutput) | Registered(registration: Imp.ImpOutput)

  /** `extern_trait`: with arguments, a declaration (the arguments name the
      proxy and the item must be a trait); without, a registration (the
      item must be an impl). Any error becomes the expansion's compile
      error. */
  function ExternTrait(args: seq<Args.Token>, input: Item, env: Decl.PkgEnv, into: Decl.IntoTypeFor, render: Type -> string): (r: Result<Expansion, Error>)
    ensures |args| > 0 && Args.Parse(args).Err? ==> r == Err(SyntaxError)
    ensures |args| > 0 && Args.Parse(args).Ok? && !input.TraitInput? ==> r == Err(SyntaxError)
    ensures |args| > 0 && Args.Parse(args).Ok? && input.TraitInput? ==>
              var d := Decl.Expand(Args.ToItemStruct(Args.Parse(args).value), input.itemTrait, env, into, render);
              (r.Ok? <==> d.Ok?) && (r.Ok? ==> r.value == Declared(d.value)) && (r.Err? ==> r.error == d.error)
    ensures |args| == 0 && !input.ImplInput? ==> r == Err(SyntaxError)
    ensures |args| == 0 && input.ImplInput? ==>
              var o := Imp.Expand(input.itemImpl);
              (r.Ok? <==> o.Ok?) && (r.Ok? ==> r.value == Registered(o.value)) && (r.Err? ==> r.error == o.error)
  {
    if |args| > 0 then
      match Args.Parse(args)
      case Err(e) => Err(e)
      case Ok(proxy) =>
        if !input.TraitInput? then Err(SyntaxError)
        else
          match Decl.Expand(Args.ToItemStruct(proxy), input.itemTrait, env, into, render)
          case Err(e) => Err(e)
          case Ok(d) => Ok(Declared(d))
    else if !input.ImplInput? then Err(SyntaxError)
    else
      match Imp.Expand(input.itemImpl)
      case Err(e) => Err(e)
      case Ok(o) => Ok(Registered(o))
  }

  /** The trait an expanded thunk is called through. */
  datatype CalledTrait = TraitPath(path: Path) | AsRefOf(target: Type)

  /** A function the binder's expansion exports for the concrete type. */
  datatype Exported =
    | ExportedThunk(symbol: string, implTy: Type, calledTrait: CalledTrait, ident: string)
    | ExportedDrop(symbol: string, implTy: Type)

  /** Expanding a binder for the registration `call`: `$ty` becomes the
      concrete type and `$trait` the registered trait path. The symbols are
      those baked into the binder at the declaration; the registering
      crate's own package identity plays no part. */
  function Instantiate(b: Decl.Binder, call: Imp.BinderCall): (es: seq<Exported>)
    ensures |es| == |b.thunks| + 1
    ensures forall k :: 0 <= k < |es| ==> es[k].implTy == call.ty
    ensures es[|b.thunks|] == ExportedDrop(b.dropSymbol, call.ty)
    ensures forall k :: 0 <= k < |b.thunks| ==>
              es[k].ExportedThunk? && es[k].symbol == b.thunks[k].exportName && es[k].ident == b.thunks[k].ident
              && (b.thunks[k].traitRef.TraitParam? ==> es[k].calledTrait == CalledTrait.TraitPath(call.traitArg))
              && (b.thunks[k].traitRef.AsRefTrait? ==> es[k].calledTrait == AsRefOf(b.thunks[k].traitRef.target))
  {
    seq(|b.thunks|, k requires 0 <= k < |b.thunks| =>
      var t := b.thunks[k];
      ExportedThunk(t.exportName, call.ty,
                    match t.traitRef
                    case TraitParam => CalledTrait.TraitPath(call.traitArg)
                    case AsRefTrait(target) => AsRefOf(target),
                    t.ident))
    + [ExportedDrop(b.dropSymbol, call.ty)]
  }

  function Symbols(es: seq<Exported>): (names: seq<string>)
    ensures |names| == |es|
    ensures forall k :: 0 <= k < |es| ==> names[k] == es[k].symbol
  {
    seq(|es|, k requires 0 <= k < |es| => es[k].symbol)
  }

  /** The two sites agree without communicating: every symbol the proxy side
      links against (forwarding methods, `AsRef` forwarding, destructor) is
      exported, in the same order, by any registration that expands the
      trait's binder, and nothing else is. Which impl block does so, and
      from which crate, plays no part. */
  lemma RegistrationExportsDeclaredSymbols(
    proxy: Args.Proxy, declared: Decl.ItemTrait, env: Decl.PkgEnv, into: Decl.IntoTypeFor, render: Type -> string,
    impl: Imp.ItemImpl)
    requires Decl.Expand(Args.ToItemStruct(proxy), declared, env, into, render).Ok?
    requires Imp.Expand(impl).Ok?
    ensures var d := Decl.Expand(Args.ToItemStruct(proxy), declared, env, into, render).value;
            Symbols(Instantiate(d.binder, Imp.Expand(impl).value.call)) == Decl.ImportedSymbols(d)
  {
  }
}
