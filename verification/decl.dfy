/** Declaration site: the `unsafe trait` carrying the proxy argument. For each
    method it produces the proxy's forwarding method (an `extern "Rust"`
    declaration under a fixed link name plus the call to it) and an export
    thunk template for the binder macro that implementations later expand. */
module Decl {
  import opened Wrappers
  import opened Syntax
  import opened Ty
  import Text
  import Args

  /** `SelfKind::into_type_for`: the type that stands for a `Self` position
      of the given kind once `Self` is replaced by a target type. Its
      definition is not part of this model, so every operation takes it as
      a parameter and nothing is assumed about it. */
  type IntoTypeFor = (SelfKind, Type) -> Type

  /** A method parameter: a receiver (`self`, `&self`, `&mut self`,
      `self: Box<Self>`, ... with its type written out, e.g. `&Self`) or a
      typed pattern. */
  datatype FnArg = Receiver(ty: Type) | Typed(pat: string, ty: Type)

  datatype Signature = Signature(ident: string, inputs: seq<FnArg>, output: ReturnType)

  /** The `extern "Rust"` declaration inside a proxy method. */
  datatype ExternFn = ExternFn(linkName: string, ident: string, inputs: seq<Type>, output: ReturnType)

  /** A method of the proxy's trait impl: the (renamed) original signature,
      the extern declaration it calls, and the arguments it passes. */
  datatype ProxyMethod = ProxyMethod(sig: Signature, extern: ExternFn, callArgs: seq<string>)

  /** The trait an export thunk calls through: the binder's `$trait`
      parameter, or `AsRef<T>` for a forwarded supertrait. */
  datatype TraitRef = TraitParam | AsRefTrait(target: Type)

  datatype Param = Param(name: string, ty: Type)

  /** `#[export_name = ...] unsafe extern "Rust" fn ident(params) -> output
      { <$ty as trait>::ident(param names) }` with `$ty` still a placeholder. */
  datatype ExportFn = ExportFn(traitRef: TraitRef, exportName: string, ident: string, params: seq<Param>, output: ReturnType)

  /** The verbatim `$ty` placeholder of the binder macro. */
  const Placeholder: Type := Other(Verbatim("$ty"))

  // ---------------------------------------------------------------------
  // Argument renaming

  function PositionalName(i: nat): string
  {
    "_" + Text.Decimal(i)
  }

  /** The name a parameter is bound to after renaming. */
  function BoundName(i: nat, a: FnArg): string
  {
    if a.Receiver? then "self" else PositionalName(i)
  }

  function ArgTypes(inputs: seq<FnArg>): (tys: seq<Type>)
    ensures |tys| == |inputs|
    ensures forall i :: 0 <= i < |inputs| ==> tys[i] == inputs[i].ty
  {
    seq(|inputs|, i requires 0 <= i < |inputs| => inputs[i].ty)
  }

  /** Rebinds every typed parameter to `_i` (its position, the receiver
      counted) and returns the names to call the extern function with. */
  function RenameArgs(sig: Signature): (r: (Signature, seq<string>))
    ensures r.0.ident == sig.ident && r.0.output == sig.output
    ensures |r.0.inputs| == |sig.inputs| == |r.1|
    ensures ArgTypes(r.0.inputs) == ArgTypes(sig.inputs)
    ensures forall i :: 0 <= i < |sig.inputs| ==>
              (r.0.inputs[i].Receiver? <==> sig.inputs[i].Receiver?)
              && (sig.inputs[i].Receiver? ==> r.0.inputs[i] == sig.inputs[i] && r.1[i] == "self")
              && (sig.inputs[i].Typed? ==> r.0.inputs[i].pat == r.1[i] == "_" + Text.Decimal(i))
  {
    var inputs := seq(|sig.inputs|, i requires 0 <= i < |sig.inputs| =>
      if sig.inputs[i].Receiver? then sig.inputs[i] else Typed(PositionalName(i), sig.inputs[i].ty));
    var names := seq(|sig.inputs|, i requires 0 <= i < |sig.inputs| => BoundName(i, sig.inputs[i]));
    (Signature(sig.ident, inputs, sig.output), names)
  }

  /** In a signature whose only receiver (if any) comes first, the proxy
      passes pairwise distinct argument names. */
  lemma CallArgsDistinct(sig: Signature, i: nat, j: nat)
    requires forall k :: 0 < k < |sig.inputs| ==> sig.inputs[k].Typed?
    requires i < j < |sig.inputs|
    ensures RenameArgs(sig).1[i] != RenameArgs(sig).1[j]
  {
    var names := RenameArgs(sig).1;
    if sig.inputs[i].Receiver? {
      assert names[i][0] == 's' && names[j][0] == '_';
    } else if names[i] == names[j] {
      assert names[i][1..] == Text.Decimal(i) && names[j][1..] == Text.Decimal(j);
      Text.DecimalInjective(i, j);
    }
  }

  // ---------------------------------------------------------------------
  // What can cross the boundary

  /** A pointer or reference whose pointee is exactly `Self`. */
  predicate IndirectSelf(t: Type)
  {
    (t.Ptr? || t.Reference?) && t.elem == SelfType
  }

  /** A parameter type the proxy can forward: no `Self` in it, or `Self`
      behind one pointer or reference. */
  predicate ArgSupported(t: Type)
  {
    !ContainsSelf(t) || IndirectSelf(t)
  }

  /** A return type the proxy can forward: additionally `Self` by value. */
  predicate ReturnSupported(r: ReturnType)
  {
    r.Default? || !ContainsSelf(r.ty) || r.ty == SelfType || IndirectSelf(r.ty)
  }

  /** What the unwraps of the export-thunk generation need: every position
      that mentions `Self` has one of the four shapes. */
  predicate Classifiable(sig: Signature)
  {
    (sig.output.Returns? ==> (ContainsSelf(sig.output.ty) ==> SelfKindOf(sig.output.ty).Some?))
    && forall i :: 0 <= i < |sig.inputs| ==> (ContainsSelf(sig.inputs[i].ty) ==> SelfKindOf(sig.inputs[i].ty).Some?)
  }

  const TooComplexReturn := "Too complex return type for #[extern_trait]"
  const TooComplexArgument := "Too complex argument type for #[extern_trait]"
  const SelfByValue := "Passing `Self` by value is not supported for #[extern_trait] yet"

  /** The diagnostic for a parameter type that cannot be forwarded. */
  function ArgError(t: Type): Error
  {
    if t == SelfType then Error(SelfByValue, AtType(t)) else Error(TooComplexArgument, AtType(t))
  }

  // ---------------------------------------------------------------------
  // Proxy side

  /** The proxy-side return type. */
  function RewriteOutput(output: ReturnType, proxy: Type, into: IntoTypeFor): (r: Result<ReturnType, Error>)
    ensures r.Ok? <==> ReturnSupported(output)
    ensures r.Err? ==> r.error == Error(TooComplexReturn, AtType(output.ty))
    ensures r.Ok? && (output.Default? || !ContainsSelf(output.ty)) ==> r.value == output
    ensures r.Ok? && output.Returns? && ContainsSelf(output.ty) ==>
              SelfKindOf(output.ty).Some? && r.value == Returns(into(SelfKindOf(output.ty).value, proxy))
  {
    match output
    case Default => Ok(Default)
    case Returns(ty) =>
      if ContainsSelf(ty) then
        match SelfKindOf(ty)
        case Some(kind) => Ok(Returns(into(kind, proxy)))
        case None => Err(Error(TooComplexReturn, AtType(ty)))
      else Ok(Returns(ty))
  }

  /** The proxy-side type of one parameter. */
  function RewriteInput(ty: Type, proxy: Type, into: IntoTypeFor): (r: Result<Type, Error>)
    ensures r.Ok? <==> ArgSupported(ty)
    ensures r.Err? ==> r.error == ArgError(ty)
    ensures r.Ok? && !ContainsSelf(ty) ==> r.value == ty
    ensures r.Ok? && ContainsSelf(ty) ==> r.value == into(SelfKindOf(ty).value, proxy) && SelfKindOf(ty) != Some(Value)
  {
    if ContainsSelf(ty) then
      match SelfKindOf(ty)
      case Some(kind) =>
        if kind == Value then Err(Error(SelfByValue, AtType(ty)))
        else Ok(into(kind, proxy))
      case None => Err(Error(TooComplexArgument, AtType(ty)))
    else Ok(ty)
  }

  /** All parameter types, collected as `Result<Vec<_>>`: the first
      parameter that cannot be forwarded decides the error. */
  function RewriteInputs(tys: seq<Type>, proxy: Type, into: IntoTypeFor): (r: Result<seq<Type>, Error>)
    ensures r.Ok? <==> forall i :: 0 <= i < |tys| ==> ArgSupported(tys[i])
    ensures r.Ok? ==> |r.value| == |tys|
                      && forall i :: 0 <= i < |tys| ==> Ok(r.value[i]) == RewriteInput(tys[i], proxy, into)
    ensures r.Err? ==> exists i :: 0 <= i < |tys| && !ArgSupported(tys[i]) && r.error == ArgError(tys[i])
                                   && forall j :: 0 <= j < i ==> ArgSupported(tys[j])
  {
    if |tys| == 0 then Ok([])
    else match RewriteInput(tys[0], proxy, into)
      case Err(e) => Err(e)
      case Ok(t) =>
        match RewriteInputs(tys[1..], proxy, into)
        case Err(e) =>
          ghost var i :| 0 <= i < |tys[1..]| && !ArgSupported(tys[1..][i]) && e == ArgError(tys[1..][i])
                         && forall j :: 0 <= j < i ==> ArgSupported(tys[1..][j]);
          assert !ArgSupported(tys[i + 1]) && forall j :: 0 <= j < i + 1 ==> ArgSupported(tys[j]);
          Err(e)
        case Ok(ts) =>
          assert forall i :: 1 <= i < |tys| ==> tys[i] == tys[1..][i - 1];
          Ok([t] + ts)
  }

  /** `generate_proxy_impl`: the proxy's method for `sig`. The return type is
      checked before the parameters. */
  function GenerateProxyImpl(proxyName: string, exportName: string, sig: Signature, into: IntoTypeFor): (r: Result<ProxyMethod, Error>)
    ensures r.Ok? <==> ReturnSupported(sig.output) && forall i :: 0 <= i < |sig.inputs| ==> ArgSupported(sig.inputs[i].ty)
    ensures !ReturnSupported(sig.output) ==> r == Err(Error(TooComplexReturn, AtType(sig.output.ty)))
    ensures ReturnSupported(sig.output) && r.Err? ==>
              exists i :: 0 <= i < |sig.inputs| && !ArgSupported(sig.inputs[i].ty) && r.error == ArgError(sig.inputs[i].ty)
                          && forall j :: 0 <= j < i ==> ArgSupported(sig.inputs[j].ty)
    ensures r.Ok? ==> Classifiable(sig)
    ensures r.Ok? ==>
              var m := r.value;
              && m.sig == RenameArgs(sig).0 && m.callArgs == RenameArgs(sig).1
              && m.extern.linkName == exportName && m.extern.ident == sig.ident
              && |m.extern.inputs| == |sig.inputs|
              && (forall i :: 0 <= i < |sig.inputs| && !ContainsSelf(sig.inputs[i].ty) ==> m.extern.inputs[i] == sig.inputs[i].ty)
              && (forall i :: 0 <= i < |sig.inputs| && ContainsSelf(sig.inputs[i].ty) ==>
                    m.extern.inputs[i] == into(SelfKindOf(sig.inputs[i].ty).value, NamedType(proxyName)))
              && (sig.output.Default? || !ContainsSelf(sig.output.ty) ==> m.extern.output == sig.output)
              && (sig.output.Returns? && ContainsSelf(sig.output.ty) ==>
                    m.extern.output == Returns(into(SelfKindOf(sig.output.ty).value, NamedType(proxyName))))
  {
    var (renamed, args) := RenameArgs(sig);
    var proxy := NamedType(proxyName);
    match RewriteOutput(sig.output, proxy, into)
    case Err(e) => Err(e)
    case Ok(output) =>
      match RewriteInputs(ArgTypes(sig.inputs), proxy, into)
      case Err(e) => Err(e)
      case Ok(inputs) =>
        Ok(ProxyMethod(renamed, ExternFn(exportName, sig.ident, inputs, output), args))
  }

  /** A `&self` or `&mut self` receiver crosses as the reference kind of the
      same mutability. */
  lemma ReceiverMutabilityCarried(proxyName: string, exportName: string, sig: Signature, into: IntoTypeFor, lifetime: Option<string>, m: bool)
    requires |sig.inputs| > 0 && sig.inputs[0] == Receiver(Reference(lifetime, m, SelfType))
    requires GenerateProxyImpl(proxyName, exportName, sig, into).Ok?
    ensures GenerateProxyImpl(proxyName, exportName, sig, into).value.extern.inputs[0] == into(Ref(m), NamedType(proxyName))
  {
    assert SelfKindOf(sig.inputs[0].ty) == Some(Ref(m));
    assert ContainsSelf(sig.inputs[0].ty);
  }

  /** `fn consume(self)` is refused with the by-value diagnostic. */
  lemma ByValueReceiverRejected(proxyName: string, exportName: string, sig: Signature, into: IntoTypeFor)
    requires ReturnSupported(sig.output)
    requires |sig.inputs| > 0 && sig.inputs[0] == Receiver(SelfType)
    ensures GenerateProxyImpl(proxyName, exportName, sig, into) == Err(Error(SelfByValue, AtType(SelfType)))
  {
  }

  /** A signature that never mentions `Self` crosses the boundary exactly as
      written. */
  lemma SelfFreeSignatureUnchanged(proxyName: string, exportName: string, sig: Signature, into: IntoTypeFor)
    requires sig.output.Returns? ==> !ContainsSelf(sig.output.ty)
    requires forall i :: 0 <= i < |sig.inputs| ==> !ContainsSelf(sig.inputs[i].ty)
    ensures GenerateProxyImpl(proxyName, exportName, sig, into).Ok?
    ensures GenerateProxyImpl(proxyName, exportName, sig, into).value.extern
            == ExternFn(exportName, sig.ident, ArgTypes(sig.inputs), sig.output)
  {
    var m := GenerateProxyImpl(proxyName, exportName, sig, into).value;
    assert m.extern.inputs == ArgTypes(sig.inputs);
  }

  // ---------------------------------------------------------------------
  // Export side

  /** The export-side type of one position, `Self` replaced by the binder's
      placeholder. */
  function ThunkType(ty: Type, into: IntoTypeFor): Type
    requires ContainsSelf(ty) ==> SelfKindOf(ty).Some?
  {
    if ContainsSelf(ty) then into(SelfKindOf(ty).value, Placeholder) else ty
  }

  /** `generate_macro_rules`: the export thunk for `sig`. Every parameter,
      the receiver included, is bound to `_i`. Its unwraps make it
      partial; it is only called on signatures the proxy side accepted. */
  function GenerateMacroRules(traitRef: TraitRef, exportName: string, sig: Signature, into: IntoTypeFor): (e: ExportFn)
    requires Classifiable(sig)
    ensures e.traitRef == traitRef && e.exportName == exportName && e.ident == sig.ident
    ensures |e.params| == |sig.inputs|
    ensures forall i :: 0 <= i < |sig.inputs| ==> e.params[i].name == "_" + Text.Decimal(i)
    ensures forall i :: 0 <= i < |sig.inputs| && !ContainsSelf(sig.inputs[i].ty) ==> e.params[i].ty == sig.inputs[i].ty
    ensures forall i :: 0 <= i < |sig.inputs| && ContainsSelf(sig.inputs[i].ty) ==>
              e.params[i].ty == into(SelfKindOf(sig.inputs[i].ty).value, Placeholder)
    ensures sig.output.Default? || !ContainsSelf(sig.output.ty) ==> e.output == sig.output
    ensures sig.output.Returns? && ContainsSelf(sig.output.ty) ==>
              e.output == Returns(into(SelfKindOf(sig.output.ty).value, Placeholder))
  {
    var params := seq(|sig.inputs|, i requires 0 <= i < |sig.inputs| =>
      Param(PositionalName(i), ThunkType(sig.inputs[i].ty, into)));
    var output := match sig.output
      case Default => Default
      case Returns(ty) => Returns(ThunkType(ty, into));
    ExportFn(traitRef, exportName, sig.ident, params, output)
  }

  /** The two sides of one accepted method agree: the thunk is exported
      under the proxy's link name, has as many parameters as the extern
      declaration, and every parameter and the return type is either left
      as written on both sides or replaced by the same kind of `Self` on
      both sides (`fn new() -> Self` crosses as the owned kind). */
  lemma ProxyAndThunkAgree(proxyName: string, exportName: string, sig: Signature, into: IntoTypeFor, traitRef: TraitRef)
    requires GenerateProxyImpl(proxyName, exportName, sig, into).Ok?
    ensures var m := GenerateProxyImpl(proxyName, exportName, sig, into).value;
            var e := GenerateMacroRules(traitRef, exportName, sig, into);
            && e.exportName == m.extern.linkName
            && |e.params| == |m.extern.inputs|
            && forall i :: 0 <= i < |e.params| ==>
                 (m.extern.inputs[i] == e.params[i].ty == sig.inputs[i].ty)
                 || (exists k :: m.extern.inputs[i] == into(k, NamedType(proxyName)) && e.params[i].ty == into(k, Placeholder))
    ensures var m := GenerateProxyImpl(proxyName, exportName, sig, into).value;
            var e := GenerateMacroRules(traitRef, exportName, sig, into);
            (m.extern.output == e.output == sig.output)
            || (exists k :: m.extern.output == Returns(into(k, NamedType(proxyName))) && e.output == Returns(into(k, Placeholder)))
  {
    if sig.output.Returns? && ContainsSelf(sig.output.ty) {
      var k := SelfKindOf(sig.output.ty).value;
      assert GenerateMacroRules(traitRef, exportName, sig, into).output == Returns(into(k, Placeholder));
    }
  }

  // ---------------------------------------------------------------------
  // Symbol naming

  /** The package identity read from the build environment; a missing
      value is `None`. */
  datatype PkgEnv = PkgEnv(pkgName: Option<string>, pkgVersion: Option<string>, crateName: Option<string>)

  const Unknown := "<unknown>"

  function EnvValue(v: Option<string>): string
  {
    if v.Some? then v.value else Unknown
  }

  /** `__extern_trait_{package}_{version}_{crate}_{Trait}`. */
  function SymbolPrefix(env: PkgEnv, traitName: string): string
  {
    "__extern_trait_" + EnvValue(env.pkgName) + "_" + EnvValue(env.pkgVersion) + "_" + EnvValue(env.crateName) + "_" + traitName
  }

  function MethodSymbol(prefix: string, methodName: string): string
  {
    prefix + "_" + methodName
  }

  function DropSymbol(prefix: string): string
  {
    prefix + "_drop"
  }

  /** `rendered` is the token rendering of the `AsRef` target type. */
  function AsRefSymbol(prefix: string, rendered: string): string
  {
    prefix + "_AsRef_" + rendered
  }

  function BinderName(traitName: string): string
  {
    "__extern_trait_" + traitName
  }

  /** Each missing value of the package identity reads `<unknown>`,
      independently of the others. */
  lemma UnknownEnvPrefix(env: PkgEnv, traitName: string)
    ensures env.pkgName.None? ==>
              SymbolPrefix(env, traitName) == SymbolPrefix(env.(pkgName := Some(Unknown)), traitName)
    ensures env.pkgVersion.None? ==>
              SymbolPrefix(env, traitName) == SymbolPrefix(env.(pkgVersion := Some(Unknown)), traitName)
    ensures env.crateName.None? ==>
              SymbolPrefix(env, traitName) == SymbolPrefix(env.(crateName := Some(Unknown)), traitName)
    ensures SymbolPrefix(PkgEnv(None, None, None), traitName)
            == "__extern_trait_" + Unknown + "_" + Unknown + "_" + Unknown + "_" + traitName
  {
    if env.pkgName.None? {
      PrefixOfValues(env, env.(pkgName := Some(Unknown)), traitName);
    }
    if env.pkgVersion.None? {
      PrefixOfValues(env, env.(pkgVersion := Some(Unknown)), traitName);
    }
    if env.crateName.None? {
      PrefixOfValues(env, env.(crateName := Some(Unknown)), traitName);
    }
  }

  /** The prefix depends on the package identity only through the values
      read for it. */
  lemma PrefixOfValues(env: PkgEnv, env': PkgEnv, traitName: string)
    requires EnvValue(env.pkgName) == EnvValue(env'.pkgName)
    requires EnvValue(env.pkgVersion) == EnvValue(env'.pkgVersion)
    requires EnvValue(env.crateName) == EnvValue(env'.crateName)
    ensures SymbolPrefix(env, traitName) == SymbolPrefix(env', traitName)
  {
  }

  /** Under one prefix, distinct method names give distinct symbols. */
  lemma MethodSymbolInjective(prefix: string, a: string, b: string)
    requires MethodSymbol(prefix, a) == MethodSymbol(prefix, b)
    ensures a == b
  {
    var n := |prefix| + 1;
    assert MethodSymbol(prefix, a)[n..] == a;
    assert MethodSymbol(prefix, b)[n..] == b;
  }

  /** A method named `drop` is exported under the destructor's symbol, and a
      method named `AsRef_T` under the symbol of the `AsRef<T>` forwarding. */
  lemma SymbolCollisions(prefix: string, rendered: string)
    ensures MethodSymbol(prefix, "drop") == DropSymbol(prefix)
    ensures MethodSymbol(prefix, "AsRef_" + rendered) == AsRefSymbol(prefix, rendered)
  {
  }

  // ---------------------------------------------------------------------
  // Trait items

  /** A trait item: a method, or any other item (constant, type, macro). */
  datatype TraitItem = Method(sig: Signature) | NonMethod(description: string)

  /** A supertrait bound: a trait path, or a lifetime or other bound. */
  datatype Bound = TraitBound(path: Path) | NonTraitBound(description: string)

  datatype ItemTrait = ItemTrait(
    unsafety: bool,
    ident: string,
    genericParams: seq<string>,
    whereClause: Option<seq<string>>,
    supertraits: seq<Bound>,
    items: seq<TraitItem>)

  /** One entry of the proxy's `unsafe impl Trait for Proxy` block. */
  datatype ImplEntry = ForwardingMethod(forwarder: ProxyMethod) | CompileError(error: Error)

  const OnlyMethods := "#[extern_trait] may only contain methods"

  /** One turn of the item loop: the impl entry, and the thunk template for
      the binder when the method is accepted. */
  function ItemEntry(item: TraitItem, prefix: string, proxyName: string, into: IntoTypeFor): (r: (ImplEntry, Option<ExportFn>))
    ensures item.NonMethod? ==> r == (CompileError(Error(OnlyMethods, AtItem(item.description))), None)
    ensures item.Method? ==>
              (r.0.ForwardingMethod? <==> GenerateProxyImpl(proxyName, MethodSymbol(prefix, item.sig.ident), item.sig, into).Ok?)
    ensures item.Method? && r.0.CompileError? ==>
              r.0.error == GenerateProxyImpl(proxyName, MethodSymbol(prefix, item.sig.ident), item.sig, into).error
    ensures r.1.Some? <==> r.0.ForwardingMethod?
    ensures r.0.ForwardingMethod? ==>
              r.0.forwarder.extern.linkName == r.1.value.exportName == MethodSymbol(prefix, item.sig.ident)
              && r.1.value.traitRef == TraitParam
  {
    match item
    case NonMethod(d) => (CompileError(Error(OnlyMethods, AtItem(d))), None)
    case Method(sig) =>
      var exportName := MethodSymbol(prefix, sig.ident);
      match GenerateProxyImpl(proxyName, exportName, sig, into)
      case Ok(m) => (ForwardingMethod(m), Some(GenerateMacroRules(TraitParam, exportName, sig, into)))
      case Err(e) => (CompileError(e), None)
  }

  /** An accepted method's entry is the proxy rewrite of its signature and
      its template is the thunk generation of the same signature, both
      under the method's symbol. */
  lemma ItemEntryPairsRewrites(item: TraitItem, prefix: string, proxyName: string, into: IntoTypeFor)
    requires ItemEntry(item, prefix, proxyName, into).0.ForwardingMethod?
    ensures var r := ItemEntry(item, prefix, proxyName, into);
            && item.Method?
            && r.0.forwarder == GenerateProxyImpl(proxyName, MethodSymbol(prefix, item.sig.ident), item.sig, into).value
            && Classifiable(item.sig)
            && r.1 == Some(GenerateMacroRules(TraitParam, MethodSymbol(prefix, item.sig.ident), item.sig, into))
  {
  }

  /** Link names of the forwarding methods, in order. */
  function LinkNames(entries: seq<ImplEntry>): seq<string>
  {
    if |entries| == 0 then []
    else (if entries[0].ForwardingMethod? then [entries[0].forwarder.extern.linkName] else []) + LinkNames(entries[1..])
  }

  function ExportNames(thunks: seq<ExportFn>): (names: seq<string>)
    ensures |names| == |thunks|
    ensures forall k :: 0 <= k < |thunks| ==> names[k] == thunks[k].exportName
  {
    seq(|thunks|, k requires 0 <= k < |thunks| => thunks[k].exportName)
  }

  /** The item loop. A rejected item leaves a compile error in its place and
      the loop carries on; only accepted methods add a thunk template, so
      the proxy links against exactly the symbols the binder exports. */
  function ExpandItems(items: seq<TraitItem>, prefix: string, proxyName: string, into: IntoTypeFor): (r: (seq<ImplEntry>, seq<ExportFn>))
    ensures |r.0| == |items|
    ensures forall i :: 0 <= i < |items| ==> r.0[i] == ItemEntry(items[i], prefix, proxyName, into).0
    ensures LinkNames(r.0) == ExportNames(r.1)
    ensures forall k :: 0 <= k < |r.1| ==> r.1[k].traitRef == TraitParam
  {
    if |items| == 0 then ([], [])
    else
      var (entry, thunk) := ItemEntry(items[0], prefix, proxyName, into);
      var (entries, thunks) := ExpandItems(items[1..], prefix, proxyName, into);
      var head := if thunk.Some? then [thunk.value] else [];
      assert ([entry] + entries)[1..] == entries;
      assert forall i :: 1 <= i < |items| ==> items[i] == items[1..][i - 1];
      ExportNamesAppend(head, thunks);
      ([entry] + entries, head + thunks)
  }

  /** Each of `thunks` is the template some item's turn produced. */
  predicate FromItems(thunks: seq<ExportFn>, items: seq<TraitItem>, prefix: string, proxyName: string, into: IntoTypeFor)
  {
    forall k :: 0 <= k < |thunks| ==>
      exists i :: 0 <= i < |items| && ItemEntry(items[i], prefix, proxyName, into).1 == Some(thunks[k])
  }

  /** Every thunk template of the item loop is the one some item's turn
      produced, hence the thunk generation of an accepted method's own
      signature under its own symbol. */
  lemma {:induction false} TemplatesFromItems(items: seq<TraitItem>, prefix: string, proxyName: string, into: IntoTypeFor)
    ensures FromItems(ExpandItems(items, prefix, proxyName, into).1, items, prefix, proxyName, into)
    decreases |items|
  {
    if |items| > 0 {
      TemplatesFromItems(items[1..], prefix, proxyName, into);
      var t := ItemEntry(items[0], prefix, proxyName, into).1;
      var head := if t.Some? then [t.value] else [];
      var thunks := ExpandItems(items[1..], prefix, proxyName, into).1;
      TemplateOrigins(items, prefix, proxyName, into, head, thunks);
      assert ExpandItems(items, prefix, proxyName, into).1 == head + thunks;
    }
  }

  /** The templates of the first item's turn and of the remaining items'
      turns all come from some item of the whole list. */
  lemma TemplateOrigins(items: seq<TraitItem>, prefix: string, proxyName: string, into: IntoTypeFor,
                        head: seq<ExportFn>, thunks: seq<ExportFn>)
    requires |items| > 0
    requires ItemEntry(items[0], prefix, proxyName, into).1.Some? ==> head == [ItemEntry(items[0], prefix, proxyName, into).1.value]
    requires ItemEntry(items[0], prefix, proxyName, into).1.None? ==> head == []
    requires FromItems(thunks, items[1..], prefix, proxyName, into)
    ensures FromItems(head + thunks, items, prefix, proxyName, into)
  {
    forall k | 0 <= k < |head + thunks|
      ensures exists i :: 0 <= i < |items| && ItemEntry(items[i], prefix, proxyName, into).1 == Some((head + thunks)[k])
    {
      if k < |head| {
        assert ItemEntry(items[0], prefix, proxyName, into).1 == Some((head + thunks)[k]);
      } else {
        var i :| 0 <= i < |items[1..]| && ItemEntry(items[1..][i], prefix, proxyName, into).1 == Some(thunks[k - |head|]);
        assert items[1..][i] == items[i + 1];
      }
    }
  }

  // ---------------------------------------------------------------------
  // Supertrait forwarding

  datatype Capability = SendMarker | SyncMarker | AsRefTo(target: Type) | Unrecognised

  /** An unqualified single-segment trait bound. */
  predicate Plain(b: Bound)
  {
    b.TraitBound? && !b.path.leadingColon && |b.path.segments| == 1
  }

  /** The forwarding whitelist: `Send`, `Sync`, and `AsRef<T>` whose first
      generic argument is a type. Everything else is ignored. */
  function Recognise(b: Bound): (c: Capability)
    ensures c == SendMarker <==> Plain(b) && b.path.segments[0].ident == "Send"
    ensures c == SyncMarker <==> Plain(b) && b.path.segments[0].ident == "Sync"
    ensures c.AsRefTo? <==>
              Plain(b) && b.path.segments[0].ident == "AsRef"
              && b.path.segments[0].arguments.AngleBracketed? && |b.path.segments[0].arguments.args| > 0
              && b.path.segments[0].arguments.args[0].TypeArg?
    ensures c.AsRefTo? ==> c.target == b.path.segments[0].arguments.args[0].ty
  {
    if Plain(b) then
      var seg := b.path.segments[0];
      if seg.ident == "Send" then SendMarker
      else if seg.ident == "Sync" then SyncMarker
      else if seg.ident == "AsRef" && seg.arguments.AngleBracketed? && |seg.arguments.args| > 0
              && seg.arguments.args[0].TypeArg? then
        AsRefTo(seg.arguments.args[0].ty)
      else Unrecognised
    else Unrecognised
  }

  /** An impl added to the proxy for a recognised supertrait. */
  datatype ExtraImpl = UnsafeSend | UnsafeSync | AsRefImpl(target: Type, forwarder: ProxyMethod)

  function CapabilityOf(x: ExtraImpl): Capability
  {
    match x
    case UnsafeSend => SendMarker
    case UnsafeSync => SyncMarker
    case AsRefImpl(t, _) => AsRefTo(t)
  }

  /** The recognised capabilities of `bounds`, in order. */
  function Recognised(bounds: seq<Bound>): seq<Capability>
  {
    if |bounds| == 0 then []
    else (if Recognise(bounds[0]) == Unrecognised then [] else [Recognise(bounds[0])]) + Recognised(bounds[1..])
  }

  function Capabilities(extras: seq<ExtraImpl>): seq<Capability>
  {
    seq(|extras|, k requires 0 <= k < |extras| => CapabilityOf(extras[k]))
  }

  function AsRefLinkNames(extras: seq<ExtraImpl>): seq<string>
  {
    if |extras| == 0 then []
    else (if extras[0].AsRefImpl? then [extras[0].forwarder.extern.linkName] else []) + AsRefLinkNames(extras[1..])
  }

  /** `fn as_ref(&self) -> &T`. */
  function AsRefSignature(target: Type): Signature
  {
    Signature("as_ref", [Receiver(Reference(None, false, SelfType))], Returns(Reference(None, false, target)))
  }

  /** `AsRef<T>` can be forwarded unless `T` mentions `Self` without being
      `Self`. */
  predicate AsRefForwardable(target: Type)
  {
    !ContainsSelf(target) || target == SelfType
  }

  lemma AsRefSignatureAccepted(proxyName: string, exportName: string, target: Type, into: IntoTypeFor)
    ensures GenerateProxyImpl(proxyName, exportName, AsRefSignature(target), into).Ok? <==> AsRefForwardable(target)
    ensures !AsRefForwardable(target) ==>
              GenerateProxyImpl(proxyName, exportName, AsRefSignature(target), into)
              == Err(Error(TooComplexReturn, AtType(Reference(None, false, target))))
  {
    var sig := AsRefSignature(target);
    assert SelfKindOf(sig.inputs[0].ty) == Some(Ref(false));
    assert ArgSupported(sig.inputs[0].ty);
    assert ContainsSelf(Reference(None, false, target)) == ContainsSelf(target);
  }

  /** One recognised bound's contribution; an `AsRef` that cannot be
      forwarded is an error. */
  function ForwardBound(c: Capability, prefix: string, proxyName: string, into: IntoTypeFor, render: Type -> string): (r: Result<(ExtraImpl, ExportFn), Error>)
    requires c.AsRefTo?
    ensures r.Ok? <==> AsRefForwardable(c.target)
    ensures r.Err? ==> r.error == Error(TooComplexReturn, AtType(Reference(None, false, c.target)))
    ensures r.Ok? ==> r.value.0.AsRefImpl? && r.value.0.target == c.target
                      && r.value.0.forwarder.extern.linkName == r.value.1.exportName == AsRefSymbol(prefix, render(c.target))
                      && r.value.1.traitRef == AsRefTrait(c.target)
    ensures r.Ok? ==>
              && r.value.0.forwarder == GenerateProxyImpl(proxyName, AsRefSymbol(prefix, render(c.target)), AsRefSignature(c.target), into).value
              && Classifiable(AsRefSignature(c.target))
              && r.value.1 == GenerateMacroRules(AsRefTrait(c.target), AsRefSymbol(prefix, render(c.target)), AsRefSignature(c.target), into)
  {
    var exportName := AsRefSymbol(prefix, render(c.target));
    var sig := AsRefSignature(c.target);
    AsRefSignatureAccepted(proxyName, exportName, c.target, into);
    match GenerateProxyImpl(proxyName, exportName, sig, into)
    case Err(e) => Err(e)
    case Ok(m) => Ok((AsRefImpl(c.target, m), GenerateMacroRules(AsRefTrait(c.target), exportName, sig, into)))
  }

  /** The contribution of one bound to the supertrait loop. */
  function ForwardOne(c: Capability, prefix: string, proxyName: string, into: IntoTypeFor, render: Type -> string): (r: Result<(seq<ExtraImpl>, seq<ExportFn>), Error>)
    ensures r.Ok? <==> !c.AsRefTo? || AsRefForwardable(c.target)
    ensures r.Err? ==> r.error == Error(TooComplexReturn, AtType(Reference(None, false, c.target)))
    ensures r.Ok? ==> Capabilities(r.value.0) == (if c == Unrecognised then [] else [c])
    ensures r.Ok? ==> AsRefLinkNames(r.value.0) == ExportNames(r.value.1)
  {
    match c
    case SendMarker => Ok(([UnsafeSend], []))
    case SyncMarker => Ok(([UnsafeSync], []))
    case Unrecognised => Ok(([], []))
    case AsRefTo(_) =>
      match ForwardBound(c, prefix, proxyName, into, render)
      case Err(e) => Err(e)
      case Ok((x, t)) => Ok(([x], [t]))
  }

  lemma {:induction false} AsRefLinkNamesAppend(xs: seq<ExtraImpl>, ys: seq<ExtraImpl>)
    ensures AsRefLinkNames(xs + ys) == AsRefLinkNames(xs) + AsRefLinkNames(ys)
    decreases |xs|
  {
    if |xs| > 0 {
      assert (xs + ys)[1..] == xs[1..] + ys;
      AsRefLinkNamesAppend(xs[1..], ys);
    } else {
      assert xs + ys == ys;
    }
  }

  lemma ForwardedConcat(bounds: seq<Bound>, xs: seq<ExtraImpl>, ts: seq<ExportFn>, xs': seq<ExtraImpl>, ts': seq<ExportFn>)
    requires |bounds| > 0
    requires Capabilities(xs) == (if Recognise(bounds[0]) == Unrecognised then [] else [Recognise(bounds[0])])
    requires Capabilities(xs') == Recognised(bounds[1..])
    requires AsRefLinkNames(xs) == ExportNames(ts) && AsRefLinkNames(xs') == ExportNames(ts')
    ensures Capabilities(xs + xs') == Recognised(bounds)
    ensures AsRefLinkNames(xs + xs') == ExportNames(ts + ts')
  {
    CapabilitiesAppend(xs, xs');
    ExportNamesAppend(ts, ts');
    AsRefLinkNamesAppend(xs, xs');
  }

  lemma CapabilitiesAppend(xs: seq<ExtraImpl>, ys: seq<ExtraImpl>)
    ensures Capabilities(xs + ys) == Capabilities(xs) + Capabilities(ys)
  {
  }

  lemma ExportNamesAppend(xs: seq<ExportFn>, ys: seq<ExportFn>)
    ensures ExportNames(xs + ys) == ExportNames(xs) + ExportNames(ys)
  {
  }

  /** A bound that is `AsRef<T>` for a `T` that cannot be forwarded. */
  predicate Blocking(b: Bound)
  {
    Recognise(b).AsRefTo? && !AsRefForwardable(Recognise(b).target)
  }

  /** The diagnostic for a blocking bound. */
  function BlockingError(b: Bound): Error
    requires Recognise(b).AsRefTo?
  {
    Error(TooComplexReturn, AtType(Reference(None, false, Recognise(b).target)))
  }

  /** The supertrait loop: marker impls for `Send` and `Sync`, an `AsRef`
      impl plus thunk template for `AsRef<T>`, nothing for other bounds; the
      first `AsRef` that cannot be forwarded aborts the whole declaration. */
  function ForwardSupertraits(bounds: seq<Bound>, prefix: string, proxyName: string, into: IntoTypeFor, render: Type -> string): (r: Result<(seq<ExtraImpl>, seq<ExportFn>), Error>)
    ensures r.Ok? <==> forall i :: 0 <= i < |bounds| ==> !Blocking(bounds[i])
    ensures r.Err? ==> exists i :: 0 <= i < |bounds| && Blocking(bounds[i]) && r.error == BlockingError(bounds[i])
    ensures r.Ok? ==> Capabilities(r.value.0) == Recognised(bounds)
    ensures r.Ok? ==> AsRefLinkNames(r.value.0) == ExportNames(r.value.1)
  {
    if |bounds| == 0 then Ok(([], []))
    else
      match ForwardOne(Recognise(bounds[0]), prefix, proxyName, into, render)
      case Err(e) => Err(e)
      case Ok((xs, ts)) =>
        var rest := ForwardSupertraits(bounds[1..], prefix, proxyName, into, render);
        if rest.Err? then
          ghost var i :| 0 <= i < |bounds[1..]| && Blocking(bounds[1..][i]) && rest.error == BlockingError(bounds[1..][i]);
          assert bounds[1..][i] == bounds[i + 1];
          Err(rest.error)
        else
          var (xs', ts') := rest.value;
          assert forall i :: 1 <= i < |bounds| ==> bounds[i] == bounds[1..][i - 1];
          ForwardedConcat(bounds, xs, ts, xs', ts');
          Ok((xs + xs', ts + ts'))
  }

  /** Every `AsRef` impl forwards through the proxy rewrite of
      `fn as_ref(&self) -> &T` for its own target, under that target's
      symbol. */
  predicate AsRefForwarders(xs: seq<ExtraImpl>, prefix: string, proxyName: string, into: IntoTypeFor, render: Type -> string)
  {
    forall k :: 0 <= k < |xs| && xs[k].AsRefImpl? ==>
      var m := GenerateProxyImpl(proxyName, AsRefSymbol(prefix, render(xs[k].target)), AsRefSignature(xs[k].target), into);
      m.Ok? && xs[k].forwarder == m.value
  }

  /** Every template is the thunk generation of `fn as_ref(&self) -> &T`
      for the target of its `AsRef<T>`, under that target's symbol. */
  predicate AsRefTemplates(ts: seq<ExportFn>, prefix: string, into: IntoTypeFor, render: Type -> string)
  {
    forall k :: 0 <= k < |ts| ==>
      && ts[k].traitRef.AsRefTrait?
      && Classifiable(AsRefSignature(ts[k].traitRef.target))
      && ts[k] == GenerateMacroRules(ts[k].traitRef, AsRefSymbol(prefix, render(ts[k].traitRef.target)),
                                     AsRefSignature(ts[k].traitRef.target), into)
  }

  lemma AsRefPairsAppend(xs: seq<ExtraImpl>, ts: seq<ExportFn>, xs': seq<ExtraImpl>, ts': seq<ExportFn>,
                         prefix: string, proxyName: string, into: IntoTypeFor, render: Type -> string)
    requires AsRefForwarders(xs, prefix, proxyName, into, render) && AsRefTemplates(ts, prefix, into, render)
    requires AsRefForwarders(xs', prefix, proxyName, into, render) && AsRefTemplates(ts', prefix, into, render)
    ensures AsRefForwarders(xs + xs', prefix, proxyName, into, render) && AsRefTemplates(ts + ts', prefix, into, render)
  {
    assert forall k :: |xs| <= k < |xs + xs'| ==> (xs + xs')[k] == xs'[k - |xs|];
    assert forall k :: |ts| <= k < |ts + ts'| ==> (ts + ts')[k] == ts'[k - |ts|];
  }

  /** The supertrait loop pairs each `AsRef` impl and each template with
      the two rewrites of the same `fn as_ref(&self) -> &T`. */
  lemma {:induction false} ForwardSupertraitsPairsRewrites(bounds: seq<Bound>, prefix: string, proxyName: string, into: IntoTypeFor, render: Type -> string)
    requires ForwardSupertraits(bounds, prefix, proxyName, into, render).Ok?
    ensures var r := ForwardSupertraits(bounds, prefix, proxyName, into, render).value;
            AsRefForwarders(r.0, prefix, proxyName, into, render) && AsRefTemplates(r.1, prefix, into, render)
    decreases |bounds|
  {
    if |bounds| > 0 {
      var c := Recognise(bounds[0]);
      var (xs, ts) := ForwardOne(c, prefix, proxyName, into, render).value;
      ForwardSupertraitsPairsRewrites(bounds[1..], prefix, proxyName, into, render);
      var (xs', ts') := ForwardSupertraits(bounds[1..], prefix, proxyName, into, render).value;
      assert ForwardSupertraits(bounds, prefix, proxyName, into, render).value == (xs + xs', ts + ts');
      if c.AsRefTo? {
        var b := ForwardBound(c, prefix, proxyName, into, render);
        assert xs == [b.value.0] && ts == [b.value.1];
      }
      AsRefPairsAppend(xs, ts, xs', ts', prefix, proxyName, into, render);
    }
  }

  /** The loop stops at the first bound that cannot be forwarded: the
      error is that bound's, and every bound before it can be forwarded. */
  lemma {:induction false} ForwardSupertraitsFirstError(bounds: seq<Bound>, prefix: string, proxyName: string, into: IntoTypeFor, render: Type -> string)
    ensures var r := ForwardSupertraits(bounds, prefix, proxyName, into, render);
            r.Err? ==> exists i :: 0 <= i < |bounds| && Blocking(bounds[i]) && r.error == BlockingError(bounds[i])
                                   && forall j :: 0 <= j < i ==> !Blocking(bounds[j])
    decreases |bounds|
  {
    var r := ForwardSupertraits(bounds, prefix, proxyName, into, render);
    if |bounds| > 0 && r.Err? {
      if Blocking(bounds[0]) {
        assert r.error == BlockingError(bounds[0]);
      } else {
        ForwardSupertraitsFirstError(bounds[1..], prefix, proxyName, into, render);
        var rest := ForwardSupertraits(bounds[1..], prefix, proxyName, into, render);
        assert r == rest;
        var i :| 0 <= i < |bounds[1..]| && Blocking(bounds[1..][i]) && rest.error == BlockingError(bounds[1..][i])
                 && forall j :: 0 <= j < i ==> !Blocking(bounds[1..][j]);
        assert bounds[1..][i] == bounds[i + 1];
        assert forall j :: 0 <= j < i + 1 ==> !Blocking(bounds[j]) by {
          forall j | 0 <= j < i + 1 ensures !Blocking(bounds[j]) {
            if j > 0 { assert bounds[j] == bounds[1..][j - 1]; }
          }
        }
      }
    }
  }

  // ---------------------------------------------------------------------
  // The declaration

  /** The binder macro `__extern_trait_Trait!($trait:path: $ty:ty)`: thunk
      templates plus the exported destructor. */
  datatype Binder = Binder(name: string, thunks: seq<ExportFn>, dropSymbol: string)

  /** Everything the declaration expands to, in output order: the trait as
      written, the proxy struct, `unsafe impl Trait for Proxy` with one entry
      per item, the extra supertrait impls, the proxy's `Drop` impl calling
      `dropLinkName`, the binder, and its re-export under the trait's name. */
  datatype DeclOutput = DeclOutput(
    item: ItemTrait,
    proxy: Args.ItemStruct,
    entries: seq<ImplEntry>,
    extraImpls: seq<ExtraImpl>,
    dropLinkName: string,
    binder: Binder,
    binderAlias: string)

  /** Every symbol the proxy side links against, in output order. */
  function ImportedSymbols(d: DeclOutput): seq<string>
  {
    LinkNames(d.entries) + AsRefLinkNames(d.extraImpls) + [d.dropLinkName]
  }

  /** Every symbol an expansion of the binder exports, in output order. */
  function ExportedSymbols(b: Binder): seq<string>
  {
    ExportNames(b.thunks) + [b.dropSymbol]
  }

  const MayNotHaveGenerics := "#[extern_trait] may not have generics"
  const MustBeUnsafe := "#[extern_trait] must be unsafe"

  /** `decl::expand`. Generic parameters are refused first, then a missing
      `unsafe`; per-item failures become compile errors in place while an
      `AsRef` supertrait that cannot be forwarded fails the whole
      declaration. A where-clause on the trait is not looked at. */
  function Expand(proxy: Args.ItemStruct, input: ItemTrait, env: PkgEnv, into: IntoTypeFor, render: Type -> string): (r: Result<DeclOutput, Error>)
    ensures |input.genericParams| > 0 ==> r == Err(Error(MayNotHaveGenerics, AtGenerics))
    ensures |input.genericParams| == 0 && !input.unsafety ==> r == Err(Error(MustBeUnsafe, CallSite))
    ensures r.Ok? <==>
              |input.genericParams| == 0 && input.unsafety
              && forall i :: 0 <= i < |input.supertraits| ==> !Blocking(input.supertraits[i])
    ensures r.Ok? ==>
              var d := r.value;
              var prefix := SymbolPrefix(env, input.ident);
              && d.item == input && d.proxy == proxy
              && |d.entries| == |input.items|
              && (forall i :: 0 <= i < |input.items| ==> d.entries[i] == ItemEntry(input.items[i], prefix, proxy.ident, into).0)
              && Capabilities(d.extraImpls) == Recognised(input.supertraits)
              && d.dropLinkName == d.binder.dropSymbol == DropSymbol(prefix)
              && d.binder.name == BinderName(input.ident) && d.binderAlias == input.ident
              && ImportedSymbols(d) == ExportedSymbols(d.binder)
  {
    if |input.genericParams| > 0 then Err(Error(MayNotHaveGenerics, AtGenerics))
    else if !input.unsafety then Err(Error(MustBeUnsafe, CallSite))
    else
      var prefix := SymbolPrefix(env, input.ident);
      var (entries, thunks) := ExpandItems(input.items, prefix, proxy.ident, into);
      match ForwardSupertraits(input.supertraits, prefix, proxy.ident, into, render)
      case Err(e) => Err(e)
      case Ok((extras, asRefThunks)) =>
        var dropName := DropSymbol(prefix);
        var binder := Binder(BinderName(input.ident), thunks + asRefThunks, dropName);
        var d := DeclOutput(input, proxy, entries, extras, dropName, binder, input.ident);
        ExportNamesAppend(thunks, asRefThunks);
        assert ImportedSymbols(d) == ExportedSymbols(binder);
        Ok(d)
  }

  /** A declaration that cannot forward one of its `AsRef` supertraits
      reports the first such bound. */
  lemma ExpandFirstBlockingError(proxy: Args.ItemStruct, input: ItemTrait, env: PkgEnv, into: IntoTypeFor, render: Type -> string)
    requires |input.genericParams| == 0 && input.unsafety
    ensures var r := Expand(proxy, input, env, into, render);
            r.Err? ==> exists i :: 0 <= i < |input.supertraits| && Blocking(input.supertraits[i])
                                   && r.error == BlockingError(input.supertraits[i])
                                   && forall j :: 0 <= j < i ==> !Blocking(input.supertraits[j])
  {
    ForwardSupertraitsFirstError(input.supertraits, SymbolPrefix(env, input.ident), proxy.ident, into, render);
  }

  /** The binder's templates for the trait's own methods come first, one
      per forwarding method, and each is the thunk generation of the
      signature of an item the proxy forwards, under that item's symbol. */
  lemma ExpandThunksFromItems(proxy: Args.ItemStruct, input: ItemTrait, env: PkgEnv, into: IntoTypeFor, render: Type -> string)
    requires Expand(proxy, input, env, into, render).Ok?
    ensures var d := Expand(proxy, input, env, into, render).value;
            var prefix := SymbolPrefix(env, input.ident);
            && |LinkNames(d.entries)| <= |d.binder.thunks|
            && FromItems(d.binder.thunks[..|LinkNames(d.entries)|], input.items, prefix, proxy.ident, into)
  {
    var prefix := SymbolPrefix(env, input.ident);
    var (entries, thunks) := ExpandItems(input.items, prefix, proxy.ident, into);
    var (extras, asRefThunks) := ForwardSupertraits(input.supertraits, prefix, proxy.ident, into, render).value;
    var d := Expand(proxy, input, env, into, render).value;
    assert d.entries == entries && d.binder.thunks == thunks + asRefThunks;
    TemplatesFromItems(input.items, prefix, proxy.ident, into);
    assert |LinkNames(entries)| == |thunks|;
    assert d.binder.thunks[..|thunks|] == thunks;
  }

  /** The proxy's `AsRef` impls and the binder's trailing templates are the
      two rewrites of `fn as_ref(&self) -> &T` for the same targets. */
  lemma ExpandAsRefPairsRewrites(proxy: Args.ItemStruct, input: ItemTrait, env: PkgEnv, into: IntoTypeFor, render: Type -> string)
    requires Expand(proxy, input, env, into, render).Ok?
    ensures var d := Expand(proxy, input, env, into, render).value;
            var prefix := SymbolPrefix(env, input.ident);
            && |LinkNames(d.entries)| <= |d.binder.thunks|
            && AsRefForwarders(d.extraImpls, prefix, proxy.ident, into, render)
            && AsRefTemplates(d.binder.thunks[|LinkNames(d.entries)|..], prefix, into, render)
  {
    var prefix := SymbolPrefix(env, input.ident);
    var (entries, thunks) := ExpandItems(input.items, prefix, proxy.ident, into);
    var (extras, asRefThunks) := ForwardSupertraits(input.supertraits, prefix, proxy.ident, into, render).value;
    var d := Expand(proxy, input, env, into, render).value;
    assert d.entries == entries && d.extraImpls == extras && d.binder.thunks == thunks + asRefThunks;
    ForwardSupertraitsPairsRewrites(input.supertraits, prefix, proxy.ident, into, render);
    assert |LinkNames(entries)| == |thunks|;
    assert d.binder.thunks[|thunks|..] == asRefThunks;
  }
}
