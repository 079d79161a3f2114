# extern-trait, modelled in Dafny

`extern-trait` is a Rust procedural macro. It lets a trait implementation be
used across a compiled-artifact boundary. The trait is declared with
`#[extern_trait(Proxy)]` on an `unsafe trait`. That expansion produces:

- an opaque two-word `Proxy` struct;
- an `impl Trait for Proxy` whose methods call `extern "Rust"` functions under
  fixed link names;
- a `Drop` impl for the proxy;
- a *binder* macro, re-exported under the trait's name.

A concrete type registers with `#[extern_trait]` on `impl Trait for Type`.
That expansion checks the impl, asserts at compile time that the type fits in
two machine words, and invokes the binder. The binder then exports the thunks
under the same link names.

This project models the macro's analysis and rewriting logic, using pure
functions over already-parsed syntax trees:

- `syntax.dfy`: the fragment of the type grammar the macro distinguishes, and its errors.
- `ty.dfy` (`src/ty.rs`): `contains_self` and `self_kind`. It also proves that
  the recursive analysis agrees with a positional reading: some visited
  position of the type is a path with a segment named `Self`.
- `args.dfy` (`src/args.rs`): parsing the proxy argument and building the two-field struct.
- `decl.rs` → `decl.dfy`:
  - argument renaming;
  - the proxy-side rewrite (`generate_proxy_impl`);
  - the export-side rewrite (`generate_macro_rules`);
  - symbol naming;
  - the item loop and the supertrait whitelist;
  - `expand`.
- `imp.dfy` (`src/imp.rs`): registration checks, the size assertion and the binder call.
- `lib.dfy` (`src/lib.rs`): the mode selector. It also proves that a registration
  exports exactly the symbols the declaration links against.
- `text.dfy` and `wrappers.dfy`: decimal printing of argument positions, and `Option`/`Result`.

Behaviour the proofs make explicit:

- Link names are computed once, at the declaration. They are baked into the
  binder as string literals, so the registering crate's package identity plays
  no part (`Lib.Instantiate`). Neither site recomputes the names: the
  registering site only expands the binder.
- A method named `drop` gets the destructor's symbol. A method named `AsRef_T`
  gets the symbol of the `AsRef<T>` forwarding. See `Decl.SymbolCollisions`.
  The symbols of distinct method names are distinct (`Decl.MethodSymbolInjective`).
  Distinctness across these three families is not claimed.
- The proxy side binds the receiver as `self` and typed parameters as `_i`.
  The export thunk binds every parameter as `_i`, the receiver as `_0`.
- A where-clause on the declared trait is not rejected; only generic
  parameters are. On an impl, even an empty `where` is rejected.
- The registration does not check that the impl is written `unsafe impl`
  (`Imp.UnsafetyNotChecked`).
- `self_kind` compares with `Self` structurally. So `(Self)`, a grouped
  `Self`, `Self::Assoc`, `&&Self` and `*const Vec<Self>` are unclassified.
  In a signature they are reported as "too complex".

## Model

| member | source | states |
|---|---|---|
| Ty.ContainsSelfIffSelfAt | src/ty.rs:15-83 | A type contains `Self` exactly when some position the analysis visits is a path with a segment literally named `Self`. Visited positions are element types, fn inputs/outputs, qualified-self types, and type generic arguments. Associated-type bindings and opaque forms are never visited. |
| Ty.SelfKindOf | src/ty.rs:85-105 | `Value` exactly for the bare path `Self`. `Ptr` exactly for `*const Self` / `*mut Self`. `Ref(m)` exactly for `&Self` / `&mut Self`, with m = mutability. Any classified type contains `Self`. |
| Ty.SelfKindShapes | src/ty.rs:81-105 | `*const Self`/`*mut Self` give `Ptr` and `&Self`/`&mut Self` give `Ref(m)`, whatever the lifetime. Trait objects, `impl Trait`, `!`, `_`, macros and verbatim tokens never contain `Self` and are unclassified. |
| Ty.UnclassifiedShapes | src/ty.rs:85-105 | `(Self)`, a grouped `Self`, `Self::Assoc` and `&&Self` contain `Self` but are unclassified. |
| Ty.PointerToVecOfSelfUnclassified | src/ty.rs:90-95 | `*const Vec<Self>` contains `Self` but is unclassified. |
| Args.Parse | src/args.rs:13-21 | A successful parse reads attributes, then visibility, then the identifier, and nothing is left over: printing the result gives back the input tokens. |
| Args.ParsePrint | src/args.rs:13-21 | Parsing the printed form of any proxy argument returns that argument. |
| Args.ToItemStruct | src/args.rs:23-37 | Attributes, visibility and name are carried over. The struct has no generics and no where-clause. It has exactly two unnamed fields, both `*const ()`. |
| Decl.RenameArgs | src/decl.rs:159-171 | Same name, output and parameter types. A receiver stays as written and is passed as `self`. Typed parameter i is rebound to `_i` (position counting the receiver), and that name is passed. |
| Decl.CallArgsDistinct | src/decl.rs:164-166 | When only the first parameter may be a receiver, the forwarded argument names are pairwise distinct. |
| Text.DecimalInjective | src/decl.rs:166 | Distinct positions print as distinct decimal names. |
| Decl.RewriteOutput | src/decl.rs:175-191 | A return type is accepted iff it has no `Self` or is `Self`, `*_ Self` or `&_ Self`. Otherwise the error is "Too complex return type". A type without `Self` is kept unchanged; a `Self` return of a supported shape, the owned `Self` included, becomes the proxy type mapped through its kind. |
| Decl.RewriteInput | src/decl.rs:200-219 | A parameter type is accepted iff it has no `Self` or is a pointer/reference to exactly `Self`. Bare `Self` gives the "not supported" error; any other `Self` gives "Too complex argument type". A type without `Self` is kept unchanged; a pointer/reference-to-`Self` parameter becomes the proxy type mapped through its kind, never the owned kind. |
| Decl.RewriteInputs | src/decl.rs:193-220 | Succeeds iff every parameter type is accepted. Then the result has one rewritten type per parameter. Otherwise the error is the first unaccepted parameter's. |
| Decl.GenerateProxyImpl | src/decl.rs:151-231 | Succeeds iff the return type and every parameter (receiver included) are accepted. The return type is checked first, then the first failing parameter. On success the extern declaration is under the given link name, has one input per parameter, keeps every `Self`-free type unchanged, and maps each `Self` position through its kind. The signature is then classifiable, so the thunk generation can unwrap. |
| Decl.ReceiverMutabilityCarried | src/decl.rs:193-215 | A `&self` / `&mut self` receiver crosses as the reference kind with the same mutability, whatever its lifetime. |
| Decl.ByValueReceiverRejected | src/decl.rs:203-208 | `fn f(self)` with a supported return is rejected with "Passing `Self` by value is not supported". |
| Decl.SelfFreeSignatureUnchanged | src/decl.rs:175-230 | A signature with no `Self` in any parameter or return type is accepted, and its extern declaration has exactly the original parameter types and return type. |
| Decl.GenerateMacroRules | src/decl.rs:233-283 | For a classifiable signature: a thunk with the given export name, identifier and trait. It has one parameter `_i` per input, the receiver included. It keeps `Self`-free parameter and return types unchanged, and replaces each parameter or return type that mentions `Self` by the placeholder `$ty` mapped through that position's kind (for `fn new() -> Self`, the owned kind). |
| Decl.ProxyAndThunkAgree | src/decl.rs:151-283 | For an accepted method the thunk is exported under the proxy's link name and has as many parameters as the extern declaration. Each parameter, and the return type, is either unchanged on both sides, or replaced on both sides by the same `Self` kind (proxy type on one side, `$ty` on the other). |
| Decl.UnknownEnvPrefix | src/decl.rs:32-44 | Each of the package name, version and crate name, when missing, reads `<unknown>` independently of the other two; with none of them the prefix is `__extern_trait_<unknown>_<unknown>_<unknown>_Trait`. |
| Decl.MethodSymbolInjective | src/decl.rs:55 | Under one prefix, distinct method names give distinct symbols. |
| Decl.SymbolCollisions | src/decl.rs:55-107 | A method `drop` gets the destructor's symbol (`prefix_drop`). A method `AsRef_T` gets the symbol of the `AsRef<T>` forwarding. |
| Decl.ItemEntry | src/decl.rs:47-65 | A non-method item gives "may only contain methods". A method gives a forwarding method iff its proxy rewrite succeeds, otherwise that rewrite's error. A thunk template is produced exactly for forwarding methods, under the method's symbol. |
| Decl.ItemEntryPairsRewrites | src/decl.rs:47-62 | For an accepted method, the forwarding method is the proxy rewrite of its signature and the template is the thunk generation of the same signature, both under the method's symbol, so `Decl.ProxyAndThunkAgree` applies to the pair. |
| Decl.ExpandItems | src/decl.rs:46-66 | One entry per item, each decided independently: an error does not stop the loop. The link names of the forwarding methods equal, in order, the export names of the templates. |
| Decl.TemplatesFromItems | src/decl.rs:46-66 | Every template the item loop collects is the one some item's turn produced. |
| Decl.Recognise | src/decl.rs:70-103 | Only unqualified single-segment bounds are recognised: `Send`, `Sync`, and `AsRef` whose first generic argument is a type (that type is the target). |
| Decl.AsRefSignatureAccepted | src/decl.rs:82-88 | The synthetic `fn as_ref(&self) -> &T` is accepted iff `T` has no `Self` or is `Self`. Otherwise the error is "Too complex return type" at `&T`. |
| Decl.ForwardSupertraits | src/decl.rs:70-105 | Succeeds iff no recognised `AsRef` target is unforwardable. Otherwise the error is some such bound's. The extra impls follow the recognised bounds in order. The `AsRef` link names equal the thunk export names. |
| Decl.ForwardSupertraitsFirstError | src/decl.rs:70-105 | The error is the first unforwardable bound's: every bound before it can be forwarded. |
| Decl.ForwardSupertraitsPairsRewrites | src/decl.rs:82-98 | Each `AsRef` impl forwards through the proxy rewrite of `fn as_ref(&self) -> &T` for its target, and each template is the thunk generation of that signature for the target of its `AsRef<T>`, both under the target's symbol. |
| Decl.Expand | src/decl.rs:10-149 | Generics are rejected first, then a missing `unsafe`. Success iff neither applies and no `AsRef` bound blocks. On success there is one entry per item, the binder is `__extern_trait_Trait` re-exported as `Trait`, and the drop link name is the binder's drop symbol `prefix_drop`. The symbols imported on the proxy side equal, in order, those the binder exports. |
| Decl.ExpandFirstBlockingError | src/decl.rs:70-105 | A generic-free `unsafe` trait that is still refused reports its first `AsRef` bound that cannot be forwarded. |
| Decl.ExpandThunksFromItems | src/decl.rs:46-66 | The binder's first templates, one per forwarding method, were each produced by some item's turn, so each is the thunk for an accepted method's own signature. |
| Decl.ExpandAsRefPairsRewrites | src/decl.rs:70-105 | The proxy's `AsRef` impls and the binder's remaining templates are the proxy rewrite and the thunk generation of `fn as_ref(&self) -> &T` for their own targets, under those targets' symbols. |
| Imp.UnsafetyNotChecked | src/imp.rs:5-41 | Whether the impl is written `unsafe impl` changes neither acceptance nor the emitted impl. |
| Imp.Expand | src/imp.rs:5-41 | A non-trait impl is rejected first, then generic parameters, then any where-clause, even an empty one. On success the output is the impl unchanged, the size assertion on the self type, and the binder invoked with the trait path as both macro and trait argument. |
| Imp.CheckSize | src/imp.rs:26-33 | A failed size assertion names the type: "<type> is too large to be used with #[extern_trait]". |
| Imp.SizeBoundary | src/imp.rs:29 | Exactly two words passes; one byte more fails. |
| Imp.AcceptedTypeFitsProxy | src/imp.rs:29 | The assertion passes exactly for sizes that fit in the proxy struct's two pointer fields. |
| Lib.ExternTrait | src/lib.rs:12-21 | Non-empty arguments: parse the proxy (an error ends expansion), require a trait, declare. Empty arguments: require an impl, register. Errors are passed through. |
| Lib.Instantiate | src/decl.rs:132-144 | Expanding the binder exports one thunk per template under its export name, then the destructor under the drop symbol. All are for the registered type, templates for `$trait` call through the registered trait path, and templates for `AsRef<T>` call through `AsRef<T>`. |
| Lib.RegistrationExportsDeclaredSymbols | src/decl.rs:107-147 | Any accepted registration that expands a declaration's binder exports, in order, exactly the symbols the declaration's proxy links against: methods, `AsRef` forwarding, destructor. |

## Left out

- Token generation: `quote!`, token streams, `to_compile_error`, output text. Outputs are datatypes listing the generated items in order.
- Spans: an error records only which node it points at.
- `SelfKind::into_type_for` is not part of this model. It is a function parameter (`Decl.IntoTypeFor`), and nothing is assumed about it.
- The token rendering of types (`to_token_stream`, `stringify!`) is a function parameter too.
- `std::env::var`: the three package-identity values are `Option<string>` inputs (`Decl.PkgEnv`).
- Parsing by `syn`. Attributes, visibilities and identifiers are whole tokens; keywords are not rejected as identifiers. Parse errors are a message-less `SyntaxError`.
- Parts of a signature the rewrite clones without looking at: generics, `async`, `unsafe`, ABI, variadics, parameter attributes. Only the proxy method keeps them; the extern declaration and the export thunk emit none of them. So a generic method is accepted, but its extern declaration names a type parameter that is not in scope there, and the generated code does not compile. The model neither represents these parts nor that failure. Also bare-fn argument names and lifetimes, a qualified self's position, array length expressions, and trait items other than their kind.
- Runtime semantics of the generated code: linking, `drop_in_place`, the bit-level proxy representation, and the real `size_of`. Sizes are naturals given as inputs.
- Macro path resolution: which binder a registration's trait path names. `Lib.RegistrationExportsDeclaredSymbols` holds for any registration that expands the binder, so it needs no model of name lookup.
- The runtime reference-counting test and the reflection test. They depend on linking, or on functions that none of the modelled files generate.
- Imp.CheckSize: its contract states only the diagnostic. The accept/reject boundary is stated by `Imp.AcceptedTypeFitsProxy` and `Imp.SizeBoundary`.
- Decl.ForwardSupertraits, Decl.Expand: the `AsRef<T>` forwarding builds `fn as_ref(&self) -> &T` by re-parsing tokens. Reference types bind tighter than `+`, so for a trait-object target with several bounds written without parentheses (`AsRef<dyn Any + Send>`) the re-parse leaves `+ Send` over and the macro panics. Trait objects are one opaque form here, with no bound count, so the model forwards such a target and their "succeeds iff" does not hold for it.
