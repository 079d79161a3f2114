/** The already-parsed syntax trees the macro works on: the fragment of
    `syn`'s type grammar that the `Self` analysis distinguishes, paths,
    and the compile errors the expansion reports. Parsing and printing of
    tokens are not modelled. */
module Syntax {
  import opened Wrappers

  /** A path such as `core::fmt::Debug` or `AsRef<str>`; `leadingColon`
      records a leading `::`. */
  datatype Path = Path(leadingColon: bool, segments: seq<PathSegment>)

  datatype PathSegment = PathSegment(ident: string, arguments: PathArguments)

  /** What may follow a path segment: nothing, `<...>`, or `(...) -> ...`. */
  datatype PathArguments =
    | NoArgs
    | AngleBracketed(args: seq<GenericArgument>)
    | Parenthesized(inputs: seq<Type>, output: ReturnType)

  /** A generic argument. Only `Type` arguments hold a type that the
      `Self` analysis looks into; an associated-type binding `Item = T`
      carries a type that it deliberately skips. */
  datatype GenericArgument =
    | LifetimeArg(name: string)
    | TypeArg(ty: Type)
    | ConstArg(expr: string)
    | AssocType(name: string, bound: Type)
    | OtherArg(text: string)

  datatype ReturnType = Default | Returns(ty: Type)

  /** Type forms that the analysis treats as opaque. */
  datatype OtherForm = TraitObject | ImplTrait | Never | Infer | Macro | Verbatim(text: string)

  /** A type expression. `Ptr` is `*const T` (mutable = false) or
      `*mut T`; `Reference` is `&'a T` or `&'a mut T`. */
  datatype Type =
    | Array(elem: Type, len: string)
    | BareFn(inputs: seq<Type>, output: ReturnType)
    | Group(elem: Type)
    | Paren(elem: Type)
    | PathType(qself: Option<Type>, path: Path)
    | Ptr(mutable: bool, elem: Type)
    | Reference(lifetime: Option<string>, mutable: bool, elem: Type)
    | Slice(elem: Type)
    | Tuple(elems: seq<Type>)
    | Other(form: OtherForm)

  /** The single-segment path type named by `ident`, as `parse_quote!(#ident)`
      produces it. */
  function NamedType(ident: string): (t: Type)
    ensures t.PathType? && t.qself.None? && !t.path.leadingColon
    ensures |t.path.segments| == 1 && t.path.segments[0] == PathSegment(ident, NoArgs)
  {
    PathType(None, Path(false, [PathSegment(ident, NoArgs)]))
  }

  /** The bare type `Self`. */
  const SelfType: Type := NamedType("Self")

  /** `*const ()`, the type of both fields of a proxy. */
  const OpaqueWord: Type := Ptr(false, Tuple([]))

  /** Where a diagnostic points. */
  datatype Span =
    | CallSite
    | AtType(ty: Type)
    | AtGenerics
    | AtWhereClause
    | AtItem(description: string)

  /** A compile error: either one the macro reports itself, with its
      message, or a syntax error raised while parsing its input. */
  datatype Error = Error(message: string, span: Span) | SyntaxError
}
