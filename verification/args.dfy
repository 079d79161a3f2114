/** The proxy argument of the declaration attribute: its parse from the
    attribute's tokens, and the opaque two-word struct it becomes. */
module Args {
  import opened Wrappers
  import opened Syntax

  /** An outer attribute `#[...]`, kept as its text. */
  datatype Attribute = Attribute(text: string)

  /** `pub(in path)`, `pub(crate)` and friends are `Restricted`. */
  datatype Visibility = Inherited | Public | Restricted(path: string)

  /** The parsed attribute argument, e.g. `#[derive(Debug)] pub MyProxy`. */
  datatype Proxy = Proxy(attrs: seq<Attribute>, vis: Visibility, ident: string)

  /** The attribute argument's token trees at the granularity the parse
      distinguishes: a whole outer attribute, a `pub` with its optional
      restriction, an identifier, or anything else. */
  datatype Token =
    | AttrToken(attr: Attribute)
    | PubToken(restriction: Option<string>)
    | IdentToken(name: string)
    | OtherToken(text: string)

  datatype Generics = Generics(params: seq<string>, whereClause: Option<seq<string>>)

  datatype Fields = Named(names: seq<string>, types: seq<Type>) | Unnamed(types: seq<Type>) | Unit

  datatype ItemStruct = ItemStruct(
    attrs: seq<Attribute>,
    vis: Visibility,
    ident: string,
    generics: Generics,
    fields: Fields)

  /** Number of outer attributes at the front of `tokens`. */
  function LeadingAttrs(tokens: seq<Token>): (n: nat)
    ensures n <= |tokens|
    ensures forall k :: 0 <= k < n ==> tokens[k].AttrToken?
    ensures n < |tokens| ==> !tokens[n].AttrToken?
  {
    if |tokens| == 0 || !tokens[0].AttrToken? then 0 else 1 + LeadingAttrs(tokens[1..])
  }

  function AttrsOf(tokens: seq<Token>): seq<Attribute>
    requires forall k :: 0 <= k < |tokens| ==> tokens[k].AttrToken?
  {
    seq(|tokens|, k requires 0 <= k < |tokens| => tokens[k].attr)
  }

  function VisibilityOf(restriction: Option<string>): Visibility
  {
    if restriction.None? then Public else Restricted(restriction.value)
  }

  /** Reads the outer attributes, then the visibility (absent means
      inherited), then the identifier; anything left over, or a missing
      identifier, is a syntax error. */
  function Parse(tokens: seq<Token>): (r: Result<Proxy, Error>)
    ensures r.Ok? ==> Print(r.value) == tokens
  {
    var n := LeadingAttrs(tokens);
    var attrs := AttrsOf(tokens[..n]);
    var rest := tokens[n..];
    var (vis, rest) :=
      if |rest| > 0 && rest[0].PubToken? then (VisibilityOf(rest[0].restriction), rest[1..])
      else (Inherited, rest);
    if |rest| == 1 && rest[0].IdentToken? then
      var p := Proxy(attrs, vis, rest[0].name);
      assert Print(p) == tokens by {
        assert tokens == tokens[..n] + tokens[n..];
        AttrTokensOf(tokens[..n]);
      }
      Ok(p)
    else
      Err(SyntaxError)
  }

  /** The tokens a proxy argument is written with. */
  function Print(p: Proxy): (tokens: seq<Token>)
  {
    AttrTokens(p.attrs)
    + (match p.vis
       case Inherited => []
       case Public => [PubToken(None)]
       case Restricted(path) => [PubToken(Some(path))])
    + [IdentToken(p.ident)]
  }

  function AttrTokens(attrs: seq<Attribute>): (tokens: seq<Token>)
    ensures |tokens| == |attrs|
    ensures forall k :: 0 <= k < |attrs| ==> tokens[k] == AttrToken(attrs[k])
  {
    seq(|attrs|, k requires 0 <= k < |attrs| => AttrToken(attrs[k]))
  }

  lemma AttrTokensOf(tokens: seq<Token>)
    requires forall k :: 0 <= k < |tokens| ==> tokens[k].AttrToken?
    ensures AttrTokens(AttrsOf(tokens)) == tokens
  {
  }

  lemma {:induction false} LeadingAttrsOfPrint(attrs: seq<Attribute>, tail: seq<Token>)
    requires |tail| > 0 && !tail[0].AttrToken?
    ensures LeadingAttrs(AttrTokens(attrs) + tail) == |attrs|
    decreases |attrs|
  {
    if |attrs| > 0 {
      assert (AttrTokens(attrs) + tail)[1..] == AttrTokens(attrs[1..]) + tail;
      LeadingAttrsOfPrint(attrs[1..], tail);
    }
  }

  /** Parsing what a proxy argument prints as gives that argument back. */
  lemma ParsePrint(p: Proxy)
    ensures Parse(Print(p)) == Ok(p)
  {
    var vis := match p.vis
      case Inherited => []
      case Public => [PubToken(None)]
      case Restricted(path) => [PubToken(Some(path))];
    var tail := vis + [IdentToken(p.ident)];
    var tokens := Print(p);
    assert tokens == AttrTokens(p.attrs) + tail;
    LeadingAttrsOfPrint(p.attrs, tail);
    assert tokens[..|p.attrs|] == AttrTokens(p.attrs);
    assert AttrsOf(tokens[..|p.attrs|]) == p.attrs;
    assert tokens[|p.attrs|..] == tail;
  }

  /** The struct a proxy argument becomes: same attributes, visibility and
      name, no generics, and exactly two unnamed `*const ()` fields. */
  function ToItemStruct(p: Proxy): (s: ItemStruct)
    ensures s.attrs == p.attrs && s.vis == p.vis && s.ident == p.ident
    ensures s.generics.params == [] && s.generics.whereClause.None?
    ensures s.fields.Unnamed? && |s.fields.types| == 2
    ensures forall k :: 0 <= k < |s.fields.types| ==> s.fields.types[k] == OpaqueWord
  {
    ItemStruct(p.attrs, p.vis, p.ident, Generics([], None), Unnamed([OpaqueWord, OpaqueWord]))
  }

  /** Size in bytes of a struct of thin-pointer fields (`*const ()` is one
      machine word). */
  function PointerStructSize(s: ItemStruct, wordSize: nat): nat
    requires s.fields.Unnamed?
    requires forall k :: 0 <= k < |s.fields.types| ==> s.fields.types[k] == OpaqueWord
  {
    |s.fields.types| * wordSize
  }
}
