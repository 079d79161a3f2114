/** The `Self` analysis: whether a type mentions `Self` anywhere, and which
    of the four directly supported shapes it has. */
module Ty {
  import opened Wrappers
  import opened Syntax

  /** How a supported type refers to the implementing type: `Self`,
      `*const Self` / `*mut Self`, or `&Self` / `&mut Self`. */
  datatype SelfKind = Value | Ptr | Ref(mutable: bool)

  /** Whether `Self` occurs in `t`, looking through exactly the positions the
      macro visits: array, group, paren, pointer, reference and slice
      elements, bare-fn and tuple components, the qualified-self type of a
      path, each path segment's name, its type arguments and its
      parenthesized inputs and output. Trait objects, `impl Trait`, `!`,
      `_`, macros and verbatim tokens are never looked into. */
  predicate ContainsSelf(t: Type)
    decreases t
  {
    match t
    case Array(elem, _) => ContainsSelf(elem)
    case BareFn(inputs, output) =>
      (exists i :: 0 <= i < |inputs| && ContainsSelf(inputs[i])) || ReturnContainsSelf(output)
    case Group(elem) => ContainsSelf(elem)
    case Paren(elem) => ContainsSelf(elem)
    case PathType(qself, path) =>
      (qself.Some? && ContainsSelf(qself.value))
      || (exists j :: 0 <= j < |path.segments| && SegmentContainsSelf(path.segments[j]))
    case Ptr(_, elem) => ContainsSelf(elem)
    case Reference(_, _, elem) => ContainsSelf(elem)
    case Slice(elem) => ContainsSelf(elem)
    case Tuple(elems) => exists i :: 0 <= i < |elems| && ContainsSelf(elems[i])
    case Other(_) => false
  }

  predicate ReturnContainsSelf(r: ReturnType)
    decreases r
  {
    r.Returns? && ContainsSelf(r.ty)
  }

  predicate SegmentContainsSelf(s: PathSegment)
    decreases s
  {
    s.ident == "Self" || ArgumentsContainSelf(s.arguments)
  }

  /** Only `Type` generic arguments count; lifetimes, const arguments and
      associated-type bindings never do. */
  predicate ArgumentsContainSelf(a: PathArguments)
    decreases a
  {
    match a
    case NoArgs => false
    case AngleBracketed(args) =>
      exists k :: 0 <= k < |args| && args[k].TypeArg? && ContainsSelf(args[k].ty)
    case Parenthesized(inputs, output) =>
      (exists i :: 0 <= i < |inputs| && ContainsSelf(inputs[i])) || ReturnContainsSelf(output)
  }

  /** Classifies `t` against the four shapes the rewriting supports. The
      comparison with `Self` is structural, so `(Self)`, a grouped `Self`,
      `Self::Assoc` and `&&Self` are all unclassified. */
  function SelfKindOf(t: Type): (k: Option<SelfKind>)
    ensures k.Some? ==> ContainsSelf(t)
    ensures k == Some(Value) <==> t == SelfType
    ensures k == Some(SelfKind.Ptr) <==> t.Ptr? && t.elem == SelfType
    ensures forall m: bool :: k == Some(Ref(m)) <==> t.Reference? && t.elem == SelfType && t.mutable == m
  {
    if t == SelfType then
      assert SegmentContainsSelf(t.path.segments[0]);
      Some(Value)
    else if t.Ptr? then
      if t.elem == SelfType then
        assert SegmentContainsSelf(SelfType.path.segments[0]);
        Some(SelfKind.Ptr)
      else None
    else if t.Reference? then
      if t.elem == SelfType then
        assert SegmentContainsSelf(SelfType.path.segments[0]);
        Some(Ref(t.mutable))
      else None
    else None
  }

  /** `Self::Assoc`, the associated-type projection off `Self`. */
  const SelfAssoc: Type := PathType(None, Path(false, [PathSegment("Self", NoArgs), PathSegment("Assoc", NoArgs)]))

  /** `Vec<Self>`. */
  const VecOfSelf: Type := PathType(None, Path(false, [PathSegment("Vec", AngleBracketed([TypeArg(SelfType)]))]))

  /** The reference and pointer shapes are recognised whatever the
      lifetime, and the opaque forms never count as mentioning `Self`. */
  lemma SelfKindShapes(lifetime: Option<string>, m: bool, form: OtherForm)
    ensures SelfKindOf(Reference(lifetime, m, SelfType)) == Some(Ref(m))
    ensures SelfKindOf(Type.Ptr(m, SelfType)) == Some(SelfKind.Ptr)
    ensures !ContainsSelf(Other(form)) && SelfKindOf(Other(form)).None?
  {
  }

  /** Shapes that mention `Self` but are not among the four supported ones. */
  lemma UnclassifiedShapes(lifetime: Option<string>, m: bool)
    ensures ContainsSelf(Paren(SelfType)) && SelfKindOf(Paren(SelfType)).None?
    ensures ContainsSelf(Group(SelfType)) && SelfKindOf(Group(SelfType)).None?
    ensures ContainsSelf(SelfAssoc) && SelfKindOf(SelfAssoc).None?
    ensures var rr := Reference(lifetime, m, Reference(None, false, SelfType));
            ContainsSelf(rr) && SelfKindOf(rr).None?
  {
    assert SegmentContainsSelf(SelfType.path.segments[0]);
    assert SegmentContainsSelf(SelfAssoc.path.segments[0]);
  }

  /** `*const Vec<Self>` mentions `Self` but is not a supported shape. */
  lemma PointerToVecOfSelfUnclassified(m: bool)
    ensures ContainsSelf(Type.Ptr(m, VecOfSelf)) && SelfKindOf(Type.Ptr(m, VecOfSelf)).None?
  {
    assert SegmentContainsSelf(SelfType.path.segments[0]);
    assert ContainsSelf(VecOfSelf.path.segments[0].arguments.args[0].ty);
    assert ArgumentsContainSelf(VecOfSelf.path.segments[0].arguments);
    assert SegmentContainsSelf(VecOfSelf.path.segments[0]);
  }

  /** A one-step move from a type to one of the component types that the
      analysis visits. */
  datatype Step =
    | Elem                      // element of an array, group, paren, pointer, reference or slice
    | Index(i: nat)             // bare-fn input or tuple element
    | Output                    // bare-fn return type
    | QSelf                     // `T` in `<T as Trait>::Name`
    | SegArg(seg: nat, arg: nat) // type argument of a path segment
    | SegInput(seg: nat, i: nat) // parenthesized input of a path segment
    | SegOutput(seg: nat)        // parenthesized output of a path segment

  function Child(t: Type, s: Step): Option<Type>
  {
    match s
    case Elem =>
      if t.Array? || t.Group? || t.Paren? || t.Ptr? || t.Reference? || t.Slice? then Some(t.elem) else None
    case Index(i) =>
      if t.BareFn? && i < |t.inputs| then Some(t.inputs[i])
      else if t.Tuple? && i < |t.elems| then Some(t.elems[i])
      else None
    case Output =>
      if t.BareFn? && t.output.Returns? then Some(t.output.ty) else None
    case QSelf =>
      if t.PathType? then t.qself else None
    case SegArg(j, k) =>
      if t.PathType? && j < |t.path.segments| then
        var a := t.path.segments[j].arguments;
        if a.AngleBracketed? && k < |a.args| && a.args[k].TypeArg? then Some(a.args[k].ty) else None
      else None
    case SegInput(j, i) =>
      if t.PathType? && j < |t.path.segments| then
        var a := t.path.segments[j].arguments;
        if a.Parenthesized? && i < |a.inputs| then Some(a.inputs[i]) else None
      else None
    case SegOutput(j) =>
      if t.PathType? && j < |t.path.segments| then
        var a := t.path.segments[j].arguments;
        if a.Parenthesized? && a.output.Returns? then Some(a.output.ty) else None
      else None
  }

  /** The component reached from `t` by following `steps`, if any. */
  function Subterm(t: Type, steps: seq<Step>): Option<Type>
    decreases |steps|
  {
    if |steps| == 0 then Some(t)
    else match Child(t, steps[0])
      case None => None
      case Some(c) => Subterm(c, steps[1..])
  }

  /** A path type one of whose segments is literally `Self`. */
  predicate NamesSelf(t: Type)
  {
    t.PathType? && exists j :: 0 <= j < |t.path.segments| && t.path.segments[j].ident == "Self"
  }

  /** `Self` is named at the position `steps` of `t`. */
  predicate SelfAt(t: Type, steps: seq<Step>)
  {
    var u := Subterm(t, steps);
    u.Some? && NamesSelf(u.value)
  }

  lemma {:induction false} SubtermCons(t: Type, s: Step, rest: seq<Step>)
    requires Child(t, s).Some?
    ensures Subterm(t, [s] + rest) == Subterm(Child(t, s).value, rest)
  {
    assert ([s] + rest)[1..] == rest;
  }

  /** A `Self` in a visited component is a `Self` in the whole type. */
  lemma ChildContainsSelf(t: Type, s: Step)
    requires Child(t, s).Some? && ContainsSelf(Child(t, s).value)
    ensures ContainsSelf(t)
  {
    match s
    case Elem =>
    case Index(i) =>
    case Output =>
    case QSelf =>
    case SegArg(j, k) =>
      assert ArgumentsContainSelf(t.path.segments[j].arguments);
      assert SegmentContainsSelf(t.path.segments[j]);
    case SegInput(j, i) =>
      assert ArgumentsContainSelf(t.path.segments[j].arguments);
      assert SegmentContainsSelf(t.path.segments[j]);
    case SegOutput(j) =>
      assert ReturnContainsSelf(t.path.segments[j].arguments.output);
      assert SegmentContainsSelf(t.path.segments[j]);
  }

  lemma {:induction false} SelfAtImpliesContainsSelf(t: Type, steps: seq<Step>)
    requires SelfAt(t, steps)
    ensures ContainsSelf(t)
    decreases |steps|
  {
    if |steps| == 0 {
      var j :| 0 <= j < |t.path.segments| && t.path.segments[j].ident == "Self";
      assert SegmentContainsSelf(t.path.segments[j]);
    } else {
      var c := Child(t, steps[0]).value;
      SelfAtImpliesContainsSelf(c, steps[1..]);
      ChildContainsSelf(t, steps[0]);
    }
  }

  /** Extends a witness for a component to a witness for the whole type. */
  lemma {:induction false} Prepend(t: Type, s: Step, c: Type)
    requires Child(t, s) == Some(c)
    requires exists steps :: SelfAt(c, steps)
    ensures exists steps :: SelfAt(t, steps)
  {
    var rest :| SelfAt(c, rest);
    SubtermCons(t, s, rest);
    assert SelfAt(t, [s] + rest);
  }

  lemma {:induction false} ContainsSelfHasWitness(t: Type)
    requires ContainsSelf(t)
    ensures exists steps :: SelfAt(t, steps)
    decreases t, 1
  {
    match t
    case Array(elem, _) =>
      ContainsSelfHasWitness(elem); Prepend(t, Elem, elem);
    case Group(elem) =>
      ContainsSelfHasWitness(elem); Prepend(t, Elem, elem);
    case Paren(elem) =>
      ContainsSelfHasWitness(elem); Prepend(t, Elem, elem);
    case Ptr(_, elem) =>
      ContainsSelfHasWitness(elem); Prepend(t, Elem, elem);
    case Reference(_, _, elem) =>
      ContainsSelfHasWitness(elem); Prepend(t, Elem, elem);
    case Slice(elem) =>
      ContainsSelfHasWitness(elem); Prepend(t, Elem, elem);
    case BareFn(inputs, output) =>
      if i :| 0 <= i < |inputs| && ContainsSelf(inputs[i]) {
        ContainsSelfHasWitness(inputs[i]); Prepend(t, Index(i), inputs[i]);
      } else {
        ContainsSelfHasWitness(output.ty); Prepend(t, Output, output.ty);
      }
    case Tuple(elems) =>
      var i :| 0 <= i < |elems| && ContainsSelf(elems[i]);
      ContainsSelfHasWitness(elems[i]); Prepend(t, Index(i), elems[i]);
    case PathType(_, _) =>
      PathHasWitness(t);
  }

  /** The path case of `ContainsSelfHasWitness`. */
  lemma {:induction false} PathHasWitness(t: Type)
    requires t.PathType? && ContainsSelf(t)
    ensures exists steps :: SelfAt(t, steps)
    decreases t, 0
  {
    var qself, path := t.qself, t.path;
    if qself.Some? && ContainsSelf(qself.value) {
      ContainsSelfHasWitness(qself.value); Prepend(t, QSelf, qself.value);
    } else {
      var j :| 0 <= j < |path.segments| && SegmentContainsSelf(path.segments[j]);
      var seg := path.segments[j];
      if seg.ident == "Self" {
        assert SelfAt(t, []);
      } else {
        assert ArgumentsContainSelf(seg.arguments);
        var a := seg.arguments;
        if a.AngleBracketed? {
          var k :| 0 <= k < |a.args| && a.args[k].TypeArg? && ContainsSelf(a.args[k].ty);
          ContainsSelfHasWitness(a.args[k].ty); Prepend(t, SegArg(j, k), a.args[k].ty);
        } else if i :| 0 <= i < |a.inputs| && ContainsSelf(a.inputs[i]) {
          ContainsSelfHasWitness(a.inputs[i]); Prepend(t, SegInput(j, i), a.inputs[i]);
        } else {
          ContainsSelfHasWitness(a.output.ty); Prepend(t, SegOutput(j), a.output.ty);
        }
      }
    }
  }

  /** The recursive analysis agrees with the positional reading: `t`
      contains `Self` exactly when some visited position of `t` is a path
      with a segment named `Self`. */
  lemma ContainsSelfIffSelfAt(t: Type)
    ensures ContainsSelf(t) <==> exists steps :: SelfAt(t, steps)
  {
    if ContainsSelf(t) {
      ContainsSelfHasWitness(t);
    }
    if steps :| SelfAt(t, steps) {
      SelfAtImpliesContainsSelf(t, steps);
    }
  }
}
