/**
 * The compile-time type functions that pick how a functor is run: unwrapping
 * of `TExpected`/`TExpectedFuture`, the return and parameter classifications,
 * and the resolution of an initial or continuation functor's signature.
 * Types are described by `TypeDesc`; a functor by which argument lists it
 * can be called with and what it returns for each.
 */
module FutureExtensionTypeTraits {
  import opened Wrappers

  datatype TypeDesc =
    | Void
    | Plain(name: string)
    | ExpectedOf(inner: TypeDesc)
    | ExpectedFutureOf(inner: TypeDesc)

  predicate IsExpected(t: TypeDesc) { t.ExpectedOf? }
  predicate IsExpectedFuture(t: TypeDesc) { t.ExpectedFutureOf? }
  predicate IsVoidType(t: TypeDesc) { t.Void? }

  /** `TUnwrap`: strips every layer of `TExpected`/`TExpectedFuture`. */
  function Unwrap(t: TypeDesc): (u: TypeDesc)
    ensures !IsExpected(u) && !IsExpectedFuture(u)
    ensures !IsExpected(t) && !IsExpectedFuture(t) ==> u == t
  {
    match t
    case ExpectedOf(inner) => Unwrap(inner)
    case ExpectedFutureOf(inner) => Unwrap(inner)
    case _ => t
  }

  /** The nesting depth of wrappers around a type. */
  function WrapperDepth(t: TypeDesc): nat {
    match t
    case ExpectedOf(inner) => 1 + WrapperDepth(inner)
    case ExpectedFutureOf(inner) => 1 + WrapperDepth(inner)
    case _ => 0
  }

  /** Unwrapping is idempotent, removes exactly the wrappers, and sees
      through any wrapper added on top. */
  lemma {:induction false} UnwrapProperties(t: TypeDesc)
    ensures Unwrap(Unwrap(t)) == Unwrap(t)
    ensures WrapperDepth(Unwrap(t)) == 0
    ensures Unwrap(ExpectedOf(t)) == Unwrap(t) && Unwrap(ExpectedFutureOf(t)) == Unwrap(t)
  {
    match t
    case ExpectedOf(inner) => UnwrapProperties(inner);
    case ExpectedFutureOf(inner) => UnwrapProperties(inner);
    case _ =>
  }

  // Return-type classification (`TReturnTypeSpecializations`).

  predicate ReturnIsExpectedFuture(r: TypeDesc) { IsExpectedFuture(r) }
  predicate ReturnIsPlainValueOrExpected(r: TypeDesc) { !IsExpectedFuture(r) && (IsExpected(r) || !IsVoidType(r)) }
  predicate ReturnIsNonExpectedAndVoid(r: TypeDesc) { !IsExpected(r) && IsVoidType(r) }

  // Parameter-type classification (`TParamTypeSpecializations`).

  predicate ParamIsVoidValueBased(p: TypeDesc) { IsVoidType(p) }
  predicate ParamIsNonVoidValueBased(p: TypeDesc) { !IsVoidType(p) && !IsExpected(p) }
  predicate ParamIsExpectedBased(p: TypeDesc) { IsExpected(p) }

  datatype ReturnKind = ReturnsPlainValueOrExpected | ReturnsVoid | ReturnsExpectedFuture
  datatype ParamKind = TakesVoid | TakesValue | TakesExpected

  predicate ReturnMatches(k: ReturnKind, r: TypeDesc) {
    match k
    case ReturnsPlainValueOrExpected => ReturnIsPlainValueOrExpected(r)
    case ReturnsVoid => ReturnIsNonExpectedAndVoid(r)
    case ReturnsExpectedFuture => ReturnIsExpectedFuture(r)
  }

  predicate ParamMatches(k: ParamKind, p: TypeDesc) {
    match k
    case TakesVoid => ParamIsVoidValueBased(p)
    case TakesValue => ParamIsNonVoidValueBased(p)
    case TakesExpected => ParamIsExpectedBased(p)
  }

  /** Every return type is in exactly one return class. */
  function ReturnKindOf(r: TypeDesc): (k: ReturnKind)
    ensures ReturnMatches(k, r)
    ensures forall k' :: ReturnMatches(k', r) ==> k' == k
  {
    if IsExpectedFuture(r) then ReturnsExpectedFuture
    else if IsVoidType(r) then ReturnsVoid
    else ReturnsPlainValueOrExpected
  }

  /** Every parameter type is in exactly one parameter class. */
  function ParamKindOf(p: TypeDesc): (k: ParamKind)
    ensures ParamMatches(k, p)
    ensures forall k' :: ParamMatches(k', p) ==> k' == k
  {
    if IsVoidType(p) then TakesVoid
    else if IsExpected(p) then TakesExpected
    else TakesValue
  }

  /** One of the nine continuation specialisations: a return class paired with
      a parameter class. */
  datatype Shape = Shape(returnKind: ReturnKind, paramKind: ParamKind)

  /** `TContinuationFunctorSpecializations<R, P>`: shape `s` is enabled for
      return type `r` and parameter type `p`. */
  predicate ShapeEnabled(s: Shape, r: TypeDesc, p: TypeDesc) {
    ReturnMatches(s.returnKind, r) && ParamMatches(s.paramKind, p)
  }

  /** The nine specialisations are pairwise exclusive and one of them is
      enabled for every pair of types. */
  lemma ExactlyOneShape(r: TypeDesc, p: TypeDesc)
    ensures ShapeEnabled(Shape(ReturnKindOf(r), ParamKindOf(p)), r, p)
    ensures forall s1, s2 :: ShapeEnabled(s1, r, p) && ShapeEnabled(s2, r, p) ==> s1 == s2
  {
  }

  /** A functor: the argument lists it accepts and what each call returns. */
  datatype Functor = Functor(callableWith: seq<TypeDesc> -> bool, returnFor: seq<TypeDesc> -> TypeDesc)

  /** `TInitialFunctorTypes`: an initial functor must be callable without
      arguments (otherwise the static assertion rejects it, `None`), and its
      return type picks one of the three initial specialisations. */
  function InitialSpecialization(f: Functor): (k: Option<ReturnKind>)
    ensures k.Some? <==> f.callableWith([])
    ensures k.Some? ==> ReturnMatches(k.value, f.returnFor([]))
  {
    if f.callableWith([]) then Some(ReturnKindOf(f.returnFor([]))) else None
  }

  /** The argument list a parameter type stands for: none for void. */
  function ArgsFor(paramType: TypeDesc): seq<TypeDesc> {
    if IsVoidType(paramType) then [] else [paramType]
  }

  /** `ContinuationFunctorParamTypeHelper` and its void variant: after a future
      of `prev`, a continuation takes `TExpected<prev>` if it can, otherwise
      `prev` itself (nothing at all when `prev` is void); anything else is
      rejected. */
  function ContinuationParamType(f: Functor, prev: TypeDesc): (pt: Option<TypeDesc>)
    ensures pt.Some? ==> f.callableWith(ArgsFor(pt.value))
    ensures pt.Some? ==> pt.value == ExpectedOf(prev) || pt.value == prev
    ensures f.callableWith([ExpectedOf(prev)]) ==> pt == Some(ExpectedOf(prev))
    ensures pt.None? <==> !f.callableWith([ExpectedOf(prev)]) && !f.callableWith(ArgsFor(prev))
  {
    if f.callableWith([ExpectedOf(prev)]) then Some(ExpectedOf(prev))
    else if f.callableWith(ArgsFor(prev)) then Some(prev)
    else None
  }

  /** `TContinuationFunctorTypes`: the accepted parameter type, the return type
      of the call with it, and the one shape that applies. */
  function ContinuationSpecialization(f: Functor, prev: TypeDesc): (s: Option<Shape>)
    ensures s.Some? <==> ContinuationParamType(f, prev).Some?
    ensures s.Some? ==>
      var pt := ContinuationParamType(f, prev).value;
      ShapeEnabled(s.value, f.returnFor(ArgsFor(pt)), pt)
    ensures s.Some? && !IsExpected(prev) ==> (s.value.paramKind == TakesExpected <==> f.callableWith([ExpectedOf(prev)]))
    ensures s.Some? ==> (s.value.paramKind == TakesVoid <==> IsVoidType(prev) && !f.callableWith([ExpectedOf(prev)]))
  {
    match ContinuationParamType(f, prev)
    case None => None
    case Some(pt) =>
      ExactlyOneShape(f.returnFor(ArgsFor(pt)), pt);
      Some(Shape(ReturnKindOf(f.returnFor(ArgsFor(pt))), ParamKindOf(pt)))
  }

  /** The type the new future carries: the functor's return type unwrapped. */
  function ContinuationResultType(f: Functor, prev: TypeDesc): (t: Option<TypeDesc>)
    ensures t.Some? <==> ContinuationParamType(f, prev).Some?
    ensures t.Some? ==> WrapperDepth(t.value) == 0
    ensures t.Some? ==> t.value == Unwrap(f.returnFor(ArgsFor(ContinuationParamType(f, prev).value)))
  {
    match ContinuationParamType(f, prev)
    case None => None
    case Some(pt) =>
      UnwrapProperties(f.returnFor(ArgsFor(pt)));
      Some(Unwrap(f.returnFor(ArgsFor(pt))))
  }
}
