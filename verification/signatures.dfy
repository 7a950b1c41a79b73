/** Declared signatures of callables and the shape predicates the delegate rules are
    built from (python/semantic_kernel/orchestration/delegate_inference.py:19-76).

    A signature is what reflection reports about a callable: the annotations of its
    parameters, in order, and its return annotation.  Only two types are recognised by
    the rules: the built-in `str` and the host's `KernelContext`.  Every other type is
    `OtherType` with its `__name__`, so a class that is not `KernelContext` but is named
    "KernelContext" stays distinct from it.  Two other classes that share a `__name__`
    are one `OtherType` value here; no rule asks about other types, so nothing the rules
    decide depends on that. */
module Signatures {

  /** A resolved type object. */
  datatype TypeRef = StrType | ContextType | OtherType(name: string)

  /** The `__name__` of a type. */
  function TypeName(t: TypeRef): string {
    match t
    case StrType => "str"
    case ContextType => "KernelContext"
    case OtherType(n) => n
  }

  /** An annotation as reflection reports it: absent (`Signature.empty` or
      `Parameter.empty`), the explicit `None`, a resolved type object, or a string that
      names a type (a forward reference). */
  datatype Annotation = Empty | NoneAnn | Resolved(t: TypeRef) | Forward(text: string)

  datatype Signature = Signature(params: seq<Annotation>, ret: Annotation)

  /** `_is_annotation_of_type`: identity, or a forward reference spelling the type's name. */
  predicate IsAnnotationOfType(a: Annotation, t: TypeRef) {
    a == Resolved(t) || (a.Forward? && a.text == TypeName(t))
  }

  predicate HasNoParams(s: Signature) {
    |s.params| == 0
  }

  /** The string-return test is by identity only. */
  predicate ReturnIsStr(s: Signature) {
    s.ret == Resolved(StrType)
  }

  predicate ReturnIsContext(s: Signature) {
    IsAnnotationOfType(s.ret, ContextType)
  }

  predicate ReturnIsNone(s: Signature) {
    s.ret == NoneAnn
  }

  predicate NoReturn(s: Signature) {
    s.ret == Empty
  }

  predicate HasFirstParamWithType(s: Signature, t: TypeRef, only: bool) {
    if |s.params| < 1 then false
    else if only && |s.params| != 1 then false
    else IsAnnotationOfType(s.params[0], t)
  }

  predicate HasTwoParamsSecondIsContext(s: Signature) {
    if |s.params| < 2 then false
    else IsAnnotationOfType(s.params[1], ContextType)
  }

  predicate FirstParamIsStr(s: Signature, only: bool) {
    HasFirstParamWithType(s, StrType, only)
  }

  /** `_first_param_is_context` always asks for the only parameter. */
  predicate FirstParamIsContext(s: Signature) {
    HasFirstParamWithType(s, ContextType, true)
  }

  // ---------------------------------------------------------------------------
  // Shapes: the columns of the rule table, computed once from the signature.
  // ---------------------------------------------------------------------------

  /** What the parameter list looks like to the rules. */
  datatype ParamShape = NoParams | StringOnly | ContextOnly | StringAndContext | OtherParams

  /** What the return annotation looks like to the rules. */
  datatype ReturnShape = Unannotated | ReturnsNone | ReturnsString | ReturnsContext | ReturnsOther

  function ParamShapeOf(s: Signature): ParamShape {
    if |s.params| == 0 then NoParams
    else if |s.params| == 1 then
      if IsAnnotationOfType(s.params[0], StrType) then StringOnly
      else if IsAnnotationOfType(s.params[0], ContextType) then ContextOnly
      else OtherParams
    else if IsAnnotationOfType(s.params[0], StrType) && IsAnnotationOfType(s.params[1], ContextType) then
      StringAndContext
    else OtherParams
  }

  function ReturnShapeOf(s: Signature): ReturnShape {
    if s.ret == Empty then Unannotated
    else if s.ret == NoneAnn then ReturnsNone
    else if s.ret == Resolved(StrType) then ReturnsString
    else if IsAnnotationOfType(s.ret, ContextType) then ReturnsContext
    else ReturnsOther
  }

  // ---------------------------------------------------------------------------
  // Properties of the predicates.
  // ---------------------------------------------------------------------------

  /** A resolved annotation matches exactly its own type: another type that happens to
      carry the same name does not match.  For `str` and `KernelContext` this is Python's
      identity test; for other types it is equality of `OtherType` values (see above). */
  lemma ResolvedMatchesByIdentity(u: TypeRef, t: TypeRef)
    ensures IsAnnotationOfType(Resolved(u), t) <==> u == t
    ensures IsAnnotationOfType(Resolved(OtherType("KernelContext")), ContextType) == false
  {
  }

  /** A forward reference matches a type exactly when it spells that type's name. */
  lemma ForwardMatchesByName(n: string, t: TypeRef)
    ensures IsAnnotationOfType(Forward(n), t) <==> n == TypeName(t)
  {
  }

  /** No annotation, and no absent or `None` one, counts as both `str` and `KernelContext`:
      the two recognised types are told apart by identity and by name. */
  lemma StrAndContextAreExclusive(a: Annotation)
    ensures !(IsAnnotationOfType(a, StrType) && IsAnnotationOfType(a, ContextType))
    ensures IsAnnotationOfType(a, StrType) || IsAnnotationOfType(a, ContextType) ==> a.Resolved? || a.Forward?
  {
  }

  /** The forward reference "KernelContext" is recognised as the context type in all three
      positions the rules look at: the first parameter, the second one, and the return. */
  lemma ContextForwardReferenceEverywhere(rest: seq<Annotation>, first: Annotation)
    ensures FirstParamIsContext(Signature([Forward("KernelContext")], NoneAnn))
    ensures HasTwoParamsSecondIsContext(Signature([first, Forward("KernelContext")] + rest, NoneAnn))
    ensures ReturnIsContext(Signature(rest, Forward("KernelContext")))
  {
  }

  /** The forward reference "str" counts as a string parameter but not as a string return. */
  lemma StringReturnIsIdentityOnly(ps: seq<Annotation>, r: Annotation)
    ensures !ReturnIsStr(Signature(ps, Forward("str")))
    ensures ReturnShapeOf(Signature(ps, Forward("str"))) == ReturnsOther
    ensures FirstParamIsStr(Signature([Forward("str")], r), true)
    ensures FirstParamIsStr(Signature([Forward("str")] + ps, r), false)
  {
  }

  /** The first-parameter test: false without parameters; with `only` it needs exactly one
      parameter; without `only` any count of at least one will do. */
  lemma FirstParamArity(s: Signature, t: TypeRef, only: bool)
    ensures |s.params| == 0 ==> !HasFirstParamWithType(s, t, only)
    ensures HasFirstParamWithType(s, t, only) ==> |s.params| >= 1 && IsAnnotationOfType(s.params[0], t)
    ensures only && HasFirstParamWithType(s, t, only) ==> |s.params| == 1
    ensures !only && |s.params| >= 1 ==> (HasFirstParamWithType(s, t, only) <==> IsAnnotationOfType(s.params[0], t))
  {
  }

  /** The second-parameter test needs at least two parameters and sets no upper bound. */
  lemma SecondParamNoUpperBound(s: Signature)
    ensures HasTwoParamsSecondIsContext(s) <==> |s.params| >= 2 && IsAnnotationOfType(s.params[1], ContextType)
    ensures HasTwoParamsSecondIsContext(s) ==> HasTwoParamsSecondIsContext(Signature(s.params + [Empty], s.ret))
  {
  }

  /** The parameter shape is exactly what the first- and second-parameter tests report. */
  lemma ParamShapeAgreesWithTests(s: Signature)
    ensures ParamShapeOf(s) == NoParams <==> HasNoParams(s)
    ensures ParamShapeOf(s) == StringOnly <==> FirstParamIsStr(s, true)
    ensures ParamShapeOf(s) == ContextOnly <==> FirstParamIsContext(s)
    ensures ParamShapeOf(s) == StringAndContext <==> FirstParamIsStr(s, false) && HasTwoParamsSecondIsContext(s)
  {
    if |s.params| >= 1 {
      StrAndContextAreExclusive(s.params[0]);
    }
  }

  /** The return shape is exactly what the return tests report. */
  lemma ReturnShapeAgreesWithTests(s: Signature)
    ensures ReturnShapeOf(s) == Unannotated <==> NoReturn(s)
    ensures ReturnShapeOf(s) == ReturnsNone <==> ReturnIsNone(s)
    ensures ReturnShapeOf(s) == ReturnsString <==> ReturnIsStr(s)
    ensures ReturnShapeOf(s) == ReturnsContext <==> ReturnIsContext(s)
  {
  }
}
