/** An order-free reference for delegate inference: the rule table read as a lookup over
    (parameter shape, return shape, mode), and the proof that the first-match scan of
    python/semantic_kernel/orchestration/delegate_inference.py:273-295 computes it. */
module ShapeTable {
  import opened Signatures
  import opened DelegateInference

  /** Neither a coroutine nor an async generator. */
  function PlainTable(p: ParamShape, r: ReturnShape): (o: Outcome)
    ensures o != MissingReturnType && o != Classified(Unknown)
  {
    match (p, r)
    case (NoParams, ReturnsNone) => Classified(Void)
    case (NoParams, ReturnsString) => Classified(OutString)
    case (ContextOnly, ReturnsNone) => Classified(InKernelContext)
    case (ContextOnly, ReturnsString) => Classified(InKernelContextOutString)
    case (StringOnly, ReturnsNone) => Classified(InString)
    case (StringOnly, ReturnsString) => Classified(InStringOutString)
    case (StringAndContext, ReturnsNone) => Classified(InStringAndContext)
    case (StringAndContext, ReturnsString) => Classified(InStringAndContextOutString)
    case _ => NotSupported
  }

  /** A coroutine function.  With no parameters every return annotation is accepted, and a
      string return is the more specific `OutTaskString`. */
  function AwaitableTable(p: ParamShape, r: ReturnShape): (o: Outcome)
    ensures o != MissingReturnType && o != Classified(Unknown)
  {
    match (p, r)
    case (NoParams, ReturnsString) => Classified(OutTaskString)
    case (NoParams, _) => Classified(OutTask)
    case (ContextOnly, ReturnsNone) => Classified(InContextOutTask)
    case (ContextOnly, ReturnsString) => Classified(InKernelContextOutTaskString)
    case (ContextOnly, ReturnsContext) => Classified(ContextSwitchInKernelContextOutTaskKernelContext)
    case (StringOnly, ReturnsNone) => Classified(InStringOutTask)
    case (StringOnly, ReturnsString) => Classified(InStringOutTaskString)
    case (StringAndContext, ReturnsNone) => Classified(InStringAndContextOutTask)
    case (StringAndContext, ReturnsString) => Classified(InStringAndContextOutTaskString)
    case (StringAndContext, ReturnsContext) => Classified(ContextSwitchInStringAndContextOutTaskContext)
    case _ => NotSupported
  }

  /** An async generator function: the return annotation plays no part. */
  function GeneratorTable(p: ParamShape): (o: Outcome)
    ensures o != MissingReturnType && o != Classified(Unknown)
  {
    match p
    case NoParams => Classified(OutAsyncGenerator)
    case StringOnly => Classified(InStringOutAsyncGenerator)
    case ContextOnly => Classified(InContextOutAsyncGenerator)
    case StringAndContext => Classified(InStringAndContextOutAsyncGenerator)
    case OtherParams => NotSupported
  }

  /** The expected outcome.  Every coroutine rule is declared before every generator rule,
      so when both flags are set the coroutine reading is tried first. */
  function Expected(s: Signature, awaitable: bool, gen: bool): (o: Outcome)
    ensures o == MissingReturnType <==> s.ret == Empty
    ensures o != Classified(Unknown)
  {
    var p, r := ParamShapeOf(s), ReturnShapeOf(s);
    if r == Unannotated then MissingReturnType
    else if awaitable && AwaitableTable(p, r).Classified? then AwaitableTable(p, r)
    else if gen then GeneratorTable(p)
    else if awaitable then NotSupported
    else PlainTable(p, r)
  }

  /** The expected tag's rule holds.  The verifier splits on the mode and the two shapes
      unaided. */
  lemma ExpectedTagHolds(s: Signature, awaitable: bool, gen: bool)
    requires Expected(s, awaitable, gen).Classified?
    ensures Holds(Expected(s, awaitable, gen).tag, s, awaitable, gen)
  {
  }

  /** Every rule that holds is declared no earlier than the expected tag's rule; in
      particular, when nothing is expected, no rule holds.  The case split over the rules
      and the shapes needs no proof text. */
  lemma HoldingRulesComeNoEarlier(s: Signature, awaitable: bool, gen: bool, u: Tag)
    requires s.ret != Empty
    requires Holds(u, s, awaitable, gen)
    ensures Expected(s, awaitable, gen).Classified?
    ensures Position(Expected(s, awaitable, gen).tag) <= Position(u)
  {
  }

  /** The same, for all rules at once. */
  lemma HoldingRulesAllComeNoEarlier(s: Signature, awaitable: bool, gen: bool)
    requires s.ret != Empty
    ensures forall u :: Holds(u, s, awaitable, gen) ==>
      Expected(s, awaitable, gen).Classified? && Position(Expected(s, awaitable, gen).tag) <= Position(u)
  {
    forall u | Holds(u, s, awaitable, gen)
      ensures Expected(s, awaitable, gen).Classified? && Position(Expected(s, awaitable, gen).tag) <= Position(u)
    {
      HoldingRulesComeNoEarlier(s, awaitable, gen, u);
    }
  }

  /** Where the table names a tag, the scan answers it. */
  lemma ClassifiedAsExpected(s: Signature, awaitable: bool, gen: bool)
    requires Expected(s, awaitable, gen).Classified?
    ensures Classify(s, awaitable, gen) == Expected(s, awaitable, gen)
  {
    var t := Expected(s, awaitable, gen).tag;
    HoldingRulesAllComeNoEarlier(s, awaitable, gen);
    ExpectedTagHolds(s, awaitable, gen);
    FirstHoldingRuleDecides(s, awaitable, gen, t);
  }

  /** Where the table names no tag but a return annotation is present, no rule holds and
      the scan raises. */
  lemma UnsupportedAsExpected(s: Signature, awaitable: bool, gen: bool)
    requires s.ret != Empty && !Expected(s, awaitable, gen).Classified?
    ensures Classify(s, awaitable, gen) == NotSupported
  {
    HoldingRulesAllComeNoEarlier(s, awaitable, gen);
    NoMatchIsAnError(s, awaitable, gen);
  }

  /** The scan over the declared rules computes the table, for every signature and every
      combination of the two flags. */
  lemma ClassifyMatchesTable(s: Signature, awaitable: bool, gen: bool)
    ensures Classify(s, awaitable, gen) == Expected(s, awaitable, gen)
  {
    if s.ret == Empty {
      assert Classify(s, awaitable, gen) == MissingReturnType;
    } else if Expected(s, awaitable, gen).Classified? {
      ClassifiedAsExpected(s, awaitable, gen);
    } else {
      UnsupportedAsExpected(s, awaitable, gen);
    }
  }

  /** Unless both flags are set, a rule that holds is the expected one, or it is `OutTask`
      behind the expected `OutTaskString`.  The case split over the rules is automatic. */
  lemma HoldingRuleIsExpected(s: Signature, awaitable: bool, gen: bool, u: Tag)
    requires s.ret != Empty && !(awaitable && gen)
    requires Holds(u, s, awaitable, gen)
    ensures Expected(s, awaitable, gen) == Classified(u)
      || (u == OutTask && Expected(s, awaitable, gen) == Classified(OutTaskString))
  {
  }

  /** Unless both flags are set, the only two rules that can hold together on a signature
      that reaches the rules are `OutTaskString` and the later `OutTask`. */
  lemma OnlyOverlapIsOutTask(s: Signature, awaitable: bool, gen: bool, t1: Tag, t2: Tag)
    requires s.ret != Empty && !(awaitable && gen)
    requires t1 != t2 && Holds(t1, s, awaitable, gen) && Holds(t2, s, awaitable, gen)
    ensures {t1, t2} == {OutTaskString, OutTask}
  {
    HoldingRuleIsExpected(s, awaitable, gen, t1);
    HoldingRuleIsExpected(s, awaitable, gen, t2);
  }

  /** Where both hold, the earlier `OutTaskString` wins. */
  lemma OutTaskStringBeforeOutTask(s: Signature, awaitable: bool, gen: bool)
    requires Holds(OutTaskString, s, awaitable, gen)
    ensures Holds(OutTask, s, awaitable, gen)
    ensures Classify(s, awaitable, gen) == Classified(OutTaskString)
  {
    OutTaskStringExpected(s, awaitable, gen);
    ClassifyMatchesTable(s, awaitable, gen);
  }

  lemma OutTaskStringExpected(s: Signature, awaitable: bool, gen: bool)
    requires Holds(OutTaskString, s, awaitable, gen)
    ensures Holds(OutTask, s, awaitable, gen)
    ensures Expected(s, awaitable, gen) == Classified(OutTaskString)
  {
  }

  /** With both flags set the coroutine and generator rules overlap. */
  lemma BothFlagsOverlap(r: Annotation, p: Annotation)
    requires IsAnnotationOfType(p, StrType)
    ensures Holds(OutTask, Signature([], r), true, true)
    ensures Holds(OutAsyncGenerator, Signature([], r), true, true)
    ensures Holds(InStringOutTask, Signature([p], NoneAnn), true, true)
    ensures Holds(InStringOutAsyncGenerator, Signature([p], NoneAnn), true, true)
  {
  }

  /** ... and the coroutine rule, declared first, wins. */
  lemma BothFlagsPreferCoroutine(r: Annotation)
    requires r != Empty && r != Resolved(StrType)
    ensures Classify(Signature([], r), true, true) == Classified(OutTask)
  {
    assert Expected(Signature([], r), true, true) == Classified(OutTask);
    ClassifyMatchesTable(Signature([], r), true, true);
  }

  /** The tags whose rules ask for plain mode. */
  const PlainTags: set<Tag> := {
    Void, OutString, InKernelContext, InKernelContextOutString,
    InString, InStringOutString, InStringAndContext, InStringAndContextOutString
  }

  /** The plain-mode rules never fire once either flag is set. */
  lemma PlainRulesNeedPlainMode(s: Signature, awaitable: bool, gen: bool)
    requires awaitable || gen
    ensures forall t :: t in PlainTags ==> !Holds(t, s, awaitable, gen)
  {
  }

  /** An async generator with some return annotation is classified by its parameters
      alone. */
  lemma StreamingClassifiedByParamsAlone(ps: seq<Annotation>, r1: Annotation, r2: Annotation)
    requires r1 != Empty && r2 != Empty
    ensures Classify(Signature(ps, r1), false, true) == Classify(Signature(ps, r2), false, true)
    ensures Classify(Signature(ps, r1), false, true) == GeneratorTable(ParamShapeOf(Signature(ps, r1)))
  {
    assert ParamShapeOf(Signature(ps, r1)) == ParamShapeOf(Signature(ps, r2));
    ClassifyMatchesTable(Signature(ps, r1), false, true);
    ClassifyMatchesTable(Signature(ps, r2), false, true);
  }

  /** A string parameter followed by a context parameter is accepted whatever follows. */
  lemma StringAndContextAcceptsMoreParams(rest: seq<Annotation>)
    ensures Classify(Signature([Resolved(StrType), Resolved(ContextType)] + rest, NoneAnn), false, false)
            == Classified(InStringAndContext)
  {
    var s := Signature([Resolved(StrType), Resolved(ContextType)] + rest, NoneAnn);
    assert |s.params| >= 2 && s.params[0] == Resolved(StrType) && s.params[1] == Resolved(ContextType);
    assert Expected(s, false, false) == Classified(InStringAndContext);
    ClassifyMatchesTable(s, false, false);
  }

  /** Worked case: no parameters, a `None` return, plain mode. */
  lemma VoidCase()
    ensures Classify(Signature([], NoneAnn), false, false) == Classified(Void)
  {
    ClassifyMatchesTable(Signature([], NoneAnn), false, false);
  }

  /** Worked case: no parameters, a `None` return, a coroutine. */
  lemma OutTaskCase()
    ensures Classify(Signature([], NoneAnn), true, false) == Classified(OutTask)
  {
    ClassifyMatchesTable(Signature([], NoneAnn), true, false);
  }

  /** Worked case: no parameters, a `str` return, a coroutine: `OutTask` holds too, but
      `OutTaskString` is declared first. */
  lemma OutTaskStringCase()
    ensures Classify(Signature([], Resolved(StrType)), true, false) == Classified(OutTaskString)
  {
    ClassifyMatchesTable(Signature([], Resolved(StrType)), true, false);
  }

  /** Worked case: no parameters, an async generator. */
  lemma OutAsyncGeneratorCase()
    ensures Classify(Signature([], Resolved(OtherType("int"))), false, true) == Classified(OutAsyncGenerator)
  {
    ClassifyMatchesTable(Signature([], Resolved(OtherType("int"))), false, true);
  }

  /** Worked case: a context parameter and a context return, each resolved or spelled as a
      forward reference, on a coroutine. */
  lemma ContextSwitchCase(param: Annotation, ret: Annotation)
    requires IsAnnotationOfType(param, ContextType) && IsAnnotationOfType(ret, ContextType)
    ensures Classify(Signature([param], ret), true, false)
            == Classified(ContextSwitchInKernelContextOutTaskKernelContext)
  {
    ContextSwitchExpected(param, ret);
    ClassifyMatchesTable(Signature([param], ret), true, false);
  }

  lemma ContextSwitchExpected(param: Annotation, ret: Annotation)
    requires IsAnnotationOfType(param, ContextType) && IsAnnotationOfType(ret, ContextType)
    ensures Expected(Signature([param], ret), true, false)
            == Classified(ContextSwitchInKernelContextOutTaskKernelContext)
  {
    StrAndContextAreExclusive(param);
    StrAndContextAreExclusive(ret);
    assert ParamShapeOf(Signature([param], ret)) == ContextOnly;
    assert ReturnShapeOf(Signature([param], ret)) == ReturnsContext;
  }

  /** Worked case: a return annotation was never written. */
  lemma MissingReturnCase()
    ensures Classify(Signature([Resolved(StrType)], Empty), false, false) == MissingReturnType
  {
  }

  /** Worked case: a lone parameter of an unrelated type matches no rule, in any mode. */
  lemma UnrelatedParamCase(name: string, awaitable: bool, gen: bool)
    ensures Classify(Signature([Resolved(OtherType(name))], NoneAnn), awaitable, gen) == NotSupported
  {
    UnrelatedParamExpected(name, awaitable, gen);
    ClassifyMatchesTable(Signature([Resolved(OtherType(name))], NoneAnn), awaitable, gen);
  }

  lemma UnrelatedParamExpected(name: string, awaitable: bool, gen: bool)
    ensures Expected(Signature([Resolved(OtherType(name))], NoneAnn), awaitable, gen) == NotSupported
  {
    assert ParamShapeOf(Signature([Resolved(OtherType(name))], NoneAnn)) == OtherParams;
    assert ReturnShapeOf(Signature([Resolved(OtherType(name))], NoneAnn)) == ReturnsNone;
  }

  /** Worked case: the forward reference "str" is no string return, so a plain function
      taking a string and returning "str" is not supported. */
  lemma ForwardStrReturnCase(p: Annotation)
    requires IsAnnotationOfType(p, StrType)
    ensures Classify(Signature([p], Forward("str")), false, false) == NotSupported
  {
    ForwardStrReturnExpected(p);
    ClassifyMatchesTable(Signature([p], Forward("str")), false, false);
  }

  lemma ForwardStrReturnExpected(p: Annotation)
    requires IsAnnotationOfType(p, StrType)
    ensures Expected(Signature([p], Forward("str")), false, false) == NotSupported
  {
    assert ParamShapeOf(Signature([p], Forward("str"))) == StringOnly;
    assert ReturnShapeOf(Signature([p], Forward("str"))) == ReturnsOther;
  }
}
