/** The delegate rule table and its first-match resolver
    (python/semantic_kernel/orchestration/delegate_inference.py:79-295).

    Each `infer_*` rule is a conjunction of shape predicates and mode flags; the resolver
    rejects a signature without a return annotation, then runs the rules in declaration
    order and answers the tag of the first one that holds.  The last rule, `infer_unknown`,
    does not answer: it raises.  `awaitable` is "the callable is a coroutine function" and
    `gen` is "the callable is an async generator function". */
module DelegateInference {
  import opened Signatures

  /** The `DelegateTypes` enumeration. */
  datatype Tag =
    | Void
    | OutString
    | OutTaskString
    | InKernelContext
    | InKernelContextOutString
    | InKernelContextOutTaskString
    | ContextSwitchInKernelContextOutTaskKernelContext
    | InString
    | InStringOutString
    | InStringOutTaskString
    | InStringAndContext
    | InStringAndContextOutString
    | InStringAndContextOutTaskString
    | ContextSwitchInStringAndContextOutTaskContext
    | InStringOutTask
    | InContextOutTask
    | InStringAndContextOutTask
    | OutTask
    | OutAsyncGenerator
    | InStringOutAsyncGenerator
    | InContextOutAsyncGenerator
    | InStringAndContextOutAsyncGenerator
    | Unknown

  /** What `infer_delegate_type` delivers: a tag, or one of its two
      `FunctionTypeNotSupported` exceptions. */
  datatype Outcome =
    | Classified(tag: Tag)
    | MissingReturnType   // "No return type specified"
    | NotSupported        // "Invalid function type detected"

  /** What running one rule does: it answers false, answers true, or raises. */
  datatype Verdict = Declines | Matches | Raises

  /** Plain mode: neither a coroutine nor an async generator. */
  predicate Plain(awaitable: bool, gen: bool) {
    !awaitable && !gen
  }

  // ---------------------------------------------------------------------------
  // The rules, in declaration order.  Each contract restates the rule as a row of the
  // table over (parameter shape, return shape, mode).
  // ---------------------------------------------------------------------------

  function InferVoid(s: Signature, awaitable: bool, gen: bool): (b: bool)
    ensures b <==> ParamShapeOf(s) == NoParams && ReturnShapeOf(s) == ReturnsNone && Plain(awaitable, gen)
  {
    HasNoParams(s) && ReturnIsNone(s) && !awaitable && !gen
  }

  function InferOutString(s: Signature, awaitable: bool, gen: bool): (b: bool)
    ensures b <==> ParamShapeOf(s) == NoParams && ReturnShapeOf(s) == ReturnsString && Plain(awaitable, gen)
  {
    HasNoParams(s) && ReturnIsStr(s) && !awaitable && !gen
  }

  function InferOutTaskString(s: Signature, awaitable: bool, gen: bool): (b: bool)
    ensures b <==> ParamShapeOf(s) == NoParams && ReturnShapeOf(s) == ReturnsString && awaitable
  {
    HasNoParams(s) && ReturnIsStr(s) && awaitable
  }

  function InferInKernelContext(s: Signature, awaitable: bool, gen: bool): (b: bool)
    ensures b <==> ParamShapeOf(s) == ContextOnly && ReturnShapeOf(s) == ReturnsNone && Plain(awaitable, gen)
  {
    ParamShapeAgreesWithTests(s);
    FirstParamIsContext(s) && ReturnIsNone(s) && !awaitable && !gen
  }

  function InferInKernelContextOutString(s: Signature, awaitable: bool, gen: bool): (b: bool)
    ensures b <==> ParamShapeOf(s) == ContextOnly && ReturnShapeOf(s) == ReturnsString && Plain(awaitable, gen)
  {
    ParamShapeAgreesWithTests(s);
    FirstParamIsContext(s) && ReturnIsStr(s) && !awaitable && !gen
  }

  function InferInKernelContextOutTaskString(s: Signature, awaitable: bool, gen: bool): (b: bool)
    ensures b <==> ParamShapeOf(s) == ContextOnly && ReturnShapeOf(s) == ReturnsString && awaitable
  {
    ParamShapeAgreesWithTests(s);
    FirstParamIsContext(s) && ReturnIsStr(s) && awaitable
  }

  function InferContextSwitchInKernelContextOutTaskKernelContext(s: Signature, awaitable: bool, gen: bool): (b: bool)
    ensures b <==> ParamShapeOf(s) == ContextOnly && ReturnShapeOf(s) == ReturnsContext && awaitable
  {
    ParamShapeAgreesWithTests(s);
    ReturnShapeAgreesWithTests(s);
    FirstParamIsContext(s) && ReturnIsContext(s) && awaitable
  }

  function InferInString(s: Signature, awaitable: bool, gen: bool): (b: bool)
    ensures b <==> ParamShapeOf(s) == StringOnly && ReturnShapeOf(s) == ReturnsNone && Plain(awaitable, gen)
  {
    ParamShapeAgreesWithTests(s);
    FirstParamIsStr(s, true) && ReturnIsNone(s) && !awaitable && !gen
  }

  function InferInStringOutString(s: Signature, awaitable: bool, gen: bool): (b: bool)
    ensures b <==> ParamShapeOf(s) == StringOnly && ReturnShapeOf(s) == ReturnsString && Plain(awaitable, gen)
  {
    ParamShapeAgreesWithTests(s);
    FirstParamIsStr(s, true) && ReturnIsStr(s) && !awaitable && !gen
  }

  function InferInStringOutTaskString(s: Signature, awaitable: bool, gen: bool): (b: bool)
    ensures b <==> ParamShapeOf(s) == StringOnly && ReturnShapeOf(s) == ReturnsString && awaitable
  {
    ParamShapeAgreesWithTests(s);
    FirstParamIsStr(s, true) && ReturnIsStr(s) && awaitable
  }

  function InferInStringAndContext(s: Signature, awaitable: bool, gen: bool): (b: bool)
    ensures b <==> ParamShapeOf(s) == StringAndContext && ReturnShapeOf(s) == ReturnsNone && Plain(awaitable, gen)
  {
    ParamShapeAgreesWithTests(s);
    FirstParamIsStr(s, false) && HasTwoParamsSecondIsContext(s) && ReturnIsNone(s) && !awaitable && !gen
  }

  function InferInStringAndContextOutString(s: Signature, awaitable: bool, gen: bool): (b: bool)
    ensures b <==> ParamShapeOf(s) == StringAndContext && ReturnShapeOf(s) == ReturnsString && Plain(awaitable, gen)
  {
    ParamShapeAgreesWithTests(s);
    FirstParamIsStr(s, false) && HasTwoParamsSecondIsContext(s) && ReturnIsStr(s) && !awaitable && !gen
  }

  function InferInStringAndContextOutTaskString(s: Signature, awaitable: bool, gen: bool): (b: bool)
    ensures b <==> ParamShapeOf(s) == StringAndContext && ReturnShapeOf(s) == ReturnsString && awaitable
  {
    ParamShapeAgreesWithTests(s);
    FirstParamIsStr(s, false) && HasTwoParamsSecondIsContext(s) && ReturnIsStr(s) && awaitable
  }

  function InferContextSwitchInStringAndContextOutTaskContext(s: Signature, awaitable: bool, gen: bool): (b: bool)
    ensures b <==> ParamShapeOf(s) == StringAndContext && ReturnShapeOf(s) == ReturnsContext && awaitable
  {
    ParamShapeAgreesWithTests(s);
    ReturnShapeAgreesWithTests(s);
    FirstParamIsStr(s, false) && HasTwoParamsSecondIsContext(s) && ReturnIsContext(s) && awaitable
  }

  function InferInStringOutTask(s: Signature, awaitable: bool, gen: bool): (b: bool)
    ensures b <==> ParamShapeOf(s) == StringOnly && ReturnShapeOf(s) == ReturnsNone && awaitable
  {
    ParamShapeAgreesWithTests(s);
    FirstParamIsStr(s, true) && ReturnIsNone(s) && awaitable
  }

  function InferInContextOutTask(s: Signature, awaitable: bool, gen: bool): (b: bool)
    ensures b <==> ParamShapeOf(s) == ContextOnly && ReturnShapeOf(s) == ReturnsNone && awaitable
  {
    ParamShapeAgreesWithTests(s);
    FirstParamIsContext(s) && ReturnIsNone(s) && awaitable
  }

  function InferInStringAndContextOutTask(s: Signature, awaitable: bool, gen: bool): (b: bool)
    ensures b <==> ParamShapeOf(s) == StringAndContext && ReturnShapeOf(s) == ReturnsNone && awaitable
  {
    ParamShapeAgreesWithTests(s);
    FirstParamIsStr(s, false) && HasTwoParamsSecondIsContext(s) && ReturnIsNone(s) && awaitable
  }

  /** Indifferent to the return annotation. */
  function InferOutTask(s: Signature, awaitable: bool, gen: bool): (b: bool)
    ensures b <==> ParamShapeOf(s) == NoParams && awaitable
  {
    HasNoParams(s) && awaitable
  }

  /** The four generator rules are indifferent to the return annotation. */
  function InferOutAsyncGenerator(s: Signature, awaitable: bool, gen: bool): (b: bool)
    ensures b <==> ParamShapeOf(s) == NoParams && gen
  {
    HasNoParams(s) && gen
  }

  function InferInStringOutAsyncGenerator(s: Signature, awaitable: bool, gen: bool): (b: bool)
    ensures b <==> ParamShapeOf(s) == StringOnly && gen
  {
    ParamShapeAgreesWithTests(s);
    FirstParamIsStr(s, true) && gen
  }

  function InferInContextOutAsyncGenerator(s: Signature, awaitable: bool, gen: bool): (b: bool)
    ensures b <==> ParamShapeOf(s) == ContextOnly && gen
  {
    ParamShapeAgreesWithTests(s);
    FirstParamIsContext(s) && gen
  }

  function InferInStringAndContextOutAsyncGenerator(s: Signature, awaitable: bool, gen: bool): (b: bool)
    ensures b <==> ParamShapeOf(s) == StringAndContext && gen
  {
    ParamShapeAgreesWithTests(s);
    FirstParamIsStr(s, false) && HasTwoParamsSecondIsContext(s) && gen
  }

  /** Runs the rule carrying tag `t`; `infer_unknown` raises whatever it is given. */
  function Evaluate(t: Tag, s: Signature, awaitable: bool, gen: bool): (v: Verdict)
    ensures v == Raises <==> t == Unknown
  {
    var holds :=
      match t
      case Void => InferVoid(s, awaitable, gen)
      case OutString => InferOutString(s, awaitable, gen)
      case OutTaskString => InferOutTaskString(s, awaitable, gen)
      case InKernelContext => InferInKernelContext(s, awaitable, gen)
      case InKernelContextOutString => InferInKernelContextOutString(s, awaitable, gen)
      case InKernelContextOutTaskString => InferInKernelContextOutTaskString(s, awaitable, gen)
      case ContextSwitchInKernelContextOutTaskKernelContext =>
        InferContextSwitchInKernelContextOutTaskKernelContext(s, awaitable, gen)
      case InString => InferInString(s, awaitable, gen)
      case InStringOutString => InferInStringOutString(s, awaitable, gen)
      case InStringOutTaskString => InferInStringOutTaskString(s, awaitable, gen)
      case InStringAndContext => InferInStringAndContext(s, awaitable, gen)
      case InStringAndContextOutString => InferInStringAndContextOutString(s, awaitable, gen)
      case InStringAndContextOutTaskString => InferInStringAndContextOutTaskString(s, awaitable, gen)
      case ContextSwitchInStringAndContextOutTaskContext =>
        InferContextSwitchInStringAndContextOutTaskContext(s, awaitable, gen)
      case InStringOutTask => InferInStringOutTask(s, awaitable, gen)
      case InContextOutTask => InferInContextOutTask(s, awaitable, gen)
      case InStringAndContextOutTask => InferInStringAndContextOutTask(s, awaitable, gen)
      case OutTask => InferOutTask(s, awaitable, gen)
      case OutAsyncGenerator => InferOutAsyncGenerator(s, awaitable, gen)
      case InStringOutAsyncGenerator => InferInStringOutAsyncGenerator(s, awaitable, gen)
      case InContextOutAsyncGenerator => InferInContextOutAsyncGenerator(s, awaitable, gen)
      case InStringAndContextOutAsyncGenerator => InferInStringAndContextOutAsyncGenerator(s, awaitable, gen)
      case Unknown => false;
    if t == Unknown then Raises else if holds then Matches else Declines
  }

  predicate Holds(t: Tag, s: Signature, awaitable: bool, gen: bool) {
    Evaluate(t, s, awaitable, gen) == Matches
  }

  /** The rules in the order the class declares them; `infer_unknown` comes last. */
  const Rules: seq<Tag> := [
    Void, OutString, OutTaskString,
    InKernelContext, InKernelContextOutString, InKernelContextOutTaskString,
    ContextSwitchInKernelContextOutTaskKernelContext,
    InString, InStringOutString, InStringOutTaskString,
    InStringAndContext, InStringAndContextOutString, InStringAndContextOutTaskString,
    ContextSwitchInStringAndContextOutTaskContext,
    InStringOutTask, InContextOutTask, InStringAndContextOutTask, OutTask,
    OutAsyncGenerator, InStringOutAsyncGenerator, InContextOutAsyncGenerator,
    InStringAndContextOutAsyncGenerator,
    Unknown
  ]

  /** Where the rule for `t` is declared. */
  function Position(t: Tag): nat {
    match t
    case Void => 0
    case OutString => 1
    case OutTaskString => 2
    case InKernelContext => 3
    case InKernelContextOutString => 4
    case InKernelContextOutTaskString => 5
    case ContextSwitchInKernelContextOutTaskKernelContext => 6
    case InString => 7
    case InStringOutString => 8
    case InStringOutTaskString => 9
    case InStringAndContext => 10
    case InStringAndContextOutString => 11
    case InStringAndContextOutTaskString => 12
    case ContextSwitchInStringAndContextOutTaskContext => 13
    case InStringOutTask => 14
    case InContextOutTask => 15
    case InStringAndContextOutTask => 16
    case OutTask => 17
    case OutAsyncGenerator => 18
    case InStringOutAsyncGenerator => 19
    case InContextOutAsyncGenerator => 20
    case InStringAndContextOutAsyncGenerator => 21
    case Unknown => 22
  }

  /** The rule for `t` sits at `Position(t)` of the table ... */
  lemma RuleAtPosition(t: Tag)
    ensures Position(t) < |Rules| && Rules[Position(t)] == t
  {
  }

  /** ... and the table holds each tag once: `Position` inverts indexing. */
  lemma PositionOfRule(j: nat)
    requires j < |Rules|
    ensures Position(Rules[j]) == j
  {
  }

  /** What a rule that does not decline makes of the whole resolution. */
  function Decide(t: Tag, v: Verdict): Outcome {
    if v == Raises then NotSupported else Classified(t)
  }

  /** The scan from rule `i` on: the first rule that does not decline decides; running
      past the last rule answers `Unknown`. */
  function Scan(rules: seq<Tag>, i: nat, s: Signature, awaitable: bool, gen: bool): (r: Outcome)
    requires i <= |rules|
    ensures r != MissingReturnType
    ensures r.Classified? && r.tag != Unknown ==> r.tag in rules[i..] && Holds(r.tag, s, awaitable, gen)
    ensures r == Classified(Unknown) ==> Unknown !in rules[i..]
    ensures r == NotSupported ==> Unknown in rules[i..]
    decreases |rules| - i
  {
    if i == |rules| then Classified(Unknown)
    else
      var v := Evaluate(rules[i], s, awaitable, gen);
      if v == Declines then Scan(rules, i + 1, s, awaitable, gen) else Decide(rules[i], v)
  }

  /** `infer_delegate_type` on an already reflected signature and mode. */
  function Classify(s: Signature, awaitable: bool, gen: bool): (r: Outcome)
    ensures r == MissingReturnType <==> s.ret == Empty
    ensures r != Classified(Unknown)
    ensures r.Classified? ==> Holds(r.tag, s, awaitable, gen)
  {
    if NoReturn(s) then MissingReturnType else Scan(Rules, 0, s, awaitable, gen)
  }

  /** The loop of the resolver: run the rules in order and stop at the first one that
      does not decline; running past the last rule answers `Unknown`. */
  method RunRules(rules: seq<Tag>, s: Signature, awaitable: bool, gen: bool) returns (r: Outcome)
    ensures r == Scan(rules, 0, s, awaitable, gen)
  {
    var i := 0;
    while i < |rules|
      invariant 0 <= i <= |rules|
      invariant Scan(rules, i, s, awaitable, gen) == Scan(rules, 0, s, awaitable, gen)
    {
      var v := Evaluate(rules[i], s, awaitable, gen);
      if v != Declines {
        return Decide(rules[i], v);
      }
      i := i + 1;
    }
    return Classified(Unknown);
  }

  /** `infer_delegate_type`: reject a missing return annotation, then run the declared
      rules. */
  method InferDelegateType(s: Signature, awaitable: bool, gen: bool) returns (r: Outcome)
    ensures r == Classify(s, awaitable, gen)
  {
    if NoReturn(s) {
      return MissingReturnType;
    }
    r := RunRules(Rules, s, awaitable, gen);
  }

  // ---------------------------------------------------------------------------
  // First match wins.
  // ---------------------------------------------------------------------------

  /** Every rule from position `i` up to, not including, `k` answers false. */
  predicate AllDecline(rules: seq<Tag>, i: nat, k: nat, s: Signature, awaitable: bool, gen: bool)
    requires i <= k <= |rules|
  {
    forall j :: i <= j < k ==> Evaluate(rules[j], s, awaitable, gen) == Declines
  }

  /** If every rule before `k` declines and rule `k` does not, the scan answers what rule
      `k` decides. */
  lemma {:induction false} ScanReachesFirstDecisive(rules: seq<Tag>, i: nat, k: nat, s: Signature, awaitable: bool, gen: bool)
    requires i <= k < |rules|
    requires AllDecline(rules, i, k, s, awaitable, gen)
    requires Evaluate(rules[k], s, awaitable, gen) != Declines
    ensures Scan(rules, i, s, awaitable, gen) == Decide(rules[k], Evaluate(rules[k], s, awaitable, gen))
    decreases k - i
  {
    if i < k {
      ScanReachesFirstDecisive(rules, i + 1, k, s, awaitable, gen);
    }
  }

  /** Conversely, a tag the scan answers belongs to a rule that holds and that every
      earlier rule let through. */
  lemma {:induction false} ScanAnswerIsFirstMatch(rules: seq<Tag>, i: nat, s: Signature, awaitable: bool, gen: bool, t: Tag)
    requires i <= |rules|
    requires Scan(rules, i, s, awaitable, gen) == Classified(t) && t != Unknown
    ensures exists k :: i <= k < |rules| && rules[k] == t && Holds(t, s, awaitable, gen) && AllDecline(rules, i, k, s, awaitable, gen)
    decreases |rules| - i
  {
    if Evaluate(rules[i], s, awaitable, gen) == Declines {
      ScanAnswerIsFirstMatch(rules, i + 1, s, awaitable, gen, t);
      var k :| i + 1 <= k < |rules| && rules[k] == t && Holds(t, s, awaitable, gen) && AllDecline(rules, i + 1, k, s, awaitable, gen);
      assert AllDecline(rules, i, k, s, awaitable, gen);
    } else {
      assert rules[i] == t;
    }
  }

  /** The classified tag's rule holds, and no rule declared before it holds. */
  lemma FirstMatchWins(s: Signature, awaitable: bool, gen: bool, t: Tag)
    requires Classify(s, awaitable, gen) == Classified(t)
    ensures Holds(t, s, awaitable, gen)
    ensures forall u :: Position(u) < Position(t) ==> !Holds(u, s, awaitable, gen)
  {
    ScanAnswerIsFirstMatch(Rules, 0, s, awaitable, gen, t);
    var k :| 0 <= k < |Rules| && Rules[k] == t && Holds(t, s, awaitable, gen) && AllDecline(Rules, 0, k, s, awaitable, gen);
    DeclinedPrefixByPosition(s, awaitable, gen, t, k);
  }

  /** A declining prefix of the table, read as "every rule declared before". */
  lemma DeclinedPrefixByPosition(s: Signature, awaitable: bool, gen: bool, t: Tag, k: nat)
    requires k < |Rules| && Rules[k] == t && AllDecline(Rules, 0, k, s, awaitable, gen)
    ensures forall u :: Position(u) < Position(t) ==> !Holds(u, s, awaitable, gen)
  {
    PositionOfRule(k);
    forall u | Position(u) < Position(t) ensures !Holds(u, s, awaitable, gen) {
      RuleAtPosition(u);
    }
  }

  /** "No rule declared before `t` holds", read as a declining prefix of the table. */
  lemma PositionalPrefixDeclines(s: Signature, awaitable: bool, gen: bool, t: Tag)
    requires t != Unknown
    requires forall u :: Position(u) < Position(t) ==> !Holds(u, s, awaitable, gen)
    ensures Position(t) < |Rules| && AllDecline(Rules, 0, Position(t), s, awaitable, gen)
  {
    RuleAtPosition(t);
    RuleAtPosition(Unknown);
    forall j | 0 <= j < Position(t) ensures Evaluate(Rules[j], s, awaitable, gen) == Declines {
      PositionOfRule(j);
    }
  }

  /** Conversely, a rule that holds with no earlier rule holding decides the outcome. */
  lemma FirstHoldingRuleDecides(s: Signature, awaitable: bool, gen: bool, t: Tag)
    requires s.ret != Empty && t != Unknown
    requires Holds(t, s, awaitable, gen)
    requires forall u :: Position(u) < Position(t) ==> !Holds(u, s, awaitable, gen)
    ensures Classify(s, awaitable, gen) == Classified(t)
  {
    PositionalPrefixDeclines(s, awaitable, gen, t);
    RuleAtPosition(t);
    ScanReachesFirstDecisive(Rules, 0, Position(t), s, awaitable, gen);
  }

  /** When no rule holds, the scan reaches `infer_unknown`, which raises. */
  lemma NoMatchIsAnError(s: Signature, awaitable: bool, gen: bool)
    requires s.ret != Empty
    requires forall u :: !Holds(u, s, awaitable, gen)
    ensures Classify(s, awaitable, gen) == NotSupported
  {
    RuleAtPosition(Unknown);
    forall j | 0 <= j < Position(Unknown) ensures Evaluate(Rules[j], s, awaitable, gen) == Declines {
      PositionOfRule(j);
      assert !Holds(Rules[j], s, awaitable, gen);
    }
    ScanReachesFirstDecisive(Rules, 0, Position(Unknown), s, awaitable, gen);
  }

  /** A missing return annotation fails before any rule is run, whatever the parameters and
      the mode. */
  lemma MissingReturnShortCircuits(ps: seq<Annotation>, awaitable: bool, gen: bool)
    ensures Classify(Signature(ps, Empty), awaitable, gen) == MissingReturnType
    ensures Classify(Signature(ps, Empty), awaitable, gen) != Classify(Signature(ps, NoneAnn), awaitable, gen)
  {
  }
}
