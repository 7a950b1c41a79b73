# Delegate inference

A model of the delegate-shape classifier of Semantic Kernel's Python orchestration layer
(`python/semantic_kernel/orchestration/delegate_inference.py`). Given the declared signature of a
native function and two mode flags, the classifier assigns one tag from the `DelegateTypes`
enumeration, or it raises. The flags are "is a coroutine function" (`awaitable`) and "is an async
generator function" (`gen`). The tag later decides how the kernel calls the function.

The model has three layers, one Dafny module each:

- `Signatures` (`signatures.dfy`) covers annotations and signatures.
  - An annotation is absent (`Empty`), the explicit `None`, a resolved type (`str`, `KernelContext` or
    any other type), or a forward-reference string.
  - The leaf predicates `_is_annotation_of_type`, `_has_*`, `_return_is_*`, `_no_return` and
    `_first_param_*` are predicates over these annotations.
  - The module also defines two shape functions that sort a signature into the columns of the rule
    table: the parameter shape and the return shape.
- `DelegateInference` (`delegate_inference.dfy`) holds the rules.
  - It has the 22 `infer_*` rules and `infer_unknown`, which raises.
  - `Rules` is the rule table in declaration order.
  - `Scan` is the first-match scan. `Classify` is `infer_delegate_type`, with the missing-return
    check done first.
  - `RunRules` and `InferDelegateType` are the resolver's loop, written as a `while` loop and proved
    equal to `Classify`.
- `ShapeTable` (`shape_table.dfy`) is a reference definition that does not depend on rule order.
  - `Expected` reads the rules as a lookup over (parameter shape, return shape, mode).
  - The main theorem `ClassifyMatchesTable` proves that the ordered scan computes this lookup for
    every signature and every flag combination, including both flags set.
  - The module also proves the overlaps, the mode properties and the worked cases.

Three facts about the code shape the model:

- No rule matching is an error, not an `Unknown` tag. The scan reaches `infer_unknown` (:265-271),
  which raises `FunctionTypeNotSupported`. So the final `return DelegateTypes.Unknown` (:295) is
  modelled but never reached: `Classify`'s contract excludes `Classified(Unknown)`.
- The rules are not mutually exclusive.
  - `OutTask` (:227-232) holds wherever `OutTaskString` (:96-102) holds, and the earlier one wins.
  - When both flags are set, every coroutine rule overlaps a generator rule. Coroutine rules are
    declared first, so they win.
- The two flags are independent booleans with no precondition. The both-flags case is modelled as
  the code resolves it.

## Model

| member | source | states |
|---|---|---|
| `Signatures.IsAnnotationOfType` | python/semantic_kernel/orchestration/delegate_inference.py:19-25 | definition of `_is_annotation_of_type` (identity, or a string equal to the type's name); properties in `ResolvedMatchesByIdentity`, `ForwardMatchesByName` and `StrAndContextAreExclusive` |
| `Signatures.HasNoParams` | python/semantic_kernel/orchestration/delegate_inference.py:28-29 | definition of `_has_no_params`; properties in `ParamShapeAgreesWithTests` |
| `Signatures.ReturnIsStr` | python/semantic_kernel/orchestration/delegate_inference.py:32-33 | definition of `_return_is_str` (identity with `str` only); properties in `StringReturnIsIdentityOnly` and `ReturnShapeAgreesWithTests` |
| `Signatures.ReturnIsContext` | python/semantic_kernel/orchestration/delegate_inference.py:36-39 | definition of `_return_is_context`; properties in `ContextForwardReferenceEverywhere` and `ReturnShapeAgreesWithTests` |
| `Signatures.ReturnIsNone` | python/semantic_kernel/orchestration/delegate_inference.py:42-43 | definition of `_return_is_none`; properties in `ReturnShapeAgreesWithTests` |
| `Signatures.NoReturn` | python/semantic_kernel/orchestration/delegate_inference.py:46-47 | definition of `_no_return` (the annotation is absent); properties in `ReturnShapeAgreesWithTests` and `MissingReturnShortCircuits` |
| `Signatures.HasFirstParamWithType` | python/semantic_kernel/orchestration/delegate_inference.py:50-57 | definition of `_has_first_param_with_type`; properties in `FirstParamArity` |
| `Signatures.HasTwoParamsSecondIsContext` | python/semantic_kernel/orchestration/delegate_inference.py:60-66 | definition of `_has_two_params_second_is_context`; properties in `SecondParamNoUpperBound` |
| `Signatures.FirstParamIsStr` | python/semantic_kernel/orchestration/delegate_inference.py:69-70 | definition of `_first_param_is_str`; properties in `StringReturnIsIdentityOnly` and `ParamShapeAgreesWithTests` |
| `Signatures.FirstParamIsContext` | python/semantic_kernel/orchestration/delegate_inference.py:73-76 | definition of `_first_param_is_context` (always `only`); properties in `ContextForwardReferenceEverywhere` and `ParamShapeAgreesWithTests` |
| `Signatures.ResolvedMatchesByIdentity` | python/semantic_kernel/orchestration/delegate_inference.py:19-25 | a resolved annotation matches a type exactly when it is that type; a different type named "KernelContext" does not match `KernelContext` |
| `Signatures.ForwardMatchesByName` | python/semantic_kernel/orchestration/delegate_inference.py:19-25 | a string annotation matches a type exactly when it equals the type's `__name__` |
| `Signatures.StrAndContextAreExclusive` | python/semantic_kernel/orchestration/delegate_inference.py:19-25 | no annotation matches both `str` and `KernelContext`, and only resolved or string annotations match either |
| `Signatures.ContextForwardReferenceEverywhere` | python/semantic_kernel/orchestration/delegate_inference.py:36-76 | the string "KernelContext" counts as the context type as sole first parameter, as second parameter, and as return |
| `Signatures.StringReturnIsIdentityOnly` | python/semantic_kernel/orchestration/delegate_inference.py:32-33 | a return annotated with the string "str" is not a string return (its return shape is "other"), while a first parameter annotated "str" is a string parameter, with or without `only` |
| `Signatures.FirstParamArity` | python/semantic_kernel/orchestration/delegate_inference.py:50-57 | the first-parameter test fails with no parameters, needs exactly one parameter with `only`, and with `only=False` holds for any count of at least one exactly when the first annotation matches |
| `Signatures.SecondParamNoUpperBound` | python/semantic_kernel/orchestration/delegate_inference.py:60-66 | the second-parameter test holds exactly when there are at least two parameters and the second matches `KernelContext`; appending parameters keeps it true |
| `Signatures.ParamShapeAgreesWithTests` | python/semantic_kernel/orchestration/delegate_inference.py:28-76 | each parameter shape is exactly the corresponding combination of `_has_no_params`, `_first_param_is_str`, `_first_param_is_context` and `_has_two_params_second_is_context` |
| `Signatures.ReturnShapeAgreesWithTests` | python/semantic_kernel/orchestration/delegate_inference.py:32-47 | each return shape is exactly `_no_return`, `_return_is_none`, `_return_is_str` or `_return_is_context` |
| `DelegateInference.InferVoid` | python/semantic_kernel/orchestration/delegate_inference.py:80-86 | holds iff no parameters, `None` return, plain mode |
| `DelegateInference.InferOutString` | python/semantic_kernel/orchestration/delegate_inference.py:88-94 | holds iff no parameters, `str` return, plain mode |
| `DelegateInference.InferOutTaskString` | python/semantic_kernel/orchestration/delegate_inference.py:96-102 | holds iff no parameters, `str` return, coroutine (the generator flag is ignored) |
| `DelegateInference.InferInKernelContext` | python/semantic_kernel/orchestration/delegate_inference.py:104-110 | holds iff the only parameter is a context, `None` return, plain mode |
| `DelegateInference.InferInKernelContextOutString` | python/semantic_kernel/orchestration/delegate_inference.py:112-118 | holds iff the only parameter is a context, `str` return, plain mode |
| `DelegateInference.InferInKernelContextOutTaskString` | python/semantic_kernel/orchestration/delegate_inference.py:120-126 | holds iff the only parameter is a context, `str` return, coroutine |
| `DelegateInference.InferContextSwitchInKernelContextOutTaskKernelContext` | python/semantic_kernel/orchestration/delegate_inference.py:128-136 | holds iff the only parameter is a context, context return, coroutine |
| `DelegateInference.InferInString` | python/semantic_kernel/orchestration/delegate_inference.py:138-144 | holds iff the only parameter is a string, `None` return, plain mode |
| `DelegateInference.InferInStringOutString` | python/semantic_kernel/orchestration/delegate_inference.py:146-152 | holds iff the only parameter is a string, `str` return, plain mode |
| `DelegateInference.InferInStringOutTaskString` | python/semantic_kernel/orchestration/delegate_inference.py:154-160 | holds iff the only parameter is a string, `str` return, coroutine |
| `DelegateInference.InferInStringAndContext` | python/semantic_kernel/orchestration/delegate_inference.py:162-169 | holds iff a string then a context parameter (more may follow), `None` return, plain mode |
| `DelegateInference.InferInStringAndContextOutString` | python/semantic_kernel/orchestration/delegate_inference.py:171-178 | holds iff a string then a context parameter, `str` return, plain mode |
| `DelegateInference.InferInStringAndContextOutTaskString` | python/semantic_kernel/orchestration/delegate_inference.py:180-189 | holds iff a string then a context parameter, `str` return, coroutine |
| `DelegateInference.InferContextSwitchInStringAndContextOutTaskContext` | python/semantic_kernel/orchestration/delegate_inference.py:191-200 | holds iff a string then a context parameter, context return, coroutine |
| `DelegateInference.InferInStringOutTask` | python/semantic_kernel/orchestration/delegate_inference.py:202-208 | holds iff the only parameter is a string, `None` return, coroutine |
| `DelegateInference.InferInContextOutTask` | python/semantic_kernel/orchestration/delegate_inference.py:210-216 | holds iff the only parameter is a context, `None` return, coroutine |
| `DelegateInference.InferInStringAndContextOutTask` | python/semantic_kernel/orchestration/delegate_inference.py:218-225 | holds iff a string then a context parameter, `None` return, coroutine |
| `DelegateInference.InferOutTask` | python/semantic_kernel/orchestration/delegate_inference.py:227-232 | holds iff no parameters and coroutine, whatever the return |
| `DelegateInference.InferOutAsyncGenerator` | python/semantic_kernel/orchestration/delegate_inference.py:234-239 | holds iff no parameters and async generator, whatever the return |
| `DelegateInference.InferInStringOutAsyncGenerator` | python/semantic_kernel/orchestration/delegate_inference.py:241-246 | holds iff the only parameter is a string and async generator |
| `DelegateInference.InferInContextOutAsyncGenerator` | python/semantic_kernel/orchestration/delegate_inference.py:248-253 | holds iff the only parameter is a context and async generator |
| `DelegateInference.InferInStringAndContextOutAsyncGenerator` | python/semantic_kernel/orchestration/delegate_inference.py:255-263 | holds iff a string then a context parameter and async generator |
| `DelegateInference.Rules` | python/semantic_kernel/orchestration/delegate_inference.py:80-271 | the rules in the class's declaration order, which is the order of the class dictionary the resolver walks, with `infer_unknown` last; properties in `RuleAtPosition` and `PositionOfRule` |
| `DelegateInference.Evaluate` | python/semantic_kernel/orchestration/delegate_inference.py:265-271 | running a rule raises exactly when it is `infer_unknown` |
| `DelegateInference.RuleAtPosition` | python/semantic_kernel/orchestration/delegate_inference.py:80-271 | every tag's rule sits in the table at its declaration position |
| `DelegateInference.PositionOfRule` | python/semantic_kernel/orchestration/delegate_inference.py:80-271 | the table holds each rule once: the declaration position of the rule at index j is j |
| `DelegateInference.Scan` | python/semantic_kernel/orchestration/delegate_inference.py:287-295 | never answers the missing-return error; a tag it answers (other than the fall-through `Unknown`) is in the rest of the table and its rule holds; the fall-through `Unknown` happens only if `infer_unknown` is not in the rest of the table; raising happens only if it is |
| `DelegateInference.Classify` | python/semantic_kernel/orchestration/delegate_inference.py:273-295 | fails with "no return type" exactly when the return annotation is absent; never answers `Unknown`; the rule of a tag it answers holds |
| `DelegateInference.RunRules` | python/semantic_kernel/orchestration/delegate_inference.py:287-295 | the loop with early return computes the first-match scan |
| `DelegateInference.InferDelegateType` | python/semantic_kernel/orchestration/delegate_inference.py:273-295 | the resolver (missing-return check, then the loop) computes `Classify` |
| `DelegateInference.ScanReachesFirstDecisive` | python/semantic_kernel/orchestration/delegate_inference.py:287-293 | if every rule before k answers false and rule k does not, the scan answers rule k's tag, or the error if rule k raises |
| `DelegateInference.ScanAnswerIsFirstMatch` | python/semantic_kernel/orchestration/delegate_inference.py:287-293 | a tag the scan answers is at some index k whose rule holds, and every rule before k answered false |
| `DelegateInference.FirstMatchWins` | python/semantic_kernel/orchestration/delegate_inference.py:287-293 | the classified tag's rule holds and no rule declared before it holds |
| `DelegateInference.FirstHoldingRuleDecides` | python/semantic_kernel/orchestration/delegate_inference.py:287-293 | conversely, a holding rule with no earlier holding rule is the classification |
| `DelegateInference.NoMatchIsAnError` | python/semantic_kernel/orchestration/delegate_inference.py:265-271 | with a return annotation and no rule holding, the outcome is the unsupported-type error, not a tag |
| `DelegateInference.MissingReturnShortCircuits` | python/semantic_kernel/orchestration/delegate_inference.py:278-282 | an absent return annotation fails with "no return type" whatever the parameters and flags, unlike an explicit `None` |
| `ShapeTable.Expected` | python/semantic_kernel/orchestration/delegate_inference.py:80-263 | the order-free reading of the rules answers the missing-return error exactly when the return annotation is absent, and never `Unknown` |
| `ShapeTable.ExpectedTagHolds` | python/semantic_kernel/orchestration/delegate_inference.py:80-263 | the rule of the tag the order-free reading names holds |
| `ShapeTable.HoldingRulesComeNoEarlier` | python/semantic_kernel/orchestration/delegate_inference.py:80-263 | with a return annotation, every rule that holds is declared no earlier than the rule the order-free reading names |
| `ShapeTable.ClassifyMatchesTable` | python/semantic_kernel/orchestration/delegate_inference.py:273-295 | for every signature and both flags, the ordered scan equals the order-free reading |
| `ShapeTable.HoldingRuleIsExpected` | python/semantic_kernel/orchestration/delegate_inference.py:80-263 | unless both flags are set, a rule that holds is the expected one, or `OutTask` behind an expected `OutTaskString` |
| `ShapeTable.OnlyOverlapIsOutTask` | python/semantic_kernel/orchestration/delegate_inference.py:96-232 | unless both flags are set, two distinct rules that hold together are `OutTaskString` and `OutTask` |
| `ShapeTable.OutTaskStringBeforeOutTask` | python/semantic_kernel/orchestration/delegate_inference.py:96-232 | wherever `OutTaskString` holds, `OutTask` holds too and the classification is `OutTaskString` |
| `ShapeTable.BothFlagsOverlap` | python/semantic_kernel/orchestration/delegate_inference.py:202-246 | with both flags set, `OutTask` and `OutAsyncGenerator` hold together, and so do `InStringOutTask` and `InStringOutAsyncGenerator` |
| `ShapeTable.BothFlagsPreferCoroutine` | python/semantic_kernel/orchestration/delegate_inference.py:227-239 | with both flags set, no parameters and a non-`str` return, the earlier `OutTask` wins |
| `ShapeTable.PlainRulesNeedPlainMode` | python/semantic_kernel/orchestration/delegate_inference.py:80-178 | none of the eight plain-mode rules holds once either flag is set |
| `ShapeTable.StreamingClassifiedByParamsAlone` | python/semantic_kernel/orchestration/delegate_inference.py:234-263 | an async generator with any present return annotation is classified by its parameters alone |
| `ShapeTable.StringAndContextAcceptsMoreParams` | python/semantic_kernel/orchestration/delegate_inference.py:162-169 | `(str, KernelContext, ...)` with a `None` return in plain mode is `InStringAndContext`, whatever follows |
| `ShapeTable.VoidCase` | python/semantic_kernel/orchestration/delegate_inference.py:80-86 | no parameters, `None` return, plain mode gives `Void` |
| `ShapeTable.OutTaskCase` | python/semantic_kernel/orchestration/delegate_inference.py:227-232 | no parameters, `None` return, coroutine gives `OutTask` |
| `ShapeTable.OutTaskStringCase` | python/semantic_kernel/orchestration/delegate_inference.py:96-102 | no parameters, `str` return, coroutine gives `OutTaskString` |
| `ShapeTable.OutAsyncGeneratorCase` | python/semantic_kernel/orchestration/delegate_inference.py:234-239 | no parameters, async generator gives `OutAsyncGenerator` |
| `ShapeTable.ContextSwitchCase` | python/semantic_kernel/orchestration/delegate_inference.py:128-136 | a lone context parameter and a context return, resolved or as strings, on a coroutine give `ContextSwitchInKernelContextOutTaskKernelContext` |
| `ShapeTable.MissingReturnCase` | python/semantic_kernel/orchestration/delegate_inference.py:278-282 | a lone string parameter with no return annotation fails with "no return type" |
| `ShapeTable.UnrelatedParamCase` | python/semantic_kernel/orchestration/delegate_inference.py:265-271 | a lone parameter of an unrelated type with a `None` return is unsupported in every mode |
| `ShapeTable.ForwardStrReturnCase` | python/semantic_kernel/orchestration/delegate_inference.py:32-33 | a plain function taking a string and returning the string "str" is unsupported |

## Left out

- Reflection is not modelled: `inspect.signature`, `iscoroutinefunction` and `isasyncgenfunction`
  (:276, :284-285). The abstract signature and the two flags are inputs instead.
- Rule discovery is replaced by the constant `Rules`, in declaration order with `infer_unknown`
  last. The source discovers rules with the `_infers` decorator, a walk over the class dictionary
  and the `__wrapped__`/`__func__` lookup (:11-16, :287-290). `infer_delegate_type` is absent from
  `Rules` because it carries no tag.
- `KernelException` is reduced to two outcomes, `MissingReturnType` and `NotSupported`. Its error
  codes and message texts are not modelled, including the rendering of the signature.
- The pydantic base class `KernelBaseModel` and the lazy imports of `KernelContext` are not
  modelled. `KernelContext` is an opaque type whose name is "KernelContext".
- `semantic_kernel/orchestration/delegate_types.py` is not part of this model. Its tags are declared
  here as the `Tag` datatype.
- Parameter names, kinds and defaults are not modelled, because the rules read only annotations.
  Annotations that are neither `str`, `KernelContext`, `None`, absent nor a string (generic aliases,
  other classes) are all `OtherType`.
- Classes other than `str` and `KernelContext` are compared by `__name__`, not by identity: two such
  classes that share a name are one `OtherType`. No rule tests for another type, so no outcome
  depends on it.
- `ShapeTable.OnlyOverlapIsOutTask` is stated only for signatures that reach the rules (return
  annotation present) and for callables that do not have both flags set. With both flags the
  coroutine and generator rules do overlap (see `BothFlagsOverlap`).
