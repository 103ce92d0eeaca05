# Feature toggler — verified model

This project models the feature-toggle engine of `js-feature-toggler`: the `Toggler` class,
which holds a global context, a feature table and a table of custom operators, and decides
whether a named feature is enabled for some call-site data.

- `Wrappers` (`wrappers.dfy`): `Option` and `Result`. A `Result` is either a verdict or the
  error that evaluation raised.
- `Values` (`values.dfy`): the closed set of context values (null, integer, string, boolean,
  list), the context map, the effective-context overlay, and the ordering that `<` and `>`
  apply (strings by code point; see "## Left out").
- `Conditions` (`conditions.dfy`): the built-in `Operator` enum and its tokens, conditions,
  feature definitions, the `Operator "<sign>" is not registered` error, and the evaluation of
  one condition. Each condition goes to a built-in operator or to a look-up in the
  custom-operator table. The module also defines what a condition list means. The
  conjunction `AllConditionsHold` is the reference definition that the imperative loop is
  proved against.
- `Registry` (`registry.dfy`): the `Toggler` class. Its `globals` and `customOperators` map
  fields are updated in place by `AddGlobal` and `RegisterOperator`. `Enabled` is a read-only
  method. `EvaluateConditions` is the source's `for` loop with an early return. The module
  also holds `FeatureEnabled`, the specification of a decision, and the lemmas about it.
  `TestFeature1`, `TestFeatures2And3`, `TestFeatures4To7` and `TestCustomOperator` replay
  the repository's test suite as client code with assertions.

A feature is `Literal(b)`, or a `Definition(active, conditions)` in which both keys are
optional. So an object with both keys, or with neither, can be stated, as the source's
`hasOwnProperty` checks allow. A custom operator is a function value of type
`(Value, Context, Value) -> bool`. Its body belongs to the caller, so the model sees only
that it is invoked and with what arguments.

## Model

| member | source | states |
|---|---|---|
| Values.Overlay | src/index.ts:58 | the effective context has the keys of both maps; call data wins on a shared key; the globals supply the rest |
| Values.Trichotomy | src/index.ts:110-123 | on two values of the same scalar kind exactly one of equal, less and greater holds (string order included) |
| Conditions.ParseOperator | src/index.ts:1-7 | a sign is parsed to a built-in operator exactly when it is that operator's token; otherwise no token equals it |
| Conditions.ParseSignRoundTrip | src/index.ts:109-125 | every built-in token is recognised as its own operator and no other sign is |
| Conditions.EvaluateCustomOperatorCondition | src/index.ts:134-146 | fails with the error naming the sign iff the sign is unregistered; otherwise returns the registered predicate applied to (value, context, arg) |
| Conditions.EvaluateCondition | src/index.ts:91-128 | a field absent from the context gives false for every sign; the only possible error is the unregistered-operator error for a non-built-in sign missing from the table |
| Conditions.MessageNamesSign | src/index.ts:141 | the error message contains the sign verbatim between fixed text, so different signs give different messages |
| Conditions.InNotInComplement | src/index.ts:103-117 | `in` and `notIn` on the same argument are exact complements when the field is present and both false when it is absent; neither raises |
| Conditions.ComparisonsExclusive | src/index.ts:110-123 | `<` and `>` never hold together; on same-kind values exactly one of `=`, `<`, `>` holds |
| Conditions.CustomOperatorInvoked | src/index.ts:125-145 | a non-built-in sign on a present field invokes the registered predicate with (value, effective context, arg, null for two elements) or raises the error naming the sign; after registering the sign the same condition succeeds |
| Conditions.AllConditionsHoldFirstFailure | src/index.ts:82-88 | the conjunction holds iff every condition holds; otherwise its result is exactly the result of the first condition that does not hold |
| Conditions.ConditionListSemantics | src/index.ts:77-89 | an empty list is false; a non-empty list is true iff every condition holds; an error comes from one of its conditions |
| Conditions.ShortCircuit | src/index.ts:82-86 | after a condition gives false behind conditions that all hold, any continuation of the list gives false and cannot raise |
| Registry.Toggler.constructor | src/index.ts:47-50 | globals and features come from the configuration, each empty when absent; no custom operators |
| Registry.Toggler.AddGlobal | src/index.ts:52-55 | globals become the old globals with the one key set to the value; the operator table is unchanged; returns the same registry |
| Registry.Toggler.RegisterOperator | src/index.ts:130-132 | the operator table becomes the old table with the one sign set (last registration wins); globals are unchanged |
| Registry.Toggler.Enabled | src/index.ts:57-75 | the result is the decision `FeatureEnabled` on the current globals, features and operators; the method modifies nothing |
| Registry.Toggler.EvaluateConditions | src/index.ts:77-89 | the loop with early return computes exactly the condition-list meaning (empty false, else first non-holding result or true) |
| Registry.UnknownFeatureDisabled | src/index.ts:60-62 | a name missing from the feature table gives false for every context and never raises |
| Registry.LiteralIgnoresContext | src/index.ts:66-67 | a boolean-literal feature gives its literal for every context and operator table |
| Registry.ActiveOverridesConditions | src/index.ts:68-74 | an `active` key decides even when `conditions` is present; an object with neither key gives false |
| Registry.ConditionFeatureSemantics | src/index.ts:70-71 | a conditions-only feature is enabled iff its list is non-empty and every condition holds on the globals overlaid with the call data |
| Registry.EnabledRaisesOnlyUnregistered | src/index.ts:140-142 | a decision raises only for a conditions feature, with the unregistered-operator error for a non-built-in, unregistered sign used by one of its conditions |

## Left out

- Numbers are unbounded integers. JavaScript's floating-point numbers (fractions, NaN, infinities) are not modelled.
- `=` compares values structurally. JavaScript's `===` compares two arrays by reference, so two equal but distinct arrays are unequal there.
- Values.Includes: `in` and `notIn` test membership with structural equality. JavaScript's `Array.includes` uses SameValueZero, which compares arrays by reference. So with call data `{tags: ["a"]}`, the condition `["tags", "in", [["a"]]]` is false in the source and true in the model, and `notIn` is reversed the same way.
- Values.StrLess: strings are ordered by Unicode code point. JavaScript's `<` and `>` compare UTF-16 code units. The two orders differ when, at the first differing position, a character above U+FFFF meets one in U+E000–U+FFFF. For example, "😀" (U+1F600) is below "！" (U+FF01) in the source, because code unit 0xD83D < 0xFF01, but above it in the model.
- Conditions.BuiltinHolds: `in`/`notIn` with a non-list argument count the value as not contained. JavaScript throws a TypeError for a null, number or boolean argument and does a substring search for a string argument.
- Conditions.BuiltinHolds: `<` and `>` between values of different kinds, or on lists, give false. JavaScript coerces such operands, for example `true > 0`.
- Custom predicates are total function values. Their bodies, any side effects, any exceptions of their own and any non-boolean return values are not modelled.
- The constructor shares the caller's `config.globals` and `config.features` objects. So `addGlobal` also writes into the caller's globals, and later changes the caller makes to either object change the source's decisions. That aliasing is not modelled: the registry holds its own maps, and `features` is a constant.
- Values.Context, Registry.FeatureTable and Conditions.OperatorTable are Dafny maps, where the source uses plain JavaScript objects. So the keys `hasOwnProperty` and `__proto__` behave differently in the source:
  - The source looks keys up by calling `hasOwnProperty` (src/index.ts:60, 103, 140), and an own key of that name hides the method. Call data `{hasOwnProperty: 1}` makes every feature with a non-empty condition list throw a TypeError at line 103, where the model gives a verdict. A feature table with such a key makes every `enabled` call throw. A custom operator registered as `hasOwnProperty` is called to answer every custom-sign lookup.
  - `addGlobal("__proto__", v)` and `registerOperator("__proto__", p)` (lines 53, 131) set the object's prototype rather than storing a key, so the spread at line 58 and the lookups at lines 103 and 140 never see it. The model stores the key like any other.
- Feature definitions of other shapes, such as a number or an `active` key whose value is undefined, are outside the closed `Feature` datatype. So are conditions with fewer than two or more than three elements.
- The TypeScript type-level machinery (`Params`, `Context<C>`, `Features<F>`, generics) and the unused `emptyConfig` are not modelled.
- Concurrent use of the registry is not modelled: every call is sequential.
- The source builds the effective context before it checks that the feature exists. The model does the same in `Toggler.Enabled`. The order makes no observable difference.
