# A verified model of the APL policy engine

APL is a policy language for requests to tools and models. Configuration is compiled to trees of
effects; an interpreter walks them against a bag of attributes and a JSON payload, asks plugins,
policy decision points, delegation and approval services, and reports a decision together with
taints and routing constraints. A bridge carries the result into request labels, session state and
the router. This project models that engine in Dafny and proves what it promises.

## How the model is built

- **Values and state.** `Text`, `Json`, `Ir`, `Attributes` and `Constraints` hold the data model.
  Text is a sequence of Unicode scalar values: every decision the byte-oriented source takes while
  scanning compares with ASCII characters, so positions in bytes and in characters correspond.
- **Outside answers.** A `World` answers every call of a run as a function of the place in the
  effect tree the call is made from, and fixes the schedule of every parallel block.
  `RoutePlaces.RouteCallsHaveTheirPlace` proves that no operation is called twice from one place, so
  quantifying over worlds covers invokers with memory or randomness and all schedules; a branch
  that is cancelled may have made any part of its calls. Every run carries the log of its calls and
  answers.
- **Two descriptions of each loop.** `Leaves`, `Trees`, `Pipelines`, `FieldRules`, `Routes`, `Lexer`
  and `PredParser` define what a run is; classes and methods with loops (`Evaluator.Evaluation`,
  `Routes.Request`, `Lexer.Scanner`, `PredParser.Parser`, `Layers.Effective`,
  `FlatBag.AttributeBag`, `Labels.RequestLabels`, `Sessions.SessionStore` and others) follow the
  imperative code and are proved to compute exactly that.
- **One induction for many laws.** `Trees` is generic in what conditions and single-step effects
  mean. `Frames` proves once that laws of state and flags hold of whole trees, `Ledgers` that what
  events ask for is kept to the end of a run, `Hearing` which calls a run still speaks for; purity,
  scheduling, fail-closed behaviour, approvals and the one-question discipline are inductions of
  their own over the same trees.
- **Protocols.** The branch scheduler (`Orchestration`), the passes of an elicitation
  (`Elicitation`), concurrent plugin calls on shared labels (`Labels`) and interleaved requests of a
  session (`Sessions`) are state machines; their theorems range over every run. `LabelFlow` joins
  the last two to the calls a route makes.
- **Remarks.** Three lemmas spell out single definitions and carry no row: a refused or pending
  question binds whatever `on_error` says (`Approvals.StatusIsBinding`), reactions never undo a PDP
  denial (`FailClosed.PdpDenialStands`), and a grant can be read back key by key
  (`Grants.GrantIsReadable`).

## Where code and intent part

- `glob_match` takes a `*` in the *text* literally when the pattern has a `*` there, and then misses
  matches. `Globs.GlobIsRight` gives the exact condition.
- Folding intersects glob allow-lists as strings, so a backend allowed by each list can be lost
  (`Folding.GlobListsLoseBackends`); `Folding.FoldedExactlyWhen` says which are accepted.
- A branch cancelled after its plugin call has its taints dropped with it, and another call may
  overwrite the labels it wrote (`LabelFlow.LabelIsLost`). `LabelFlow.PreLabels` gives the exact
  condition, for every request whatever its decision.
- An elicitation id is handed out only when a phase suspends, so a pass whose status check fails
  right after its dispatch leaves its question behind and the retry asks again
  (`Elicitation.SecondDispatch`). `Elicitation.OnlyOpeningExactlyWhen` is the exact condition.
- There is one question per request, so of two steps that name different approvers only the first
  contacts its own (`RouteQuestions.SecondApproverNeverAsked`), and later checks do not say whom a
  step names (`Elicitation.AnyNameWillDo`). `Elicitation.SecondApproverContactedExactlyWhen` is the
  exact condition.
- A more specific layer cannot take back an earlier layer's effects, but it replaces field rules, and
  those run first: it can lift a denial of the earlier layer's rules or policy
  (`LayerVerdicts.FieldDenialLifted`, `LayerVerdicts.PolicyDenialLifted`).
  `LayerVerdicts.PreVerdictsStandExactlyWhen` and its post counterpart are the exact conditions.
- A plugin stage after `redact` is handed the redacted value, but the bridge also gives it the message,
  which still holds the original; `Pipelines.RedactHides` speaks of plugins that look only at what
  they are handed.
- An object key with a dot in it can hide another path in the flat bag
  (`FlatBag.DottedKeyCollides`); `FlatBag.FaithfulExactlyWhen` is the exact condition.
- A session taint whose label came in with the request and was never stored is not persisted
  (`Sessions.TaintIsStored` is the exact condition).
- The fast path does not look at `restrict` effects, so it differs from the full evaluator exactly
  when an unresolvable deny-list comes up before any denial (`FastPath.FastPathRefines`).
- A suspended branch of a parallel block is dropped; the purity validation rules this out
  (`FailClosed.OpenQuestionLostInParallel`, `Compile.StepIsClean`).
- The comment on the route's denial response says the most specific layer wins; `apply_layer`
  deliberately keeps the base's. The model follows the code.

## Model

| member | source | states |
|---|---|---|
| Lexer.Scanner.LexString | crates/apl-core/src/parser.rs:197-214 | a quoted literal runs to the next quote of the same kind; without one the text is rejected |
| Lexer.Scanner.LexNumber | crates/apl-core/src/parser.rs:216-250 | sign, digits and fraction are consumed to their longest extent and read as an integer in range or a float, or rejected |
| Lexer.Scanner.LexIdentOrKeyword | crates/apl-core/src/parser.rs:252-307 | an identifier with its bracket groups is consumed whole, and reserved words become keyword tokens; an unclosed group is rejected |
| Lexer.Scanner.LexPunctuation | crates/apl-core/src/parser.rs:134-190 | operators are read longest first |
| Lexer.Scanner.TokenizeAll | crates/apl-core/src/parser.rs:123-195 | the scanning loop computes the token list given by the position-by-position definition, or fails exactly when that is undefined |
| PredParser.Parser.ParseOr | crates/apl-core/src/parser.rs:360-371 | a disjunction is read with the cursor moved exactly past it |
| PredParser.Parser.ParseAnd | crates/apl-core/src/parser.rs:373-384 | a conjunction binds tighter than a disjunction |
| PredParser.Parser.ParseUnary | crates/apl-core/src/parser.rs:386-393 | negation applies to the next unary expression |
| PredParser.Parser.ParseAtom | crates/apl-core/src/parser.rs:395-418 | parentheses, `exists(..)` and identifier predicates |
| PredParser.Parser.ParseExists | crates/apl-core/src/parser.rs:420-451 | `exists(key)` and nothing else between the parentheses |
| PredParser.Parser.ParseIdentifierPredicate | crates/apl-core/src/parser.rs:453-517 | bare key, comparison, `in` and `not in`, decided by the tokens after the key |
| PredParser.Parser.FinishInSet | crates/apl-core/src/parser.rs:519-535 | set membership names a second key |
| PredParser.Parse | crates/apl-core/src/parser.rs:332-343 | lexing and parsing loops together decide the grammar on the whole text, with no token left over |
| Printing.ParsePrint | crates/apl-core/src/parser.rs:539-541 | parsing the printed text of any canonical expression gives the expression back, character by character |
| Printing.ParsedIsCanonical | crates/apl-core/src/parser.rs:332-343 | everything the parser accepts is canonical |
| Printing.ParsePrintParse | crates/apl-core/src/parser.rs:332-343 | parse, print, parse is parse, for every accepted text |
| RoundTrip.TokensReparse | crates/apl-core/src/parser.rs:360-536 | the grammar reads the tokens of every well-shaped expression back, with minimal parentheses |
| Require.ParseRequireRule | crates/apl-core/src/parser.rs:642-716 | the loop over `require(..)` arguments computes the desugared condition, rejecting mixed separators and trailing text |
| Require.DesugarKeys | crates/apl-core/src/parser.rs:702-716 | the negated condition lists one falsity test per key, joined by the dual connective |
| Require.DesugarNegates | crates/apl-core/src/evaluator.rs:79-130 | the desugared condition is the exact negation of the predicate over the same keys in every bag, unresolvable `[..]` keys included |
| Require.RequireIsNegatedPredicate | crates/apl-core/src/parser.rs:642-716 | every accepted `require(..)` line is the negation of some predicate the parser accepts, in every bag |
| Require.TwoSyntaxesAgree | crates/apl-core/src/parser.rs:642-716 | `require(a, b, ..)` and `require(a &#124; b &#124; ..)`, as written, negate `a & b & ..` and `a &#124; b &#124; ..`, for every key list and bag |
| Attributes.ResolveKey | crates/apl-core/src/attributes.rs:160-181 | the substitution loop expands every `[inner]` group by the scalar found there, and fails on the first that does not resolve |
| Json.GetDotted | crates/apl-core/src/route.rs:325-331 | walking segment by segment finds the node the path denotes |
| Json.SetDotted | crates/apl-core/src/route.rs:336-362 | writes at the path when every parent is an object, and otherwise changes nothing |
| Json.RemoveDotted | crates/apl-core/src/route.rs:365-386 | removes an entry that is there, and otherwise changes nothing |
| Json.FoundCanBeEdited | crates/apl-core/src/route.rs:325-386 | a field that is found can always be set and always be removed |
| Json.GetAfterSet | crates/apl-core/src/route.rs:336-362 | a write is read back at its path and below |
| Json.GetAfterRemove | crates/apl-core/src/route.rs:365-386 | nothing is left at or below a removed path |
| Json.GetApart | crates/apl-core/src/route.rs:336-386 | paths neither above nor below the edited one keep their value |
| Pipelines.EvaluatePipeline | crates/apl-core/src/evaluator.rs:1240-1527 | the stage loop computes outcome, taints and calls of the stagewise definition, stopping at the first omission or rejection |
| Pipelines.PipelinesCompose | crates/apl-core/src/evaluator.rs:1240-1527 | running `p ++ q` is running `q` on the result of `p`: taints and calls concatenate, rejection indices shift by the length of `p` |
| Pipelines.RedactHides | crates/apl-core/src/evaluator.rs:1415-1424 | two inputs that get past the stages before a firing `redact` have the same outcome, taints and calls, for plugins in later stages that see no more of the field than they are handed |
| Pipelines.MaskTwice | crates/apl-core/src/evaluator.rs:1392-1414 | `mask(n) &#124; mask(m)` is `mask(min(n, m))`, rejections included |
| Evaluator.Evaluation.DispatchPlugin | crates/apl-core/src/evaluator.rs:435-454 | taints are kept whatever the decision; an error denies |
| Evaluator.Evaluation.DispatchDelegate | crates/apl-core/src/evaluator.rs:456-519 | an allowed delegation writes its grant into the bag; a denied or failed one halts unless `on_error` is continue |
| Evaluator.Evaluation.DispatchRestrict | crates/apl-core/src/evaluator.rs:536-562 | a resolved constraint is appended unless it asks nothing; an unresolvable deny-list denies |
| Evaluator.Evaluation.CheckStatus | crates/apl-core/src/evaluator.rs:836-880 | a pending status suspends with the bundle read from the bag, an expired one or a failed check goes by `on_error`, a refusal halts |
| Evaluator.Evaluation.ValidateResponse | crates/apl-core/src/evaluator.rs:881-924 | only a valid response whose scope parses and holds marks the question approved; everything else goes by `on_error` |
| Evaluator.Evaluation.DispatchElicitation | crates/apl-core/src/evaluator.rs:762-924 | dispatch, check and validate in order, with the bag keys each leaves |
| Evaluator.Evaluation.DispatchFieldOp | crates/apl-core/src/evaluator.rs:1112-1196 | edits the side its prefix names in its phase, skips otherwise, and rejects other prefixes |
| Evaluator.Evaluation.DispatchEffect | crates/apl-core/src/evaluator.rs:405-745 | running any effect tree changes bag, payload, taints, constraints, flags and calls exactly as the recursive definition says |
| Evaluator.Evaluation.DispatchPdp | crates/apl-core/src/evaluator.rs:669-743 | reactions run, and a denial stands unless they end the phase themselves |
| Evaluator.Evaluation.DispatchAll | crates/apl-core/src/evaluator.rs:580-609 | a list in order, up to the first halt or suspension |
| Evaluator.Evaluation.DispatchLeaf | crates/apl-core/src/evaluator.rs:421-578 | each single-step effect does what its definition says and nothing else |
| Evaluator.Evaluation.RunBranches | crates/apl-core/src/evaluator.rs:981-1036 | each branch runs alone on a copy of the bag and the payload, and the original is untouched |
| Evaluator.Evaluation.Collect | crates/apl-core/src/evaluator.rs:1047-1094 | aggregation in branch order gives the merged run of the schedule |
| Evaluator.Evaluation.DispatchParallel | crates/apl-core/src/evaluator.rs:963-1095 | branches on copies, their taints and constraints appended in branch order, the first halt by index reported, everything else dropped |
| Evaluator.EvaluateEffects | crates/apl-core/src/evaluator.rs:255-322 | the phase loop reports the recursive run: decision, taints, constraints, flags, pending bundle, and leaves its state |
| Evaluator.RunOnField | crates/apl-core/src/evaluator.rs:1156-1195 | one field: read, run the stages, write back what they decide, raise the flag only when written |
| Grants.QuestionIsReadable | crates/apl-core/src/evaluator.rs:810-833 | the opened question is in the bag under its keys, the id included, and every other key is as before |
| Positions.EachCallHasItsPlace | crates/apl-core/src/evaluator.rs:255-322 | over a whole phase, under any schedule, no invoker operation is called twice from one place of the tree |
| RoutePlaces.RouteCallsHaveTheirPlace | crates/apl-core/src/route.rs:286-316 | the same over both phases of a route, field rules included |
| Orchestration.RunsGiveSlots | crates/cpex-orchestration/src/lib.rs:132-214 | every complete run of the join set, with abort on deny, leaves each branch completed or cancelled as some schedule of the model says; what a cancelled branch had done is any part of its log |
| Orchestration.SlotsComeFromRuns | crates/cpex-orchestration/src/lib.rs:132-214 | every schedule of the model is some complete run of the join set |
| Scheduling.BlockVerdict | crates/apl-core/src/evaluator.rs:1054-1095 | under every schedule a block halts exactly when some branch alone halts, and without a halt keeps all taints and constraints in branch order |
| Scheduling.ParallelIsSequential | crates/apl-core/src/evaluator.rs:963-1095 | for mutation-free effects and invokers that answer alike, a parallel block and the same list in sequence halt together, the denial is one a branch gives alone, and otherwise taints and constraints agree in order |
| Scheduling.EngineParallelIsSequential | crates/apl-core/src/evaluator.rs:580-630 | the same for the engine itself, in any two worlds that differ only in schedule and in where they are called from |
| FailClosed.PhaseFailsClosed | crates/apl-core/src/evaluator.rs:255-322 | a validated phase reported as Allow with nothing pending met no PDP or plugin denial or error, no refusal, no open question, and no failure not covered by `on_error: continue` |
| FailClosed.OpenQuestionLostInParallel | crates/apl-core/src/evaluator.rs:1054-1095 | why validation matters: a question left open inside a parallel block is dropped and the block goes on |
| Layering.WalkConcat | crates/apl-core/src/evaluator.rs:255-322 | `xs ++ ys` is `xs`, then `ys` from the state left only if `xs` neither denied nor suspended; otherwise nothing of `ys` is dispatched |
| RouteLaws.RouteFailsClosed | crates/apl-core/src/route.rs:286-316 | a request let through both phases met only benign answers, field pipelines included |
| Elicitation.PassAsksOnce | crates/apl-core/src/evaluator.rs:762-924 | in one pass of any validated phase at most one dispatch succeeds, none when the request brought an id, and every check and validation is about the one id |
| Elicitation.WalkHandsOut | crates/apl-core/src/evaluator.rs:836-856 | over whole effect lists: a run that suspends names in its pending bundle the question whose id it leaves in the bag |
| Elicitation.OneQuestionOnceSuspended | crates/apl-cpex/src/route_handler.rs:297-304 | once a pass has suspended and its id is echoed, no later pass dispatches anything, and every check and validation of that pass and all later ones is about that one question |
| Elicitation.OnlyOpeningExactlyWhen | crates/apl-cpex/src/route_handler.rs:585-600 | a pass that opened a question is the only one to do so, whatever retries follow that echo what they were handed, exactly when it suspended |
| Elicitation.AtMostOneOpening | crates/apl-cpex/src/route_handler.rs:297-304 | over any sequence of passes at most one dispatch succeeds when every pass that opened a question suspended |
| Elicitation.SecondDispatch | crates/apl-core/src/evaluator.rs:836-850 | the other case: dispatch succeeds, the status check fails, the phase is denied without handing out the id, and the retry dispatches again |
| Elicitation.ContactsExactlyWhen | crates/apl-core/src/evaluator.rs:800-833 | a step contacts the approver it names exactly when that resolves and no id is in the bag |
| Elicitation.SecondApproverContactedExactlyWhen | crates/apl-core/src/evaluator.rs:800-833 | after a step that was passed, the next one contacts its approver exactly when the request brought no id and the first step's dispatch gave none |
| Elicitation.AnyNameWillDo | crates/apl-cpex/src/elicitation_invoker.rs:185-231 | checks and validations do not name the approver, so with an id at hand it makes no difference to outcome and state whom a step names |
| RouteQuestions.RouteAsksOnce | crates/apl-core/src/route.rs:286-316 | the one-question discipline over both phases of a route, whose bag is shared |
| RouteQuestions.SecondApproverNeverAsked | crates/apl-core/src/evaluator.rs:800-833 | two steps naming different approvers are both passed on one echoed question, and nobody is contacted |
| Approvals.PassedIffApproved | crates/apl-core/src/evaluator.rs:762-924 | a step without `on_error: continue` is passed exactly when, in this pass, the status is resolved and approved, the response valid and the scope holds on this bag |
| Approvals.NothingForwardedUnapproved | crates/apl-core/src/evaluator.rs:762-924 | a validated phase reported as Allow with nothing pending got past every such step it came to, nested ones included, on the bag the earlier effects left |
| Approvals.ForwardedMeansSpeltOut | crates/apl-cpex/src/elicitation_invoker.rs:185-231 | and for each of them the handler said resolved, approved and valid in so many words, and the scope holds: a missing field never counts |
| Purity.ValidationIsExact | crates/apl-core/src/rules.rs:299-339 | accepts exactly the trees in which no `Parallel` has a `FieldOp`, `Delegate` or `Elicit` anywhere below |
| Purity.PureEffectsLeaveNoTrace | crates/apl-core/src/rules.rs:266-297 | an effect without mutation leaves bag, payload and flags unchanged in every evaluation |
| Compile.StepIsClean | crates/apl-core/src/parser.rs:865-874 | every step the parser builds passes the purity validation |
| Compile.LineIsClean | crates/apl-core/src/parser.rs:876-967 | a line of text reads as one single-step effect or as a rule with one control action, so it passes too |
| Compile.EffectIsClean | crates/apl-core/src/parser.rs:1612-1642 | every effect the parser builds passes it, however nested |
| Compile.TopLevelIsClean | crates/apl-core/src/parser.rs:2028-2060 | so does its top-level form |
| Compile.CompileBlock | crates/apl-core/src/parser.rs:2800-2860 | a block compiles exactly when no phase is declared twice and all parts parse; policies are the parsed steps in order, one field rule per declared field, and all trees are validated |
| Compile.CompileSteps | crates/apl-core/src/parser.rs:2825-2835 | entries become effects in order, and all of them are validated |
| Compile.CompileFields | crates/apl-core/src/parser.rs:2836-2857 | one rule per declared field with that field's chain, in any order |
| Compile.StackIsClean | crates/apl-core/src/rules.rs:542-575 | layers of compiled blocks stay validated |
| Compile.CompiledStackFailsClosed | crates/apl-core/src/rules.rs:542-575 | a request that any stack of compiled blocks lets through met only benign answers |
| Routes.Request.EvaluatePre | crates/apl-core/src/route.rs:98-180 | args rules, then policy unless a rule denied; payload and bag left as they say |
| Routes.Request.EvaluatePost | crates/apl-core/src/route.rs:189-274 | result rules when there is a result, then post-policy unless a rule denied |
| Routes.Request.EvaluateRoute | crates/apl-core/src/route.rs:286-316 | post runs only when pre neither denied nor suspended; taints and constraints concatenate |
| FieldRules.EvaluateFields | crates/apl-core/src/route.rs:110-155 | the loop over field rules edits one field at a time up to the first rejection |
| FieldRules.EditIsSeen | crates/apl-core/src/route.rs:110-155 | a replaced field reads back as the pipeline left it, an omitted one is gone, and the flag is raised for exactly these two |
| FieldRules.RulesKeepApart | crates/apl-core/src/route.rs:110-155 | paths apart from all declared fields keep their value |
| FieldRules.RulesFlagHonest | crates/apl-core/src/route.rs:201-248 | a lowered flag means the side is untouched |
| RouteLaws.PreKeepsResult | crates/apl-core/src/route.rs:98-180 | pre never changes the result, and without its flag not the args either, through all rules and nested edits |
| RouteLaws.PostKeepsArgs | crates/apl-core/src/route.rs:189-274 | post never changes the args, and without its flag not the result either |
| RouteLaws.RouteFlagsHonest | crates/apl-core/src/route.rs:286-316 | over both phases each flag vouches for its side |
| RouteLaws.PreKeepsOtherPaths | crates/apl-core/src/route.rs:98-180 | a path related to no rule and no nested edit keeps its value through pre |
| RouteLaws.PostKeepsOtherPaths | crates/apl-core/src/route.rs:189-274 | and through post |
| Confluence.FieldRulesConfluent | crates/apl-core/src/parser.rs:2836-2857 | plugin-free rules on paths apart from each other, in any two orders, deny together, and otherwise agree on tree, flag and multiset of taints |
| Confluence.EachActsAlone | crates/apl-core/src/route.rs:110-155 | on such paths each rule acts as if alone on the original tree |
| Confluence.WritesCommute | crates/apl-core/src/route.rs:336-386 | edits at paths apart can be exchanged |
| Confluence.OverlapShows | crates/apl-core/src/parser.rs:2836-2857 | for every pair of paths of which one leads into the other there are rules whose order shows |
| Layers.Effective.ApplyLayer | crates/apl-core/src/rules.rs:542-575 | appends policies, replaces field rules and overrides by those of the new layer, keeps key and response |
| Layers.Effective.ApplyAll | crates/apl-core/src/rules.rs:501-541 | layers stacked from least to most specific |
| Layers.Replaced | crates/apl-core/src/rules.rs:548-554 | rules the new layer redefines are dropped, then its own are pushed |
| Layers.OverAssociative | crates/apl-core/src/rules.rs:542-575 | layers can be grouped as one likes |
| Layers.OverUnique | crates/apl-core/src/rules.rs:548-566 | field names stay unique |
| Layers.LastLayerWins | crates/apl-core/src/rules.rs:548-566 | each field has exactly the rule of the last layer declaring it |
| Layers.EarlierVerdictStands | crates/apl-core/src/rules.rs:542-547 | the effects later layers append change no denial or suspension of an earlier layer's effect list from the same state, down to the calls made |
| LayerVerdicts.PreVerdictsStandExactlyWhen | crates/apl-core/src/rules.rs:542-557 | over whole pre phases, for every base, request and world: what the base denies or suspends runs just the same under the layers, exactly when none of them has a rule on the arguments |
| LayerVerdicts.PostVerdictsStandExactlyWhen | crates/apl-core/src/rules.rs:542-566 | the same for post phases and rules on the result |
| LayerVerdicts.FieldDenialLifted | crates/apl-core/src/rules.rs:548-554 | a layer that replaces a field rule lifts the denial that rule gave |
| LayerVerdicts.PolicyDenialLifted | crates/apl-core/src/rules.rs:548-554 | a layer's field rule lifts a denial of the earlier layer's policy by removing the field first |
| FastPath.EvaluateRules | crates/apl-core/src/evaluator.rs:52-77 | the nested loop returns the first denial among the effects that fire |
| FastPath.FastPathRefines | crates/apl-core/src/evaluator.rs:52-77 | on allow, deny, taint and restrict effects it agrees with the full evaluator in decision, reason and source, except exactly when an unresolvable deny-list comes up before any denial; there the full one denies |
| FastPath.LiteralDenyListsAgree | crates/apl-core/src/rules.rs:378-386 | so rules whose deny-lists are written out always agree |
| FlatBag.AttributeBag.Walk | crates/apl-cmf/src/payload.rs:48-90 | keys some node reads under hold such a reading and all other keys are as before, whatever the order of children |
| FlatBag.CollectStrings | crates/apl-cmf/src/payload.rs:60-76 | an array yields a set exactly when it is non-empty and all strings |
| FlatBag.IndexIsFaithful | crates/apl-cmf/src/payload.rs:48-90 | for every tree whose nodes are what their dotted spelling finds, and every dotted path, the bag under the prefixed path is the reading of `get_dotted`, and untouched where there is none |
| FlatBag.FaithfulExactlyWhen | crates/apl-cmf/src/payload.rs:48-90 | the bag agrees with `get_dotted` at every dotted path, whatever the order of children, exactly when every node that reads is what its dotted spelling finds; trees without dots in their keys are such |
| FlatBag.DottedKeyCollides | crates/apl-cmf/src/payload.rs:50-58 | a tree for which it does not: the bag can contradict `get_dotted` |
| FlatBag.RootIsRead | crates/apl-cmf/src/payload.rs:77-88 | the bare prefix holds the reading of the whole tree |
| FlatBag.NothingElseWritten | crates/apl-cmf/src/payload.rs:48-90 | no other key is written |
| Folding.Fold | crates/apl-cpex/src/candidate_constraint.rs:49-107 | succeeds exactly when no custom label is required to hold two values, with the fold of all constraints or nothing when that restricts nothing; an error names a genuine conflict |
| Folding.Union | crates/apl-cpex/src/candidate_constraint.rs:76-88 | labels are added in any order up to the first disagreement, which it names |
| Folding.FoldedMeans | crates/apl-cpex/src/candidate_constraint.rs:49-107 | a backend meets the folded deny-lists, regions, sites, tiers and labels exactly when it meets those of every constraint; passing the folded model list means passing every one |
| Folding.FoldedAllowList | crates/apl-cpex/src/candidate_constraint.rs:132-142 | the folded model list holds exactly the patterns common to all the lists given |
| Folding.FoldedExactlyWhen | crates/apl-cpex/src/candidate_constraint.rs:49-107 | for every compatible list of constraints, the fold accepts a backend exactly when it meets every constraint and, if models are listed at all, one pattern common to all lists matches it |
| Folding.PlainIdsFoldExactly | crates/cpex-core/src/extensions/routing.rs:136-190 | with the router's own matcher and ids without `*` that is exactly meeting every constraint |
| Folding.GlobListsLoseBackends | crates/apl-cpex/src/candidate_constraint.rs:132-142 | with globs a backend allowed by both lists can be lost: the input for which the fold accepts less |
| Folding.ConflictIsHopeless | crates/apl-cpex/src/candidate_constraint.rs:76-88 | a conflict means no backend meets all constraints |
| Folding.NothingToEmit | crates/apl-cpex/src/candidate_constraint.rs:102-106 | nothing is emitted exactly when no constraint restricts anything |
| Folding.FoldedPermuted | crates/apl-cpex/src/candidate_constraint.rs:49-107 | every order folds to the same extension or every order conflicts |
| Folding.AddingShrinks | crates/apl-cpex/src/candidate_constraint.rs:49-107 | adding a constraint only shrinks what is accepted |
| Restricting.RestrictsReachTheRouter | crates/apl-core/src/evaluator.rs:536-562 | for a request not denied, a backend accepted by the folded constraints meets every `restrict` that fired, parallel branches included; emitting nothing means none asked anything; a conflict means none can be met together |
| Globs.GlobMatch | crates/cpex-core/src/extensions/routing.rs:242-271 | the backtracking loop computes the cursor definition |
| Globs.GlobIsRight | crates/cpex-core/src/extensions/routing.rs:242-271 | it decides every pattern as globs mean exactly for texts with no `*` before their last character |
| Globs.EarlyStarMisleads | crates/cpex-core/src/extensions/routing.rs:250-256 | an earlier `*` in the text makes it miss a match |
| Globs.PlainPatternIsEquality | crates/cpex-core/src/extensions/routing.rs:242-271 | a pattern without `*` matches exactly itself |
| AttributeMerge.MergeObject | crates/apl-cpex/src/attribute_source.rs:117-142 | succeeds exactly on compatible trees, with their join; otherwise names a path that holds two values |
| AttributeMerge.MergeDocs | crates/apl-cpex/src/attribute_source.rs:65-75 | succeeds exactly on well-formed and pairwise compatible documents, with their least upper bound; a reported clash is a path at which two of the documents really differ |
| AttributeMerge.BoundedIsCompatible | crates/apl-cpex/src/attribute_source.rs:117-142 | the join exists whenever an upper bound does, and is below it |
| AttributeMerge.MergedPaths | crates/apl-cpex/src/attribute_source.rs:117-142 | the result has exactly the paths of the documents and their values |
| AttributeMerge.SameDocsMergeAlike | crates/apl-cpex/src/attribute_source.rs:65-75 | any two loads of the same documents, in any order and with any repeated, give the same tree or both fail |
| AttributeMerge.PermutedDocs | crates/apl-cpex/src/attribute_source.rs:65-75 | in particular any two orders of the same files |
| AttributeMerge.MergeGroups | crates/apl-cpex/src/attribute_source.rs:117-142 | the whole is the join of the merged parts |
| AttributeMerge.MergingAgain | crates/apl-cpex/src/attribute_source.rs:65-75 | merging a document again changes nothing |
| Labels.OverwriteLoses | crates/apl-cpex/src/cmf_invoker.rs:442-447 | without the taints an overwrite loses a label |
| Labels.SerialLosesNothing | crates/apl-cpex/src/cmf_invoker.rs:335-340 | calls one after another lose nothing |
| Labels.GoneExactlyWhen | crates/apl-cpex/src/cmf_invoker.rs:442-447 | a label some call added is gone from the shared set in the end exactly when the last write-back returned without it |
| Labels.LossTakesOverlap | crates/apl-cpex/src/cmf_invoker.rs:335-340 | and that takes a call that was under way, on a snapshot without the label, when another added it |
| Labels.RequestLabels.constructor | crates/apl-cpex/src/cmf_invoker.rs:131-171 | hydration unions the stored labels into the inbound ones |
| Labels.RequestLabels.ApplySessionTaints | crates/apl-cpex/src/cmf_invoker.rs:234-258 | adds the labels of exactly the session-scoped taints |
| Labels.RequestLabels.NewLabels | crates/apl-cpex/src/cmf_invoker.rs:270-289 | what is persisted is what was not there after hydration |
| Labels.RunSound | crates/apl-cpex/src/cmf_invoker.rs:335-340 | at every moment the shared labels and every snapshot hold the initial labels and nothing that was not emitted |
| Labels.TaintsRepair | crates/apl-cpex/src/cmf_invoker.rs:234-258 | for every interleaving of calls, the shared labels together with all the labels calls emitted are exactly the initial ones and those some call added |
| Hearing.WalkSpeaks | crates/apl-core/src/evaluator.rs:435-447 | over effect lists, whatever the outcome: a taint of a plugin call outside cancelled branches is reported, and one that no effect declares is reported only then |
| Hearing.WalkAccounted | crates/apl-core/src/evaluator.rs:1047-1095 | call by call, the log is the calls outside cancelled branches and those that branches had made when another branch's halt cancelled them; a run that is not denied has none of the latter |
| Hearing.InnerCallAlone | crates/cpex-orchestration/src/lib.rs:132-214 | a cancelled branch may have made the second call of a parallel block inside it and not the first |
| LabelFlow.RouteSpeaks | crates/apl-core/src/route.rs:286-316 | the same for whole routes, allowed, suspended or denied: the taint is missing from the report exactly when no call outside a cancelled branch emitted it |
| LabelFlow.PreAccounted | crates/apl-core/src/route.rs:98-180 | each call of a pre phase is heard or was made by a branch that was cancelled, and not both |
| LabelFlow.PreLabels | crates/apl-cpex/src/route_handler.rs:412-437 | for every decision of the pre phase and every interleaving of its plugin calls, settling keeps the initial labels and those of heard calls, adds none out of nowhere, and loses a label a call added exactly when every call that added it was made by a cancelled branch and the last write-back returned without it |
| LabelFlow.PostLabels | crates/apl-cpex/src/route_handler.rs:412-437 | the same for the post phase |
| LabelFlow.AllowedIsHeard | crates/apl-core/src/evaluator.rs:1047-1095 | in an allowed phase no branch was cancelled and every call is heard, so nothing is lost |
| LabelFlow.LabelIsLost | crates/apl-core/src/evaluator.rs:1054-1061 | a denied request that loses a label: two calls side by side, the second overwrites and denies, the first is cancelled |
| LabelFlow.HeardLabelReachesLaterRequests | crates/apl-cpex/src/route_handler.rs:412-437 | a label a heard call added, and the request did not come with, is in every request of the session that loads after this one persisted, whatever the decision and whatever happens in between |
| Sessions.SessionStore.LoadLabels | crates/apl-cpex/src/session_store.rs:140-147 | an unknown session has no labels |
| Sessions.SessionStore.AppendLabels | crates/apl-cpex/src/session_store.rs:149-163 | union into one session, others untouched |
| Sessions.RunKeeps | crates/apl-cpex/src/cmf_invoker.rs:131-171 | over every interleaving of requests and calls stores only grow, and a settled request still holds its hydrated labels and its session taints |
| Sessions.StoreIsUnion | crates/apl-cpex/src/cmf_invoker.rs:270-289 | a session holds exactly what it held before and what its requests persisted |
| Sessions.TaintIsStored | crates/apl-cpex/src/cmf_invoker.rs:270-289 | a session taint of a persisting request is stored exactly unless it came in with that label and nobody had stored it |
| Sessions.TaintReachesLaterRequests | crates/apl-cpex/src/cmf_invoker.rs:131-171 | a session taint not on the inbound labels is there for every request that loads afterwards, whatever happens in between |
| Sessions.InboundLabelIsNotPersisted | crates/apl-cpex/src/cmf_invoker.rs:270-289 | a label that came in with the request is not persisted |

## Left out

- Panicking branches and timeouts: the code drops a panicked branch instead of denying; the model assumes branches complete or are cancelled after a halt.
- Floating point, regular expressions, hashing and tier order: functions of the host, uninterpreted; float literals are kept as written, so the round trip covers them only as lexemes.
- Compile.CompileBlock: how the arguments inside a line's form and inside leaf mappings read (`delegate(..)` arguments, `restrict:` bodies, PDP arguments, pipe chains) is a parameter, and the results hold for every such reading; which form a line has is modelled.
- Compile.CompileSteps: the same readings are parameters here.
- Which parts of its log a cancelled branch can have made: the model allows any part, also ones that skip a call and keep a later one of the same sequence, so its schedules include all real ones and more.
- YAML and JSON text, serde defaults, file reading and legacy-key detection: the model starts from parsed trees.
- Error and denial wording: errors are kept as kinds, denial reasons as structured values rather than strings.
- In-place editing of JSON trees and of the attribute accumulator: `Json.SetDotted`, `Json.RemoveDotted` and `AttributeMerge.MergeObject` return the edited tree, so aliasing inside a tree is not modelled.
- Sorted and de-duplicated lists of the constraint types are sets, so their order on the wire is not modelled.
- Plugin payload rewriting (`modified_payload`, field readback) in `cmf_invoker.rs`: plugins may return any new field value, but how it is found in a message is not modelled.
- Session resolution, distributed store backends and store errors: a failed load or append is a request that does not take that step.
- Extractors of apl-cmf other than `payload.rs`, capability tables, plugin declarations and PDP routing: table lookups that would only add easy members.
- Language bindings and the host's request handling.
