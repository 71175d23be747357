# Gatekeeper, modelled and proved in Dafny

Gatekeeper is an authorization layer inside DuckDB. A host sets a policy (allowed and blocked functions and tables) and
Gatekeeper decides, for every statement of a connection, whether its text, its private bind and its final plan stay
within that policy. This project models the parts of Gatekeeper that decide, and proves what those parts promise for
every input, every plan and every run of a connection. DuckDB itself appears only as an environment: it calls hooks in
some order, supplies syntax trees, plans and catalog entries, and changes settings at any time.

`dafny verify dfyconfig.toml` checks everything.

## How it is organised

| files | what they hold |
|---|---|
| `Names`, `Policy`, `LeafScreen`, `TablePolicy` | identifiers, rules, and the decisions made from them; the pre-bind leaf screen; the indexed table match |
| `Enforcement`, `EnforcementState`, `EnforcementRuns` | the per-connection latch: each hook's effect, the mutable object that has it, and what holds in every state of every run |
| `Hooks`, `EnforcementSafety`, `EnforcementWitness`, `TextWitness` | the hooks end to end with the checks they run, what the history then means, and concrete runs |
| `Validation` | gatekeeper_validate as a run of the same checks, against enforcement |
| `Trees`, `Unfolding`, `Scans`, `Walks` | work stacks: that a last-in-first-out traversal is a traversal, over trees given or discovered |
| `Json`, `AstLiterals`, `AstGrammar`, `AstWalk`, `TextCheck` | the syntax walk over a parsed statement and the text boundary built on it |
| `Plan`, `Provenance`, `PlanAuthorization`, `CallerEvidence`, `PlanCheck` | plan walks, scan accounting, and which functions are the caller's |
| `Lookup`, `PrivateBind`, `StatementBind` | the private bind: one catalog lookup, the binders and binds of a statement, and its whole authorization |
| `PivotShape`, `BatchCheck` | dynamic PIVOT: placeholder arithmetic and the order of text and bind phases |
| `PolicyCodec`, `AuditText`, `InventoryDelta` | the stored policy, the logged statement text, and the inventory diff |

Hooks, walks and algorithms that change state step by step are classes and loops here too. Each is proved equal to a
specification function or to an outright property, and the theorems are about that specification. The history of a
connection is a ghost log; `EnforcementSafety.EveryEntryIsSincere` says that an entry is only ever written when the check
it reports holds of what it names, so a theorem that finds entries in the log is a theorem about the checks.

What a theorem assumes of the engine is a named predicate: `EnforcementSafety.Possible` (the verdicts handed to the
hooks are the checks' own, which `Hooks` discharges by running them: `Hooks.AdmissionIsPossible` and
`Hooks.DeferredIsPossible`), `EnforcementRuns.NewIds` (statement ids are never reused), `EnforcementRuns.Orderly` (a
throw ends the attempt; a statement is admitted before any of it is planned), `StatementBinds.Playable` (a bind stops at
its first refusal), `Validations.SingleStatement` (validation and admission see one session and one parser),
`PolicyCodec.WellTyped` (list items have the list's element type), `PivotShape.ParserShape` (the parser leaves a dynamic
column's list empty). Execution safety, the flag invariants and the accessor theorem do not use `Orderly`.

Theorems about runs and about validation hold around any check of texts, a parameter `text`; the hooks make the one of
the syntax walk, `Enforcement.SyntaxWalk`, which accepts a text with one record only.

## Where the code and the intended property part

- A plan must never reuse a preceding statement's admission. Enforcing, it does not; in log-only mode such a plan is let
  through and recorded once more. `EnforcementRuns.StalePlanIsRefusedIffEnforcing` is the exact condition,
  `EnforcementRuns.StalePlanIsAlwaysRecorded` the second record, `EnforcementWitness.StalePlanPassesInLogOnly` the run.
- A PIVOT batch whose later text does not parse reports the parser error although an earlier statement would have
  failed to bind. `BatchCheck.Check` says exactly when the split phases agree with the interleaved ones;
  `BatchCheck.UnparsableTextHidesAnEarlierFailure` is the concrete input.
- A dynamic PIVOT over an enum without values has total zero. Neither substitution has that shape when the static part
  alone is past the threshold: `PivotShape.EmptyEnumIsCoveredIffSmall`, with `PivotShape.AnEmptyEnumCanEscape`.
- An admission should record what validation would report. Enforcing, a statement goes on exactly when validation allows
  it. Log-only, the two differ on engine errors that a text raises: validation reads the text first and describes every
  error that can be described, while the admission asks about the remote scope first, describes only a text it cannot
  read, and before all of it parses the text once more for routing controls. `Validations.LogOnlyAgreesIff` is the exact
  condition; `EnforcementWitness.DescribedErrorGoesUnrecorded`, `EnforcementWitness.ThrownErrorIsRecorded` and
  `EnforcementWitness.UnroutableTextGoesUnrecorded` are one input for each way to fail it.
- The indexed table match is a scan of the rules for every rule set exactly when the key names a catalog and a whole
  schema path, or is refused before either is asked: `TablePolicy.IndexIsScanIff`. Catalog entries always do.

## Model

| member | source | states |
|---|---|---|
| `LeafScreen.LeafScreenIsExact` | src/validator.cpp:184-255 | for canonical policies the pre-bind screen passes a leaf name if and only if some resolved identity with that leaf would be allowed |
| `LeafScreen.AllowedIsEligible` | src/validator.cpp:200-238 | no function the resolved decision allows is refused by the screen |
| `LeafScreen.CoveringBlockMatches` | src/validator.cpp:200-209 | a block that covers a rule's namespace pattern matches every identity the rule matches |
| `LeafScreen.UncoveredWitnessEscapes` | src/validator.cpp:200-209 | a block that does not cover a pattern misses one identity, built from fresh names, that the rule matches |
| `LeafScreen.GrantSurvivorIsAllowed` | src/validator.cpp:210-255 | a surviving grant yields a concrete allowed identity |
| `LeafScreen.DefaultSurvivorIsAllowed` | src/validator.cpp:210-255 | a surviving default yields a concrete allowed identity |
| `TablePolicy.IndexAgreesWithScan` | src/validator.cpp:49-66 | for resolved keys the indexed lookup holds if and only if some rule matches |
| `TablePolicy.IndexIsScanIff` | src/validator.cpp:49-66 | for a folded key the lookup is the scan under every rule set if and only if the key names a catalog and a whole schema path, or is an internal object spelled with a wildcard |
| `TablePolicy.IndexAndScanPartOnAnEmptyCatalog` | src/validator.cpp:49-66 | the family in which they part: an empty catalog, where the lookup finds a rule that matches nothing |
| `TablePolicy.TableDecision` | src/validator.cpp:67-77 | a table is allowed if and only if no block matches and either tables are unrestricted or an allow rule matches |
| `TablePolicy.InternalNeedsExactRule` | src/validator.cpp:49-77 | an internal object passes only through a rule naming its schema path and table exactly |
| `EnforcementSafety.ExecutionSafety` | src/enforcement.cpp:375-485 | over every run and around any check of texts: when the execution boundary lets an enforcing statement's plan through, then under the one snapshot of that statement's own admission its text was accepted; private binds from nothing, none of which refused a lookup, left a parameter unsettled or met an unadmitted replacement, led to what the unit carries; and the plan itself was accepted, tables and functions; its scans lie within the privately validated plan's; its allowed record was just written |
| `EnforcementSafety.ExecutedTablesAreAllowed` | src/check.cpp:324-337 | over every run: the snapshot of its own admission allows every table of a plan that is let through, unless only a trusted definition reached it, as told by private binds in which every lookup passed |
| `EnforcementSafety.EveryEntryIsSincere` | src/enforcement.cpp:151-226 | in every run, whatever the history says passed a check did pass it, under the policy the entry names |
| `EnforcementSafety.WrappersRunNothingUndecided` | src/enforcement.cpp:419-458 | while enforcing, an EXECUTE wrapper is accepted only over a plan this statement accepted and recorded as allowed, a PREPARE wrapper only over one its pre-screen accepted, each under the snapshot this statement's admission took |
| `EnforcementSafety.LetThroughIsSincere` | src/enforcement.cpp:460-485 | the same for any checks: a plan that is let through has all its entries, and each is sincere |
| `EnforcementWitness.SomeStatementExecutes` | src/enforcement.cpp:375-485 | under every policy there is a legal orderly run with the checks' own verdicts whose plan is let through, once the text check accepts the smallest text |
| `EnforcementWitness.WalkAcceptsBare` | src/validator.cpp:847-876 | the syntax walk accepts the smallest text under every policy, for any grammar whose root may be empty |
| `EnforcementWitness.SomeStatementIsAllowed` | src/check.cpp:1074-1097 | that statement is one validation allows, with the verdicts its admission starts from |
| `EnforcementWitness.DescribedErrorGoesUnrecorded` | src/enforcement.cpp:193-207 | a text error validation describes as a denial is thrown by log-only admission, with no record |
| `EnforcementWitness.ThrownErrorIsRecorded` | src/enforcement.cpp:188-192 | a text error validation throws is recorded as a denial by log-only admission under an unsupported remote scope |
| `EnforcementWitness.UnroutableTextGoesUnrecorded` | src/enforcement.cpp:42-58 | a text too long to validate whose parse for routing controls fails is denied by validation and thrown by log-only admission, before any setting is read |
| `EnforcementWitness.StalePlanPassesInLogOnly` | src/enforcement.cpp:408-413 | a concrete run: in log-only mode the next statement's plan arrives before its admission, is let through, and a second record is written |
| `EnforcementRuns.StalePlanIsRefusedIffEnforcing` | src/enforcement.cpp:408-413 | a plan that arrives while the latch holds another statement is refused if and only if that statement was admitted as enforcing |
| `EnforcementRuns.StalePlanIsAlwaysRecorded` | src/enforcement.cpp:408-413 | such a plan writes one more record, whether or not the statement has one |
| `EnforcementRuns.EveryStateIsSound` | src/enforcement.cpp:94-139 | in every state of every run: authorized implies admitted implies in a statement, a decided prepare is outside statements, and each flag is grounded in the entries written since that admission |
| `EnforcementRuns.AccessorsAnswerForTheActiveStatement` | src/enforcement.cpp:353-372 | the admitted policy and binding are visible only while the stored id is the active one, and are those of that admission |
| `EnforcementRuns.EveryOrderlyStateIsSound` | src/enforcement.cpp:140-182 | in runs that follow the engine's order a log-only statement holds exactly one record once decided and none before, and an enforcing one that is decided and has not failed holds an allowed execution record |
| `EnforcementRuns.LogOnlyDecidesOnceAndRefusesNothing` | src/enforcement.cpp:240-304 | between a log-only statement's admission and its end at most one record is written, and no hook refuses it |
| `EnforcementRuns.StepKeepsSound` | src/enforcement.cpp:107-304 | every single hook or setting change keeps the invariants |
| `EnforcementRuns.StepKeepsOrderly` | src/enforcement.cpp:240-351 | every orderly step keeps the record count and the grounds of a decision |
| `EnforcementRuns.HookContinues` | src/enforcement.cpp:240-304 | a hook that admits nothing keeps the statement id, the snapshot and the mode, and asks no question under another policy |
| `EnforcementRuns.AdmissionKeepsSound` | src/enforcement.cpp:174-227 | admission starts a new window of the history with the settings as they stand |
| `EnforcementRuns.GateContinues` | src/enforcement.cpp:326-351 | the replacement gate changes no statement, snapshot or authorization |
| `Hooks.QueryBegin` | src/enforcement.cpp:174-227 | a statement begins: the text is admitted if and only if its tree is within the limit and the walk accepts it with some record, the fallback if and only if it is permitted, the private bind passes, fails or is refused exactly as the whole authorization does; the latch moves exactly as those verdicts say |
| `Hooks.DecideAdmission` | src/enforcement.cpp:183-226 | the verdicts an admission acts on are exactly the answers of the text boundary, the fallback rule and the private bind, each asked only where the ones before it let it be |
| `Hooks.DecideUnit` | src/enforcement.cpp:220-239 | a unit is bound now exactly when nothing defers it; it passes, breaks or is refused as its whole authorization does, and hands over exactly the provenance and plan of that bind |
| `Hooks.AdmissionIsPossible` | src/enforcement.cpp:183-226 | the verdicts of an admission are ones the theorems about runs assume |
| `Hooks.CanRequestRebind` | src/enforcement.cpp:258-269 | a later statement of a batch is admitted, by the same verdicts, exactly when its id is not the stored one |
| `Hooks.PostBind` | src/enforcement.cpp:375-485 | the execution boundary: no plan is no decision; a deferred bind is made exactly where it is due and ends exactly as its authorization does; stale plans, decided statements, wrappers, pre-screens and the final plan check, each with the check's own verdict |
| `Hooks.DecideDeferred` | src/enforcement.cpp:467-476 | a deferred private bind runs only where the boundary must decide, and passes, fails or is refused exactly as the whole authorization does |
| `Hooks.DeferredIsPossible` | src/enforcement.cpp:467-476 | the outcome of a deferred bind is one the theorems about runs assume |
| `Validations.EnforcingAgrees` | src/enforcement.cpp:122-125 | enforcing, an unparameterized statement goes on past admission if and only if validation with no options allows it; admission throws exactly on engine errors of the text or the bind it reaches, and refuses nothing validation would not deny but for the one text error it does not reach |
| `Validations.LogOnlyAgreesIff` | src/enforcement.cpp:144-169 | log-only, the admission records a denial exactly when validation reports one and throws exactly when it throws, if and only if a text error is described exactly under an unsupported remote scope and the parse for routing controls fails only on an error validation throws |
| `Validations.Check` | src/check.cpp:1074-1097 | validation allows a single statement if and only if its text is admitted, the remote scope is supported and the whole authorization passes; it throws exactly the engine errors of text or bind that must not be described, and denies the rest |
| `Validations.ValidateThenBegin` | src/enforcement.cpp:122-125 | the two code paths run on one statement: validation, then the hook; their verdicts agree in both modes as above |
| `Validations.ValidatedStatementExecutes` | src/enforcement.cpp:122-125 | what validation allows, the boundary lets through and records as allowed when the engine binds the plan the private bind ended with, with its properties, whatever the settings are by then |
| `Validations.ValidatedPlanPassesAgain` | src/check.cpp:278-353 | a plan accepted by the private pass is accepted by the engine pass against the tallies it left |
| `TextChecks.CheckText` | src/check.cpp:165-212 | a statement is admitted if and only if its tree is within the size limit and the walk accepts it, with exactly the record the walk made; unreadable exactly for NUL bytes, parser and input errors and empty texts; thrown exactly for other engine errors; every other text is denied, over the limits and unsupported ones for that reason |
| `TextChecks.RecordIsUnique` | src/validator.cpp:847-876 | a text is accepted with one record only |
| `EnforcementStates.EnforcementState.constructor` | src/enforcement.cpp:107-139 | a new latch is cleared |
| `EnforcementStates.EnforcementState.Reset` | src/enforcement.cpp:126-139 | clears every field and writes nothing |
| `EnforcementStates.EnforcementState.RecordIt` | src/audit.cpp:179-186 | writes one record, and refuses exactly a denied result in enforcing mode |
| `EnforcementStates.EnforcementState.EndQuery` | src/enforcement.cpp:240-257 | records an undecided log-only failure and clears the latch |
| `EnforcementStates.EnforcementState.PlanningFailed` | src/enforcement.cpp:270-285 | a planning error of a log-only statement is recorded at most once |
| `EnforcementStates.EnforcementState.PrepareFinalized` | src/enforcement.cpp:286-296 | a finished Prepare() outside statements forgets its decision |
| `EnforcementStates.EnforcementState.RebindForced` | src/enforcement.cpp:297-304 | a prepared plan is executed only under the current statement |
| `EnforcementStates.EnforcementState.Replace` | src/check.cpp:436-560 | outside a private bind the replacement is judged, reader entry and all, by the admitted policy, else by the setting, and only when the gate is closed |
| `EnforcementStates.EnforcementState.GateDecides` | src/check.cpp:452-459 | marks the statement or the prepare decided and records once |
| `EnforcementStates.EnforcementState.PrescreenInsideIt` | src/enforcement.cpp:419-458 | a nested PREPARE plan passes only the operator review and marks the statement pre-screened |
| `CallerEvidence.CallerGrantsSuffice` | src/authorization.cpp:244-455 | a plan accepted under any policy is accepted with defaults off, no blocks and exact grants for its caller functions |
| `CallerEvidence.CallerBlockRefuses` | src/authorization.cpp:49-67 | an exact block for any caller function of an accepted plan makes the walk refuse it |
| `CallerEvidence.ForeignBlockIsInert` | src/authorization.cpp:49-67 | a block that matches no caller function changes no verdict |
| `CallerEvidence.PolicyActsOnCallersOnly` | src/authorization.cpp:244-455 | acceptance carries over to any policy that allows the plan's caller functions and turns no defaults on |
| `PlanAuthorization.AuthorizePlanAgainst` | src/authorization.cpp:244-455 | the stack walk accepts if and only if every function the plan reaches passes, and then its evidence is the plan's function and caller sets, which no policy enters; it ends in an engine error if and only if something it cannot inspect comes before anything it refuses |
| `PlanAuthorization.AuthorizePlan` | src/authorization.cpp:457-461 | two layers accept if and only if each alone accepts; a denial of the ceiling is reported from the ceiling alone; an engine error of the second layer is met only when the first accepts |
| `PlanAuthorization.FindingsDecide` | src/authorization.cpp:244-455 | the walk's findings pass together exactly when each step passes, and carry exactly the resolved keys |
| `Walks.Drain` | src/authorization.cpp:244-455 | draining a work stack reads the findings of every node in order and stops at the first that fails |
| `Trees.VisitIsTraversal` | src/check.cpp:278-353 | a work stack visits every node as often as it occurs, whatever the tree's shape |
| `PlanCheck.CheckPlan` | src/check.cpp:278-353 | accepts if and only if every operator is a reviewed read operator, every scan passes both layers and the accounting, and the function walk accepts; errors if and only if only the function walk fails, by something it cannot inspect; an accepted private pass stores exactly the plan's scan multisets, an engine pass stores nothing |
| `PlanCheck.CheckScans` | src/check.cpp:278-353 | the operator pass alone: acceptance, the stored tallies and the object evidence |
| `PlanCheck.CheckOperators` | src/check.cpp:278-353 | the work stack equals the node-by-node review with running counters |
| `PlanCheck.CheckScan` | src/check.cpp:324-348 | one scan passes exactly when its object or source does and the counters still cover it |
| `PlanCheck.AccountingIsInclusion` | src/check.cpp:278-353 | the counters cover a plan's scans if and only if its multiset is included in the validated one |
| `PlanCheck.EnginePlanStaysWithinThePrivatePlan` | src/check.cpp:278-353 | an accepted engine plan scans no table and no source more often than the privately validated plan |
| `PlanCheck.CountingDown` | src/check.cpp:278-353 | decrementing counters along any order succeeds exactly for an included multiset |
| `PlanCheck.CountingUp` | src/check.cpp:278-353 | counting up along any order yields the multiset |
| `PrivateBinds.LookupCallback.constructor` | src/check.cpp:636-668 | a root binder starts untrusted and unarmed |
| `PrivateBinds.LookupCallback.Copy` | src/check.cpp:636-668 | a copy is trusted if its source was trusted or armed, and disarms the source |
| `PrivateBinds.LookupCallback.Lookup` | src/check.cpp:645-812 | one lookup decides, learns, records and arms: objects, functions under both layers, native callbacks, quantiles, dispatched aggregates, min/max dependencies and macro bodies, each stage only after the one before it passed |
| `PrivateBinds.TrustIsLicensedDescent` | src/check.cpp:636-668 | after any binds, lookups and copies a binder is trusted if and only if some copy on its path was made while its source was armed; armed implies untrusted |
| `PrivateBinds.TrustIsInherited` | src/check.cpp:636-668 | every descendant of a trusted binder is trusted |
| `PrivateBinds.OneChildPerArming` | src/check.cpp:767-775 | a binder has no more licensed copies than arming lookups |
| `PrivateBinds.ObjectsFollowEveryBind` | src/check.cpp:651-662 | over any chain of binds of a statement the recorded objects are exactly those the lookups saw, split by attribution, and every attributed lookup that passed was allowed by both layers |
| `PrivateBinds.AttributionAgrees` | src/validator.cpp:297-329 | over any chain of binds, at plan time an object is the caller's if and only if the caller's text names it, some lookup of it was the caller's, or it was never looked up |
| `PrivateBinds.CallerTablesPassBothLayers` | src/check.cpp:324-337 | every table of an accepted plan that is attributed to the caller is allowed by the ceiling and by the policy |
| `PrivateBinds.RefusalLeavesViolation` | src/check.cpp:645-812 | a bind that is refused always has a violation on record |
| `StatementBinds.PlayLookups` | src/check.cpp:876-888 | the binders' callbacks, copied and called as the engine does, learn and decide exactly what the sequence of lookups says |
| `StatementBinds.AuthorizeStatement` | src/check.cpp:846-906 | passes if and only if no fallback is refused, every collation is known, every lookup and replacement passes, parameters are settled, the private plan check accepts and every replacement was admitted, and then leaves exactly the plan's tallies and evidence; ends in an engine error if and only if one comes before any refusal |
| `StatementBinds.AuthorizeUnit` | src/check.cpp:1010-1027 | passes if and only if the remote scope is supported, the statement passes and, for a dynamic PIVOT with a second shape, that one passes over what the first left; hands over exactly the provenance of the last bind and its plan; ends in an engine error exactly when one of the binds it reaches does |
| `StatementBinds.PassedIsVetted` | src/check.cpp:1010-1027 | an authorization that passes is one whose provenance and plan the binds behind it vouch for |
| `StatementBinds.VettedLookupsPassed` | src/check.cpp:645-812 | behind a vetted provenance no lookup of any bind was refused or failed |
| `StatementBinds.VettedTablesAreAllowed` | src/check.cpp:324-337 | every table of a plan accepted against a vetted provenance is allowed by both layers unless only a trusted definition reached it, and so was every entry of it that a lookup attributed to the caller |
| `PivotShape.ShapesAreCovered` | src/check.cpp:941-1008 | for all data that gives the dynamic columns a value and a legal total, the engine's shape is that of the small or of the large substitution |
| `PivotShape.EveryPivotIsCovered` | src/check.cpp:1010-1027 | in a statement with any number of PIVOTs each has the shape it had in one of the two binds, and when none differs the first bind alone covers all |
| `PivotShape.SubstitutePivot` | src/check.cpp:959-1006 | in place, one PIVOT's columns become the substitution with the mathematically chosen count: no 64-bit wraparound changes it |
| `PivotShape.EmptyEnumIsCoveredIffSmall` | src/check.cpp:941-1008 | with an empty enum the shape is covered if and only if the static total is within the threshold |
| `PivotShape.AnEmptyEnumCanEscape` | src/check.cpp:941-1008 | a concrete PIVOT over an empty enum whose shape neither substitution has |
| `PivotShape.ChosenIsLeast` | src/check.cpp:985-992 | the chosen count is the least past the threshold and under the limit, and one is kept exactly when there is none |
| `PivotShape.SubstitutePivotEnums` | src/check.cpp:941-1008 | every PIVOT of the statement is substituted, and the result says whether any large shape differs from its small one |
| `PivotShape.Measure` | src/check.cpp:961-984 | the saturated product of the static columns and the dynamic columns in order |
| `PivotShape.ChooseCount` | src/check.cpp:985-992 | 64-bit division and comparison choose the mathematical count |
| `PivotShape.SubstitutedTotal` | src/check.cpp:941-1008 | the substituted PIVOT's total is the static total times the count |
| `BatchCheck.Check` | src/check.cpp:1074-1097 | checking all texts and then the admitted prefix reports the interleaved first failure if and only if no text throws or no earlier bind fails |
| `BatchCheck.CheckBatchText` | src/check.cpp:133-163 | the units up to the first unadmitted text, each with exactly the enum names created before it |
| `BatchCheck.InterleavedIsFirst` | src/check.cpp:1074-1097 | the interleaved order meets the first failing bind of the admitted prefix, else the first unadmitted text |
| `BatchCheck.SplitAgrees` | src/check.cpp:1074-1097 | the same equivalence for the phases as functions |
| `BatchCheck.UnparsableTextHidesAnEarlierFailure` | src/check.cpp:1074-1097 | a concrete batch on which the two orders differ |
| `AstWalk.Validate` | src/validator.cpp:847-876 | the walk finishes if and only if every reachable node conforms and node total and height are within the limits; its violations are those of the nodes plus each ineligible name with its exact count and earliest known position; the record for the private bind is exactly what the nodes contribute, parameters with their earliest known positions included |
| `AstWalk.Walker.Check` | src/validator.cpp:731-738 | visits the tree in stack order, stops at the first node that fails, and otherwise holds the tables of all of it |
| `AstWalk.Walker.CheckNode` | src/validator.cpp:739-844 | counts the node, applies the limits before the grammar, pushes and records what the node says |
| `AstWalk.Walker.Function` | src/validator.cpp:502-509 | one more occurrence, and the smaller of the known positions |
| `AstWalk.PassesIsAcceptable` | src/validator.cpp:731-844 | passing in stack order is the recursive check, whatever the order |
| `AstWalk.DepthIsHeight` | src/validator.cpp:739-742 | the recorded depths stay within a limit exactly when the tree's height does |
| `AstWalk.CountsAgree` | src/validator.cpp:502-509 | counts along the stack order are the tree's counts |
| `AstWalk.Screen` | src/validator.cpp:858-873 | a violation for exactly the called names a layer's leaf screen refuses |
| `AstWalk.AcceptedNamesCanResolve` | src/validator.cpp:847-876 | text without violations calls only names under which each layer allows some resolved function |
| `AstWalk.EveryWrittenCallIsScreened` | src/validator.cpp:646-723 | in text without violations every written function or window call, at any depth, is no dynamic SQL and names a leaf under which both layers allow some function |
| `AstGrammar.NothingIsSkipped` | src/validator.cpp:806-843 | a passing node's rule knows all its members; each is pushed once under the rule's type, each CTE entry too, and nothing else; no required member is absent |
| `AstGrammar.EveryCallIsNoted` | src/validator.cpp:646-723 | a passing call node is counted under its folded written name and position, and dynamic SQL is rejected |
| `AstGrammar.Inspect` | src/validator.cpp:739-844 | a conforming node pushes only parts of itself, one level deeper |
| `AstGrammar.TypeNode` | src/validator.cpp:510-541 | a logical type pushes only its own nested types |
| `AstLiterals.BindLiteral` | src/validator.cpp:415-455 | an expression is a literal if and only if it is literal form at every depth and no larger than the node limit |
| `AstLiterals.HasRuntimeReference` | src/validator.cpp:461-490 | within the node limit, true if and only if some reachable operand refers to a row |
| `Scans.ScanStack` | src/validator.cpp:415-490 | the bounded stack scan ends where its visiting order first fails |
| `Scans.FinishesIffEverywhere` | src/validator.cpp:415-455 | a bounded scan finishes if and only if every reachable item passes and there are no more than the budget |
| `Unfolding.OrderStep` | src/validator.cpp:731-738 | popping an item and pushing what it names continues one visiting order |
| `Unfolding.EverywhereIsEveryNode` | src/validator.cpp:731-738 | the recursive check of a tree is the check of every node in it |
| `PolicyCodec.RoundTrip` | src/options.cpp:342-427 | a written policy reads back as itself if and only if it is well formed, in whatever order its sets were written |
| `PolicyCodec.ReadIsWellFormed` | src/options.cpp:400-427 | every policy read from a stored value is well formed |
| `PolicyCodec.CanonicalizationIsIdempotent` | src/options.cpp:342-427 | writing and reading again any policy that was read changes nothing |
| `PolicyCodec.OrderDoesNotMatter` | src/options.cpp:266-340 | every permutation of the options succeeds or fails alike and gives the same policy |
| `PolicyCodec.ApplyMeans` | src/options.cpp:266-340 | options apply exactly when each is given once and decodes, and each field is what its one option says or what it was |
| `PolicyCodec.ApplyOptions` | src/options.cpp:266-340 | the loop equals the fold, repeated options included |
| `PolicyCodec.OptionsKeepWellFormed` | src/options.cpp:266-340 | no option makes a well-formed policy ill formed |
| `PolicyCodec.FieldsSettle` | src/options.cpp:303-332 | the fields read so far establish folded, nonempty, NUL-free components |
| `PolicyCodec.PolicyValue` | src/options.cpp:342-374 | the canonical value lists each rule set completely |
| `PolicyCodec.ReadStored` | src/options.cpp:400-427 | reads the fields in order and rejects every NULL, wrong type and unrestricted nonempty table list |
| `PolicyCodec.GrantReadsBack` | src/options.cpp:342-398 | one written function rule decodes to itself, empty catalog and kind included |
| `PolicyCodec.TableReadsBack` | src/options.cpp:342-398 | one written table rule decodes to itself |
| `AuditText.StatementText` | src/audit.cpp:93-116 | one pass and a backward trim compute the logged text |
| `AuditText.LoggedIsBoundedPrefix` | src/audit.cpp:93-116 | for arbitrary bytes the logged text is at most 65536 bytes, NUL-free, and a prefix of the NUL-to-U+FFFD image |
| `AuditText.LoggedIsLongestPrefix` | src/audit.cpp:93-116 | for well-formed text it is the image of the longest whole-character prefix that fits |
| `AuditText.LoggedIsWellFormed` | src/audit.cpp:93-116 | it is well-formed UTF-8 (section 4 of RFC 3629) whenever the text is |
| `InventoryDelta.FunctionDelta` | scripts/capture_extensions.py:73-86 | the delta holds complete groups, those only before, only after, and in both with different rows; identities in order and overloads in text order; each changed group is all rows of one identity on either side, each side in text order |
| `InventoryDelta.SortingOrdersAreTotal` | scripts/capture_extensions.py:78-86 | texts by their characters and identities as tuples of texts are total orders, as sorting assumes |
| `InventoryDelta.RoundTrip` | scripts/inventory_capture.py:35-45 | a delta between two listings never underflows on the first and leads to exactly the second, duplicates included |
| `InventoryDelta.ApplyDelta` | scripts/inventory_capture.py:35-45 | refused if and only if a removed row is missing; else the one sorted listing of the difference and sum |
| `InventoryDelta.CaptureStages` | scripts/capture_extensions.py:337-361 | a sorted listing per stage, its hash, and its delta against the stage before it; then the first-to-last delta |
| `InventoryDelta.Reconstruct` | scripts/inventory_capture.py:88-108 | folds the stage deltas onto the base, checks every hash, and compares with the first-to-last delta |
| `InventoryDelta.ReconstructionInvertsCapture` | scripts/inventory_capture.py:88-108 | of any capture every patch fits, every hash and the first-to-last delta check, and the listings come back exactly as captured |
| `InventoryDelta.CaptureFunctions` | scripts/audit_inventory.py:48-73 | a captured listing is sorted by the text that patching sorts by |
| `InventoryDelta.SortedIsUnique` | scripts/inventory_capture.py:35-45 | two sorted listings of one multiset are equal |
| `InventoryDelta.UnionSnapshot` | scripts/inventory_capture.py:121-128 | every row as often as in the listing that has it most |
| `InventoryDelta.MostIsReached` | scripts/inventory_capture.py:121-128 | that count is an upper bound some listing attains |

## Left out

- DuckDB's parser, binder, catalog, planner, settings store and log manager: environment events and input trees.
- DuckDB 1.5: the engine major version is fixed at 2, so intrinsic windows and version adapters are not modelled.
- Extension registration, the engine guard, result marshalling and the settings callbacks, which only adapt the engine's interfaces.
- JSON text decoding of policies, and the wording and positions of error messages other than a denied function's.
- The concrete function inventories and grammar: an abstract valid inventory and an arbitrary grammar stand in for them.
- `ListAggregateImplementation` and lambda bind data: their outcome is an input of the plan node.
- Which engine errors can be described: an input of every text and bind that raises one (src/include/engine_errors.hpp lists those that must reach the engine).
- The text outcome of a batch at the hooks, which refuse every batch: it is an input there, and `BatchCheck` models how it is decided.
- The partial provenance a failed private bind leaves behind: a next bind of that unit starts from nothing here. No engine order binds a unit again after a failure.
- The display path of an admitted replacement in the evidence of objects.
- Negative parameter positions, which all mean that none is known: recorded as -1.
- The JSON text of an inventory row: any injective encoding into texts stands in for it.
- Extension downloading, process isolation, packaging, benchmarks and documentation tests.
