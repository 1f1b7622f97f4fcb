# SLO platform: a Dafny model

The repository turns declarative service level objectives into Prometheus rules, reacts to the alerts those rules
raise, and protects releases with the error budget. This project models the parts that decide something and proves
what they guarantee.

| files | what they model |
|---|---|
| `Samples.dfy` | series values and floats: reals, NaN, the infinities, and absence |
| `PromQL.dfy` | the PromQL the generator writes: tree, printer, lexer, parser, evaluator, and rule groups evaluated in order |
| `SloApi.dfy` | the SLO resource, placeholder substitution, and the admission webhook |
| `RuleGenerator.dfy`, `RuleNames.dfy`, `RuleMeaning.dfy` | the compiler from SLO to rules: the code, its names, and what the rules mean |
| `RuleFields.dfy` | the compiler's output in the fields of the resource: names, numbers, durations, labels, with the defaults spelled out |
| `RuleLimits.dfy`, `RuleOwners.dfy` | which resources meet the compiler's hypotheses, and what happens to those that do not |
| `BurnBudget.dfy` | burn rates in terms of requests and of the month's error budget |
| `Reconciler.dfy` | the controller's double write and status conditions |
| `BudgetPolicy.dfy` | the freeze controller |
| `Slices.dfy` | Go slices over shared backing arrays |
| `Triage.dfy`, `Remediate.dfy` | event identity and triage, the store, the rule table, cooldown and engine, as objects with methods |
| `Pipeline.dfy`, `PipelineCooldown.dfy` | the same remediator as an interleaved step system with any number of concurrent webhooks |
| `PipelineLists.dfy`, `PipelineLost.dfy` | which entries survive in lists that share an array, and a run that loses one |
| `PipelineHistory.dfy`, `PipelineOutcomes.dfy`, `PipelineResolution.dfy` | what the store shows of an event: in serial runs, and when a resolution stays |
| `PipelineAlone.dfy` | the relation of the steps to the methods |
| `PipelineEvidence.dfy`, `PipelineRecurrence.dfy` | which answer, reply and sample an action rests on, and when an incident is a new one |
| `Coverage.dfy` | from a fired Page alert to the rule table, and from the Budget alert to the freeze |
| `Retrieval.dfy`, `DeepCopy.dfy`, `OrderAccounting.dfy`, `Reports.dfy` | runbook retrieval, deep copies, order accounting, grouping accumulators |

## How to read it

- **Rules are text.** A rule's expression is a string. A reader lexes it (tokens are separated by blanks), parses it
  with PromQL's precedences and evaluates it. Text that is no canonical tree of names, numerals, `/`, `>` and `and` is
  an opaque query: its answer depends on the text, on the database, and on the current samples of every name the text
  mentions, that is every maximal run of name characters in it.
- **Samples** are absent, NaN, finite reals or infinities, so a quotient by zero is what Prometheus returns. Each
  name has at most one series, and a series takes one sample per evaluation: a second one is discarded. Rounding is
  not modelled; `FormatFloat` is a parameter, and theorems that need a number to survive printing say `Exact` for
  exactly that number. The burn samples of the remediator and the freeze controller are floats of this kind: NaN
  satisfies no comparison.
- **Lists share arrays.** `triage.go:170` copies a slice header and `handler.go:119` appends to it, so the remediation
  lists of one event's objects may share a backing array. A list is a header over such an array; where the array is
  full, append takes a new one, with spare capacity of the environment's choice. In `Triage.Event` it is a Dafny array,
  in `Pipeline` an entry of the heap.
- **Hypotheses the webhook does not establish are explicit.** `Compilable` says that no two items compete for a name,
  that service and raw item names make legal metric names, and that user queries mention no generated series.
  `RuleLimits` shows that the shipped resource meets it, and which service names do not; `RuleOwners` says what
  competing items do to each other's series, for any list of items; `RuleMeaning.AlertSeriesResolves` says exactly
  which alert windows read a generated series.
- **Classes and steps agree.** `Triage.Triage`, `Remediate.Handler.ProcessEvent` and
  `OrderAccounting.Handler.Instrument` are the code from top to bottom; the interleaved machines cut the same work into
  atomic steps. `PipelineAlone.TriagesAlone`, `PipelineAlone.ProcessesAlone` and `OrderAccounting.StepsAreServed` prove
  that uninterrupted steps do what the methods do, from any state.
- **The environment chooses**: LLM answers, burn samples, replies of the cluster, clock readings, random numbers, which
  API calls fail, and the order of steps are parameters.

## Where code and documentation disagree (the model follows the code)

- `slo_types.go` documents `{{.window}}` for both event queries; the webhook asks for it in the error query only, so one
  total may serve all windows (`RuleLimits.FixedTotalQuery`).
- `triage.go:152` comments that a firing event becomes `active`; the code stores the payload's status unchanged.
- `slo-cr-ordersvc.yaml:4` announces an alert `OrdersvcHighLatencyP99Ticket`, and rule R-C1 waits for that name; the
  compiler generates `OrdersvcHighLatencyTicket`, so R-C1 never matches (`Coverage.LatencyRuleNeverMatches`). Line 3
  announces `latency_p99_5m`, which is not generated for it either (`RuleFields.ShippedRecordsNoQuantile`).
- `rule_generator.go:58` says that `latency_p99_5m` is kept; it is generated only when the raw query contains
  `histogram_quantile`.
- The README promises a page at 2 % of the month's budget or more; the comparison is strict (`BurnBudget.PageMeansTwoPercent`).
- `budget_policy.go:64` promises a margin before thawing; missing data reads as burn 0 and thaws at once
  (`BudgetPolicy.MissingDataThaws`, exactly then: `BudgetPolicy.ThawIsMeasured`), and a restart forgets a freeze (`BudgetPolicy.RestartWhilePaused`).

## Model

| member | source | states |
|---|---|---|
| PromQL.ParseExact | operator/internal/controller/rule_generator.go:82-99 | the parser accepts exactly the blank-separated token lists of trees that need no parentheses, each as that one tree |
| PromQL.RoundTrip | operator/internal/controller/rule_generator.go:82-177 | printing a canonical tree in the generator's layout (`a / b`, `a > t`, `\nand `) and parsing it with PromQL precedence returns the tree |
| PromQL.Opaque | operator/internal/controller/rule_generator.go:66-67 | text with a character outside the fragment, such as a parenthesis, is a query that may read exactly the names it mentions |
| PromQL.AloneIsMentioned | operator/internal/controller/rule_generator.go:66-67 | a name that stands alone anywhere in a text is among its mentions, inside calls and selectors too |
| PromQL.MentionedOccurs | operator/internal/controller/rule_generator.go:66-67 | what a text mentions occurs in it |
| PromQL.OnePassSolves | operator/internal/controller/rule_generator.go:59-116 | after one in-order pass over an ordered group every recorded name equals the value of its own expression in the final environment, and no sample was discarded for a different one |
| PromQL.OrderedConcat | operator/internal/controller/rule_generator.go:59-116 | two ordered groups concatenate to an ordered one if the second records nothing the first reads, and equal names have equal expressions |
| SloApi.RenderSubstitutes | operator/internal/controller/rule_generator.go:38-49 | rendering replaces the first placeholder by the window, whatever text without one precedes it, and goes on behind it |
| SloApi.PlaceholderSeparatesWindows | operator/api/v1/slo_webhook.go:76-85 | a query renders differently for two different windows iff it contains the placeholder the webhook demands |
| SloApi.AdmittedIffNoProblem | operator/api/v1/slo_webhook.go:51-97 | the closed-form admission predicate holds iff none of the webhook's problems is present; the two status patterns are one |
| SloApi.CheckQueries | operator/api/v1/slo_webhook.go:67-86 | reports precisely the query problems of an item |
| SloApi.CheckItem | operator/api/v1/slo_webhook.go:56-92 | reports precisely the problems of an item |
| SloApi.ValidateSLO | operator/api/v1/slo_webhook.go:51-97 | reports exactly the problems a spec has, and nothing iff the spec is admitted |
| RuleGenerator.Texts | operator/internal/controller/rule_generator.go:70-99 | the format strings spell the series names and the printed trees of the derived rules |
| RuleGenerator.AppendWindow | operator/internal/controller/rule_generator.go:65-101 | appends four rules for an event SLI and two for a raw one, in that order, for one window |
| RuleGenerator.BuildRecordingRules | operator/internal/controller/rule_generator.go:59-116 | the loops produce the recording group that the meaning theorems are about |
| RuleGenerator.JoinIsPrint | operator/internal/controller/rule_generator.go:165-178 | joining the comparison texts with `\nand ` is printing the left-nested conjunction of the comparisons |
| RuleGenerator.BuildMultiWindowBurnExpr | operator/internal/controller/rule_generator.go:165-178 | for a non-empty window list the result is the printed conjunction, one comparison per window in order |
| RuleGenerator.MergeInto | operator/internal/controller/rule_generator.go:184-186 | copying a map's entries in any iteration order gives the right-biased union |
| RuleGenerator.MergeLabels | operator/internal/controller/rule_generator.go:181-189 | the nested loops compute the right-biased union of all sources, whatever the iteration order |
| RuleGenerator.LastSourceWins | operator/internal/controller/rule_generator.go:130-131 | in a merge the last source's entries survive unchanged |
| RuleGenerator.BuildAlertRules | operator/internal/controller/rule_generator.go:118-161 | Page, Ticket and Budget rules per item with chosen or default threshold, windows, duration, labels and annotations |
| RuleGenerator.BudgetText | operator/internal/controller/rule_generator.go:151-153 | the Budget format string is the printed comparison of `burn_rate1d` with 1 |
| RuleGenerator.AlertMembers | operator/internal/controller/rule_generator.go:118-161 | the alert group holds exactly the alerts that some item generates for an enabled tier or, with an event SLI, for the budget |
| RuleGenerator.AlertsCarryOrigin | operator/internal/controller/rule_generator.go:118-161 | every alert of the group carries `service` and, as `slo`, the name of the item that generated it, whatever the user labels say |
| RuleGenerator.CollectRuleNames | operator/internal/controller/rule_generator.go:234-247 | the status lists the non-empty record names, then the non-empty alert names |
| RuleNames.WindowSuffix | operator/internal/controller/windows.go:6 | no recording window is a suffix of another: equal strings ending in windows have equal windows and equal stems |
| RuleNames.FamilyApart | operator/internal/controller/rule_generator.go:71-99 | the families differ inside the name: event names go on with a digit, raw ones with `_` |
| RuleNames.NameInjective | operator/internal/controller/rule_generator.go:70-99 | record names decode uniquely: equal names have equal family and window and, for raw series, equal sanitized item |
| RuleNames.LatencyApart | operator/internal/controller/rule_generator.go:106-113 | `latency_p99_5m` is no other generated series |
| RuleNames.RecordsAreGenerated | operator/internal/controller/rule_generator.go:59-116 | the record names of the group are exactly the generated names of the items |
| RuleNames.SanitizedAlike | operator/internal/controller/rule_generator.go:207-210 | two item names sanitize alike iff they differ at most in which of `.`, `-`, space and `_` they use |
| RuleNames.SharedNames | operator/internal/controller/rule_generator.go:65-113 | two items record a common name iff both are event items, or both raw with one sanitized name, or both latency SLIs |
| RuleNames.UniqueExactly | operator/internal/controller/rule_generator.go:59-116 | no two recording rules of a resource share a name iff no two of its items do so |
| RuleMeaning.RulesApart | operator/internal/controller/rule_generator.go:65-101 | a rule neither reads nor rivals a record of another window or of a non-competing item |
| RuleMeaning.RecordingOrdered | operator/internal/controller/rule_generator.go:59-116 | the recording group is ordered: what a rule reads of the group is recorded earlier, and only earlier |
| RuleMeaning.RecordingClosed | operator/internal/controller/rule_generator.go:65-101 | every name a derived rule reads is recorded in the group |
| RuleMeaning.SeriesEquation | operator/internal/controller/rule_generator.go:65-101 | after one pass each generated rule holds as an equation |
| RuleMeaning.EventMeaning | operator/internal/controller/rule_generator.go:66-89 | one evaluation gives request rate, error ratio errors/total and burn (errors/total)/(1 - objective/100) over each window |
| RuleMeaning.RawMeaning | operator/internal/controller/rule_generator.go:91-101 | one evaluation gives the raw ratio and its burn over each window |
| RuleMeaning.BurnMeaning | operator/internal/controller/rule_generator.go:165-178 | the burn series an item's alerts read holds the burn its SLI means |
| RuleMeaning.BurnIsQuotient | operator/internal/controller/rule_generator.go:51-55 | with traffic and objective below 100 that burn is the plain quotient of reals |
| RuleMeaning.FullObjectiveBurn | operator/api/v1/slo_webhook.go:61-63 | at the admitted objective 100 a burn exceeds any finite threshold iff the error ratio exceeds 0 |
| RuleMeaning.AlertReads | operator/internal/controller/rule_generator.go:123-147 | a Page or Ticket rule fires iff every series it reads exceeds the threshold, in any environment |
| RuleMeaning.TierMeaning | operator/internal/controller/rule_generator.go:118-147 | a Page or Ticket rule fires iff the burn the spec means exceeds the chosen or default threshold in every chosen or default window |
| RuleMeaning.AlertMeaning | operator/internal/controller/rule_generator.go:118-161 | every rule of the alert group fires iff the alert of the item and tier it was generated for is due |
| RuleMeaning.BudgetMeaning | operator/internal/controller/rule_generator.go:148-158 | the Budget rule fires iff the one-day burn exceeds 1 |
| RuleMeaning.AlertSeriesResolves | operator/api/v1/slo_webhook.go:87-91 | for any window, the series of an alert condition is generated iff an event item's window is recorded, or some raw item and recording window spell the same name (nothing checks windows at admission) |
| RuleMeaning.UnrecordedWindowSilences | operator/internal/controller/rule_generator.go:165-178 | an alert with a window that does not resolve in that sense never fires |
| RuleFields.RecordsSpelled | operator/internal/controller/rule_generator.go:59-116 | a name is recorded iff it is one of an item's series over 5m, 30m, 1h, 6h or 1d, or the P99 series of a resource with a raw query over `histogram_quantile` |
| RuleFields.AlertsNamed | operator/internal/controller/rule_generator.go:118-161 | an alert name is in the group iff some item has that tier given and not disabled, or is an event item and the name is `OrdersvcErrorBudgetExhausting` |
| RuleFields.ThresholdMeant | operator/internal/controller/rule_generator.go:118-147 | a Page or Ticket rule fires iff the burn exceeds the item's own `burnThreshold`, or 14.4 or 6 if it has none, in each of its own windows, or 5m and 1h or 30m and 6h if it has none |
| RuleFields.ThresholdsApart | operator/internal/controller/rule_generator.go:212-217 | rules of items that differ in the given threshold alone fire apart over some database iff the thresholds differ |
| RuleFields.HoldsFor | operator/internal/controller/rule_generator.go:125-141 | a condition must hold as long as given, else 2m for a page and 15m for a ticket |
| RuleFields.LabelSources | operator/internal/controller/rule_generator.go:181-189 | an alert's label is its origin's, else its tier's, else the item's, else the resource's, and there are no others |
| RuleFields.BudgetFields | operator/internal/controller/rule_generator.go:148-158 | the budget alert's name, its half hour, and its labels with severity `ticket` |
| RuleFields.AnnotationFields | operator/internal/controller/rule_generator.go:193-205 | runbook, dashboard and a summary of the tier's own |
| RuleFields.StatusNames | operator/internal/controller/rule_generator.go:234-247 | the status lists the names of all generated rules, one each, recordings first, in the order of the groups |
| RuleLimits.ForeignIsIndependent | operator/internal/controller/rule_generator.go:66-67 | a query in which the service's prefix does not occur reads no generated series |
| RuleLimits.SelfReadingExcluded | operator/internal/controller/rule_generator.go:66-67 | a query that selects a generated series by name, inside any call, fails the hypotheses |
| RuleLimits.UsualSpecsCompile | operator/internal/controller/rule_generator.go:59-101 | items that do not compete, with legal names and queries in which the service's prefix does not occur, meet the compiler's hypotheses |
| RuleLimits.RatioTextParsesExactly | operator/api/v1/slo_webhook.go:53-55 | the error-ratio text parses to a quotient iff the service is a legal metric prefix, which admission does not check |
| RuleLimits.HyphenatedService | operator/api/v1/slo_webhook.go:53-55 | an admitted resource with service `order-svc` whose ratio rule is not the intended quotient |
| RuleLimits.FixedTotalQuery | operator/api/v1/slo_webhook.go:76-79 | an admitted resource whose total query is the same for all windows |
| RuleLimits.PassForgetsThePast | operator/internal/controller/rule_generator.go:59-116 | a pass over an ordered group does not depend on what its own series held at earlier evaluations |
| RuleOwners.EventOwners | operator/internal/controller/rule_generator.go:71-86 | for any item list each event series holds the first sample an event item gives it; the ratio is the quotient of those, the burn that of the completing item |
| RuleOwners.BurnOwner | operator/internal/controller/rule_generator.go:79-88 | the shared burn is the ratio over the allowance of the first item by which both rates have a sample |
| RuleOwners.FirstItemOwns | operator/internal/controller/rule_generator.go:165-178 | if the first event item has both samples, the alerts of all event items read its burn |
| RuleOwners.CompetingAlertFires | operator/internal/controller/rule_generator.go:118-161 | for any item list, a Page, Ticket or Budget rule of an event item fires iff the burn that the event items share exceeds its threshold in each of its windows |
| RuleOwners.FirstItemDecides | operator/internal/controller/rule_generator.go:118-161 | if the first event item has samples in those windows, the rule fires iff that item's burn, not its own, exceeds its threshold |
| RuleOwners.RawOwners | operator/internal/controller/rule_generator.go:91-101 | for any item list raw items that sanitize alike share their two series, which hold what the first with a sample gives |
| RuleLimits.AliasedWindow | operator/internal/controller/rule_generator.go:91-99 | in an admitted resource the alert of raw item `lat` over `15m` reads the `5m` burn of item `lat1` |
| RuleLimits.RawAlertReadsOwn | operator/internal/controller/rule_generator.go:165-178 | an alert of a raw item reads the item's own burn over a window in every world iff the window is recorded, or a recorded burn of the same name renders to the same query with the same allowance |
| RuleLimits.TwinsHappen | operator/internal/controller/rule_generator.go:91-99 | the exception exists: an admitted resource whose items `lat` over `15m` and `lat1` over `5m` are the same burn |
| RuleLimits.ShippedCompiles | deploy/manifests/slo-cr-ordersvc.yaml:16-64 | the shipped resource meets every hypothesis of the compiler theorems |
| RuleLimits.ShippedPageMeaning | deploy/manifests/slo-cr-ordersvc.yaml:18-44 | its Page alert fires iff the burn exceeds 14.4 over both 5m and 1h |
| RuleFields.ShippedTicketMeaning | deploy/manifests/slo-cr-ordersvc.yaml:18-44 | its Ticket alert fires iff the burn exceeds 6 over both 30m and 6h |
| RuleFields.ShippedLatencyMeaning | deploy/manifests/slo-cr-ordersvc.yaml:45-64 | its latency alert fires iff the 5m burn exceeds its own threshold 0.01 |
| RuleFields.ShippedAlerts | deploy/manifests/slo-cr-ordersvc.yaml:16-64 | it raises exactly these four alerts |
| RuleFields.ShippedLabels | deploy/manifests/slo-cr-ordersvc.yaml:16-64 | they carry the severity of their tier and the item's name, although the latency item's labels give another `slo` |
| RuleFields.ShippedRecordsNoQuantile | deploy/manifests/slo-cr-ordersvc.yaml:45-56 | no P99 series is recorded for it |
| BurnBudget.WindowMean | operator/internal/controller/rule_generator.go:79-88 | the burn over a window is the request-weighted mean of the burns over any partition of it |
| BurnBudget.HotPart | operator/internal/controller/rule_generator.go:79-88 | a window hotter than a threshold has a part hotter than it, however it is cut |
| BurnBudget.MeasuredBurn | operator/internal/controller/rule_generator.go:66-88 | over counted requests the spec's burn exceeds a threshold iff there was traffic and it burned that hot |
| BurnBudget.FiringHasHotSlice | operator/internal/controller/rule_generator.go:118-178 | a firing Page or Ticket rule proves a slice above the threshold in each of its windows, and traffic in each |
| BurnBudget.ImpactExact | remediator/internal/triage/triage.go:199-206 | the reported impact is the hour's true share of the month's allowed errors iff the hour carries 1/720 of its requests; no data iff no errors |
| BurnBudget.SpentIsShare | remediator/internal/triage/triage.go:199-206 | with constant traffic the reported impacts sum to the errors made as a share of the month's allowance |
| BurnBudget.SteadySpending | remediator/internal/triage/triage.go:203-204 | with constant traffic n hours at burn b spend n*b/7.2 percent of the month |
| BurnBudget.DefaultThresholds | operator/internal/controller/windows.go:10-11 | 14.4 over one hour is 2 % of the month and 6 over six hours is 5 %, as equivalences |
| BurnBudget.PageMeansTwoPercent | operator/internal/controller/windows.go:10 | a firing default Page rule means that this hour spent more than 2 % of a month at its traffic |
| Reconciler.RuleMap | operator/internal/controller/slo_controller.go:189-204 | the map of one rule holds its expression and exactly its non-empty fields |
| Reconciler.RuleList | operator/internal/controller/slo_controller.go:186-208 | the nodes of all rules, in order |
| Reconciler.RuleRoundTrip | operator/internal/controller/slo_controller.go:186-208 | reading a rule's node gives back record, alert, expression, duration, labels and annotations |
| Reconciler.DocRoundTrip | operator/internal/controller/slo_controller.go:172-183 | reading the rule file gives back both groups, field by field |
| Reconciler.Controller.UpsertPrometheusRule | operator/internal/controller/slo_controller.go:112-138 | creates or replaces spec and labels, or reports failure and changes nothing |
| Reconciler.Controller.BuildRulesYaml | operator/internal/controller/slo_controller.go:172-183 | the document with the recording and the alert group |
| Reconciler.Controller.UpsertConfigMap | operator/internal/controller/slo_controller.go:142-169 | creates or replaces data and labels, or reports failure and changes nothing |
| Reconciler.Controller.Reconcile | operator/internal/controller/slo_controller.go:52-109 | a pass replaces each sink whole or leaves it, and saves the status unless that call fails |
| Reconciler.PassWrites | operator/internal/controller/slo_controller.go:112-169 | a pass writes a sink iff none of that sink's own calls fails, and touches no other resource's PrometheusRule |
| Reconciler.StatusIsLastSaved | operator/internal/controller/slo_controller.go:81-108 | a resource's status names its rules, their place and the time of its last pass that could save it |
| Reconciler.ReasonsFollow | operator/internal/controller/slo_controller.go:89-106 | every condition's reason is the one of its type |
| Reconciler.ConfigMapIsLastWrite | operator/internal/controller/slo_controller.go:142-169 | after any run the shared ConfigMap decodes to exactly the groups of the last resource whose write succeeded |
| Reconciler.ConfigMapUntouched | operator/internal/controller/slo_controller.go:142-169 | without a successful write the ConfigMap is what it was |
| Reconciler.PrometheusRuleIsLastWrite | operator/internal/controller/slo_controller.go:112-138 | each PrometheusRule carries the groups and labels of the last pass that wrote it |
| Reconciler.SinksAgree | operator/internal/controller/slo_controller.go:70-79 | after any run ConfigMap and PrometheusRule agree iff the last ConfigMap writer generated the same groups |
| Reconciler.RepeatChangesNothing | operator/internal/controller/slo_controller.go:52-109 | a fully successful pass leaves equal groups in both sinks, and repeating it, however it fails, changes neither |
| Reconciler.ConditionsAccumulate | operator/internal/controller/slo_controller.go:89-106 | condition types stay unique and True, and a type once present never goes away |
| Reconciler.ConditionsExactly | operator/internal/controller/slo_controller.go:89-107 | a condition type is present iff some pass of the resource with that outcome saved its status |
| BudgetPolicy.BudgetPolicy.Check | remediator/internal/remediate/budget_policy.go:68-94 | one tick is one step of the hysteresis machine; failed queries and patches change nothing, and NaN is neither high nor low |
| BudgetPolicy.Start | remediator/internal/remediate/budget_policy.go:43-56 | the ticker loop is the fold of its ticks |
| BudgetPolicy.TickDoes | remediator/internal/remediate/budget_policy.go:68-94 | an accepted patch freezes above 1 and thaws below 0.5, and nothing else changes the state |
| BudgetPolicy.BandHolds | remediator/internal/remediate/budget_policy.go:61-65 | no sample is both high and low; a tick leaves every state alone iff its patch or query fails or its burn is NaN or from 0.5 to 1 |
| BudgetPolicy.SteadyBurn | remediator/internal/remediate/budget_policy.go:68-94 | under a constant burn the Rollout is patched once, frozen, iff the burn is above 1 and some patch is accepted, and otherwise never |
| BudgetPolicy.PatchesAlternate | remediator/internal/remediate/budget_policy.go:79-93 | accepted patches strictly alternate freeze and unfreeze, and the memory is the last of them |
| BudgetPolicy.MemoryIsClusterFlag | remediator/internal/remediate/budget_policy.go:79-93 | memory and pause flag agree after every trace iff the Rollout was not paused at start-up |
| BudgetPolicy.RestartWhilePaused | remediator/internal/remediate/budget_policy.go:86-93 | over a paused Rollout a fresh controller never thaws before the burn has been high again |
| BudgetPolicy.MissingDataThaws | remediator/internal/prom/client.go:50-52 | an empty query result thaws a frozen Rollout |
| BudgetPolicy.ThawIsMeasured | remediator/internal/remediate/budget_policy.go:55-94 | an accepted thaw follows a measured burn below 0.5 iff that tick's reply was not empty |
| BudgetPolicy.PatchesAreZigzag | remediator/internal/remediate/budget_policy.go:68-94 | the accepted patches sit on a high, low, high, ... subsequence of the samples |
| BudgetPolicy.NoLongerZigzag | remediator/internal/remediate/budget_policy.go:68-94 | when every patch is accepted, no such subsequence is longer than the list of patches |
| BudgetPolicy.GreedyIsOptimal | remediator/internal/remediate/budget_policy.go:68-94 | the number of patches equals the longest alternating subsequence without failed patches and never exceeds it with them |
| BudgetPolicy.LongestExists | remediator/internal/remediate/budget_policy.go:68-94 | every trace has such a longest subsequence |
| Triage.EventId | remediator/internal/triage/triage.go:123-130 | an event ID has 16 characters |
| Triage.IdFollowsSource | remediator/internal/triage/triage.go:121-130 | the ID follows group key and first start time alone: a resolution, other labels or further alerts keep it |
| Triage.IdSeparates | remediator/internal/triage/triage.go:121-130 | two deliveries share their ID under every digest iff group key and start time spell one text |
| Triage.StartSeparates | remediator/internal/triage/triage.go:121-130 | within a group they do iff the start times are equal: a recurrence has an ID of its own |
| Triage.HotterIsNoLessUrgent | remediator/internal/triage/triage.go:182-196 | a hotter hour never lowers the tier; it changes it iff a ticket outside a drill crosses burn 6; P0 iff a page, P3 iff a drill or neither page nor ticket |
| Triage.Triage | remediator/internal/triage/triage.go:134-179 | a delivery creates one fresh event, inherits LLM result and creation time of the stored one and shares its list's array, and stores it; older objects keep their values |
| Remediate.FindRule | remediator/internal/remediate/rules.go:66-77 | the early-exit loop returns the first applicable row |
| Remediate.FirstIsBest | remediator/internal/remediate/rules.go:37-77 | with descending rows the match has the greatest applicable threshold, and None iff none applies |
| Remediate.MatchMonotone | remediator/internal/remediate/rules.go:66-77 | raising the burn never lowers the matched threshold |
| Remediate.ShippedPageBands | remediator/internal/remediate/rules.go:39-60 | the Page alert matches R-D1 from 50, R-B1 from 30, R-A1 from 14.4 and nothing below |
| Remediate.PageCoverage | remediator/internal/remediate/rules.go:39-60 | every burn above a threshold finds a rule iff the threshold is at least 14.4 |
| Remediate.KeyInjective | remediator/internal/remediate/cooldown.go:23-35 | with IDs of one length the concatenated key identifies event and rule |
| Remediate.Cooldown.InCooldown | remediator/internal/remediate/cooldown.go:20-29 | true iff the pair was marked less than the period ago |
| Remediate.Cooldown.Mark | remediator/internal/remediate/cooldown.go:32-36 | sets the pair's time and no other |
| Remediate.Engine.Evaluate | remediator/internal/remediate/rules.go:95-165 | the guards in order; log, cooldown and performed call are those of the verdict, and a stopped evaluation touches neither cooldown nor cluster |
| Remediate.Handler.ProcessEvent | remediator/internal/handler/handler.go:95-126 | an undisturbed goroutine appends one entry for a firing event and publishes its own object, and does nothing for a resolved one; the entry goes behind its list in the shared array if that has room, and else into a fresh one |
| Remediate.SkipTells | remediator/internal/remediate/rules.go:95-140 | an entry without action tells the first guard that failed, each in the event's own fields: drill, no applicable row, cooling down, no inference, confidence below 0.7 or no recommendation, dry run |
| Pipeline.SingleOwner | remediator/internal/handler/handler.go:84-126 | in every interleaving a step changes at most its own goroutine's fields, list header included, and never what triage fixed |
| Pipeline.Delivered | remediator/internal/triage/triage.go:134-179 | a delivery adds exactly one object, which inherits what the store knows of its ID, list header included |
| Pipeline.Provenance | remediator/internal/triage/triage.go:134-179 | in every run each event object still says what the delivery that made it said |
| Pipeline.IdsPersist | remediator/internal/triage/triage.go:115-119 | IDs never leave the store |
| Pipeline.RollbackSafety | remediator/internal/remediate/rules.go:95-165 | in every interleaving a performed call belongs to an unresolved, non-chaos event; a rollback's event has an LLM result that recommends it with a confidence of 0.7 or more, outside DryRun; scale targets are at most 20 |
| Pipeline.ShippedRollback | remediator/internal/remediate/rules.go:39-165 | with the shipped table a call is a rollback iff the event is the Page alert at burn 50 or more, so an unconfirmed one falls through to nothing |
| Pipeline.RollbackProvenance | remediator/internal/remediate/rules.go:39-165 | a rollback in any interleaving answers a delivered, unresolved, non-chaos Page alert sampled at burn 50 or more |
| PipelineEvidence.OwnAnswer | remediator/internal/handler/handler.go:111-114 | in every run the inference that a goroutine works with is the answer it received itself, a failed one included, and never a stored one |
| PipelineEvidence.NoLlmNoRollback | remediator/internal/handler/handler.go:111-114 | without an LLM client no run rolls back |
| PipelineEvidence.RollbackRests | remediator/internal/remediate/rules.go:122-140 | every rollback's own goroutine received, in this run, an answer that recommends it with a confidence of 0.7 or more |
| PipelineEvidence.OwnReply | remediator/internal/remediate/rules.go:145-164 | in every run an entry says executed or failed, with the message, exactly as the cluster replied to this goroutine |
| PipelineEvidence.ShippedCalls | remediator/internal/remediate/rules.go:39-165 | with the shipped table every call of every run is the one for its alert and burn: rollback from 50, 6 replicas from 30, fault reset from 14.4, 8 replicas for the P99 ticket |
| PipelineEvidence.ShippedResponse | remediator/internal/remediate/rules.go:95-165 | an undisturbed goroutine makes that call iff it is no drill, the row's period has passed for this event, and, for a rollback, its answer recommends it with a confidence of 0.7 or more outside DryRun |
| PipelineRecurrence.NewIncident | remediator/internal/triage/triage.go:121-177 | in every run a delivery with a source of its own opens a fresh event: created now, no inference, an empty list, nothing cooling down |
| PipelineRecurrence.RecurrenceHappens | remediator/internal/triage/triage.go:121-177 | a run in which a group fires, resolves and fires again: the resolution continues the first event, the recurrence has a later one of its own |
| Slices.Appends | remediator/internal/handler/handler.go:119 | after append the returned header shows the old entries and the new one |
| Slices.OthersSee | remediator/internal/handler/handler.go:119 | an append changes another list at most in the one cell behind its own length, and there iff the other list has the same array and reaches that far |
| PipelineLists.OwnList | remediator/internal/handler/handler.go:95-126 | in every interleaving a goroutine's own step leaves its list, and recording adds its entry at the end |
| PipelineLists.OtherLists | remediator/internal/handler/handler.go:117-120 | in every interleaving a step leaves other lists as they were, save that a recorded entry replaces the one in the cell shared with a longer list |
| PipelineLists.EntrySurvives | remediator/internal/handler/handler.go:117-120 | in every run a list ends with the entry of the last goroutine that appended to the same header with room; so an entry survives iff no other goroutine with that header records after it |
| PipelineLost.EntryLost | remediator/internal/triage/triage.go:167-173 | from the initial state, five deliveries of one page and the capacities 1, 2, 4: a run in which all goroutines have finished, the stored object is that of the one that acted, and its list shows no executed action |
| PipelineCooldown.CooldownSeparation | remediator/internal/remediate/rules.go:116-142 | in every interleaving marks of one pair are a period apart if the later check came after the earlier mark |
| PipelineCooldown.CooldownExact | remediator/internal/remediate/cooldown.go:20-29 | a check is refused iff this very pair was marked within the period |
| PipelineCooldown.MarkIffActing | remediator/internal/remediate/rules.go:115-164 | a goroutine has marked iff it acts or has acted, failures included; skips and dry runs never mark |
| PipelineCooldown.SerialSeparation | remediator/internal/remediate/rules.go:116-142 | in runs serial per event ID all marks of a pair are a period apart |
| PipelineAlone.OverlappingChecksActTogether | remediator/internal/remediate/rules.go:116-142 | from the initial state and with the shipped table, a run in which two goroutines mark one event and one rule at the same instant |
| PipelineAlone.ProcessesAlone | remediator/internal/handler/handler.go:95-126 | from any state, the own steps of a goroutine about to process its event, run alone, leave the event, list, cooldown map, calls and store that ProcessEvent computes; other objects keep their fields, and their lists up to the cell that the entry overwrites |
| PipelineAlone.TriagesAlone | remediator/internal/triage/triage.go:134-179 | a delivery and its own store step, with none in between, do what Triage does |
| PipelineHistory.SharedCreation | remediator/internal/triage/triage.go:167-176 | all objects of an ID share one creation time iff all deliveries that missed it in the store came at one time |
| PipelineHistory.AtomicSharesCreation | remediator/internal/triage/triage.go:167-177 | if a delivery is stored before the next of its ID arrives, all objects of an ID share the creation time |
| PipelineHistory.SerialHistory | remediator/internal/handler/handler.go:111-120 | in runs serial per ID the stored history is exactly the entries recorded for the ID, in order |
| PipelineOutcomes.RecordedOutcomes | remediator/internal/handler/handler.go:117-120 | in every interleaving the entries recorded for an ID are its goroutines' outcomes, one each |
| PipelineOutcomes.SerialOutcomes | remediator/internal/handler/handler.go:111-120 | in serial runs the stored list is those outcomes in delivery order |
| PipelineOutcomes.OneEntryPerFiring | remediator/internal/handler/handler.go:95-126 | once the ID's goroutines have finished there is exactly one entry per firing delivery, recorded and, in serial runs, stored |
| PipelineHistory.HistoryGrows | remediator/internal/handler/handler.go:117-120 | in serial runs the stored history is only ever extended |
| PipelineHistory.Outcomes | remediator/internal/handler/handler.go:95-126 | a goroutine ends without an outcome iff its delivery was a resolution |
| PipelineHistory.StatusIsLast | remediator/internal/triage/triage.go:149-178 | in serial runs the stored object of an ID is that of its last delivery |
| PipelineResolution.ResolutionStays | remediator/internal/handler/handler.go:95-126 | a stored resolution whose event is not delivered again stays stored until its goroutines have finished iff each other one was, when it was stored, finished or a stored resolution |
| PipelineHistory.LateUpsertOverwrites | remediator/internal/handler/handler.go:111-120 | without serial runs a late Upsert of a firing event replaces the resolved event that arrived meanwhile |
| PipelineHistory.RollbackHappens | remediator/internal/remediate/rules.go:123-156 | the guards do not rule everything out: with the shipped table a confirmed page at burn 50 leads to a rollback |
| Coverage.FiredPageFindsRule | remediator/internal/remediate/rules.go:39-77 | whenever the generated Page rule fires, the rule table has a rule for the recorded burn of the same evaluation, infinite burns included |
| Coverage.FreezesWithBudgetAlert | remediator/internal/remediate/budget_policy.go:61-94 | a thawed controller freezes on a sample iff the generated Budget alert fires on it |
| Coverage.LatencyRuleNeverMatches | deploy/manifests/slo-cr-ordersvc.yaml:57-64 | the alert the compiler generates for the shipped latency item is not R-C1's and matches no rule at any burn |
| Retrieval.CollectMatches | remediator/internal/llm/rag.go:56-71 | exactly the snippets with a positive count of contained keywords, in order, with that count |
| Retrieval.ScoreCounts | remediator/internal/llm/rag.go:57-67 | the score is the number of keywords, by position, that are not empty and occur in title or content |
| Retrieval.MatchesAre | remediator/internal/llm/rag.go:56-71 | the matches are the snippets with an occurring keyword, in order, with those numbers |
| Retrieval.PullBest | remediator/internal/llm/rag.go:74-78 | the inner loop brings a best remaining entry to its position and permutes the rest |
| Retrieval.ExchangeSort | remediator/internal/llm/rag.go:73-79 | the nested loops leave a permutation in non-increasing score order |
| Retrieval.Retrieve | remediator/internal/llm/rag.go:48-89 | the best min(K, matches) snippets, K at most 0 read as 2; the whole knowledge base if nothing matched |
| Retrieval.ScoreAtPosition | remediator/internal/llm/rag.go:72-83 | position i of a best selection scores at least t iff more than i matches do |
| Retrieval.TopScoresDetermined | remediator/internal/llm/rag.go:72-83 | whatever the order of ties, the scores of the best K are determined |
| Retrieval.NothingScored | remediator/internal/llm/rag.go:84-87 | the fallback is taken iff no snippet contains any non-empty keyword |
| DeepCopy.TierTells | operator/api/v1/zz_generated.deepcopy.go:114-139 | two tiers have equal contents iff they agree field by field, null apart from empty |
| DeepCopy.ItemTells | operator/api/v1/zz_generated.deepcopy.go:37-41 | so for items |
| DeepCopy.SLOTells | operator/api/v1/zz_generated.deepcopy.go:167-173 | so for whole resources, item by item |
| DeepCopy.Reach | operator/api/v1/zz_generated.deepcopy.go:167-173 | what an SLO reaches is every pointer, map and slice in it, down to the tiers of its items |
| DeepCopy.FrameSLO | operator/api/v1/zz_generated.deepcopy.go:167-173 | an SLO's contents and reach depend only on the objects it reaches: writes elsewhere do not show |
| DeepCopy.CopyLabels | operator/api/v1/zz_generated.deepcopy.go:14-19 | the key-by-key copy of a map: equal and fresh, nil for nil |
| DeepCopy.CopyTier | operator/api/v1/zz_generated.deepcopy.go:114-139 | equal tier whose labels, threshold and windows are fresh |
| DeepCopy.CopySLI | operator/api/v1/zz_generated.deepcopy.go:52-60 | equal SLI with fresh event and raw parts |
| DeepCopy.CopyAlerting | operator/api/v1/zz_generated.deepcopy.go:89-103 | equal alerting block with fresh labels and tiers |
| DeepCopy.CopyItem | operator/api/v1/zz_generated.deepcopy.go:37-41 | equal item, all reached objects fresh |
| DeepCopy.CopyItems | operator/api/v1/zz_generated.deepcopy.go:20-25 | a fresh slice of equal items, all reached objects fresh |
| DeepCopy.CopySpec | operator/api/v1/zz_generated.deepcopy.go:12-26 | equal spec, all reached objects fresh |
| DeepCopy.CopyStatus | operator/api/v1/zz_generated.deepcopy.go:141-156 | equal status with fresh slices and time |
| DeepCopy.CopySLO | operator/api/v1/zz_generated.deepcopy.go:167-182 | an equal SLO that shares no object with the original, which stays as it was |
| DeepCopy.CopyList | operator/api/v1/zz_generated.deepcopy.go:191-210 | equal items, all reached objects fresh, and no two copies share one |
| OrderAccounting.Handler.CreateOrder | app/internal/handler/handler.go:99-145 | status and counters of an undisturbed order: rejected, failed or created, in-flight gauge restored |
| OrderAccounting.Handler.SetFault | app/internal/handler/handler.go:149-163 | sets rate and latency with their gauges only for values in range |
| OrderAccounting.Handler.Instrument | app/internal/handler/handler.go:54-69 | the method does what the request's steps do without interruption, and counts it under the recorded status |
| OrderAccounting.OrderFate | app/internal/handler/handler.go:99-145 | which outcome an undisturbed order has, in terms of the two dice and the injected rate, and where it is counted |
| OrderAccounting.FaultTaken | app/internal/handler/handler.go:149-163 | rate and latency are taken iff from 0 to 1 and at least 0, ends included |
| OrderAccounting.ReadyTells | app/internal/handler/handler.go:88-96 | the readiness probe fails iff the rate exceeds 0.9 |
| OrderAccounting.StepsAreServed | app/internal/handler/handler.go:54-163 | a request's steps taken alone have the effect of the handler code |
| OrderAccounting.CountersAddUp | app/internal/handler/handler.go:54-145 | in every interleaving the gauge equals the requests between Inc and Dec, and every counter the requests it stands for |
| OrderAccounting.InFlightAndConservation | app/internal/handler/handler.go:118-143 | the gauge is never negative; created + failed + undecided = started |
| OrderAccounting.Reconciled | app/internal/handler/handler.go:99-145 | at quiescence the 201 count is created, the 500 count is failed plus buggy rejections, the 405 count is the non-POST requests, and every POST is in one of them |
| OrderAccounting.InjectionStaysValid | app/internal/handler/handler.go:149-163 | from valid values the rate stays in [0,1] and the latency non-negative |
| OrderAccounting.NoFaultAllFault | app/internal/handler/handler.go:131-137 | while the rate is 0 no order fails, and while it is 1 none is created |
| OrderAccounting.GaugeShowsRate | app/internal/handler/handler.go:152-153 | updates that do not overlap leave the gauge at the rate in force |
| OrderAccounting.OverlapMisleadsGauge | app/internal/handler/handler.go:152-153 | two overlapping updates end with the gauge at 0 while half of all orders fail |
| Reports.BucketSize | deploy/scripts/cost-metrics.py:30-56 | over any finite page sequence total and per-prefix sizes are those of the listed objects and sum to each other; a failure yields zero and no groups |
| Reports.ByTask | deploy/scripts/toil-report.py:36-41 | each task has its own rows' minutes and automatable minutes, these sum to the report's totals, and neither exceeds the other for non-negative durations |
| Reports.ConsecutiveBands | deploy/scripts/toil-report.py:64-66 | in the list by descending automatable minutes the priorities P0, P1, P2 are consecutive bands |

## Left out

- MemoryIsClusterFlag: nobody but the controller patches the Rollout, and a refused patch changes nothing.
- GaugeShowsRate: one way only; overlapping updates may also end with the right gauge, depending on the order of their writes.
- UnrecordedWindowSilences: assumes that no other source provides a series of that name.
- ValidateSLO: gives the set of problems, not their order or wording.
- EventId: SHA-256 is any function to 64 characters; two payloads may share an ID, and no result needs them not to.
- Triage: reads the existing event in one piece and the clock once, where the code reads three fields after one another and calls `time.Now` twice.
- ProcessEvent: append is one step; the code's read and write of the header and of the cell are not synchronised, so the Go memory model promises less.
- BuildMultiWindowBurnExpr: the empty window list, which the generator never passes, gives the empty text.
- RuleRoundTrip: covers the YAML tree; the byte encoding is the library's.
- Reconcile: the time of the last pass is a parameter; condition messages, transition times and owner references are the library's.
- CopySLO: type and object metadata are copied by the API library and stand as one value; a nil receiver returns nil and is not modelled.
- CopyStatus: a condition is a plain value, its own copy routine is the library's.
- CollectMatches: lower-casing is a parameter.
- CreateOrder: the sleep and the trace spans have no effect on the state; metrics are summed over the request method.
- BucketSize: a truncated page without a continuation token would restart the listing; the model takes the pages as they come.
- ConsecutiveBands: the sort by automatable minutes is the library's; the bands hold for any list in that order.
- Opaque: selecting series by a pattern on their name (`__name__`) is not followed; a query is taken to read only names it mentions.
- Rule evaluation has one series per name: label matching between vectors, staleness, `for` durations and rule-group intervals are Prometheus' own.
- `text/template` beyond the one placeholder, and its error cases (a failing template renders as the empty text in the code).
- Webhook request decoding, the 405 and 400 answers of the remediator, its metrics and its event list.
- LLM prompts and answers, Loki queries, postmortem drafts and runbook loading from disk.
- Controller set-up, leader election, signal handling, deployment scripts and manifests other than the shipped resource.
