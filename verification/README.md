# Proofs about the gateway's admission and accounting core

The repository is a proxy gateway for model providers. A request is
authenticated, run through routing rules, checked against its balance, limited
per user, given a provider and one of the provider's keys, limited per channel,
forwarded, and then billed, recorded and counted. Administrators top up
balances and edit the tables while requests are in flight, and every outcome
writes key health back and republishes the runtime snapshot.

This project models that core in Dafny and proves what it keeps, for all inputs,
all runs and all interleavings.

`dafny verify dfyconfig.toml` checks everything.

## How the model is laid out

| file | what it holds |
|---|---|
| `Clock`, `Limiter`, `RedisLimiter` | time and the names of minutes; the in-memory limiter as a class with buckets updated in place; the Redis script with its expiring counters; the refinement between the two |
| `Conditions`, `Rules`, `Seeding` | the printer of JavaScript conditions, a recursive-descent reader for them, the loop that applies rules, and the rules seeded from the configuration |
| `Selection`, `Sessions`, `SessionSchedules`, `Health` | provider and key selection with sticky sessions, its steps interleaved, and the schedules that keep a session; key errors and cooldowns |
| `Prices`, `Billing` | price resolution, balances, the ledger, charges |
| `Import`, `SnapshotView` | the import transaction and the ordered listings; building the snapshot |
| `Gateway` | the state machine: a database, a snapshot, counters and limiter windows shared by any number of request threads and reloads, one store, limiter or snapshot call a step |
| `GatewayAdmission`, `GatewayLedger`, `GatewayAccounting`, `GatewayCharges`, `GatewayHealth`, `GatewayReload`, `GatewayLimits`, `GatewayNames` | invariants of every reachable state of that machine |
| `GatewaySequential`, `GatewayProgress` | key health in runs whose outcomes follow one another; progress to a quiet state |
| `Handler` | the machine's steps for one request alone, their inputs given by what it meets from outside, and the end they lead to |
| `ByRows`, `Verdict`, `Settlement` | the same decisions, the same end and what it leaves behind, stated on the columns of the rows instead of the snapshot and the machine's own functions |
| `Store`, `Server` | the store and server objects, whose methods update their fields, each tied to the machine's step; `HandleProxy` takes the steps of `Handler` |
| `Tables`, `Sums`, `Sorting`, `Text`, `Base` | rows and snapshot values; sums, products and filters of sequences; insertion sort; text helpers |

The clock, random draws, the order in which the database answers ties, the
order of map iteration, the schedule multiplier, tenant status and the upstream's
reply are inputs: the theorems hold for all of them.

## Where the code does less than one might expect

Each of these is a theorem with the exact condition.

- A configured model prefix holding a BEL character does not survive the trip
  through JavaScript: `%q` prints it as `\a`, which JavaScript reads as the
  letter a. `FaithfulExactlyWithoutBel` shows that this is the only such case on
  seven-bit text.
- The price of a model depends on the order the database gives ties in exactly
  when `*` and the model's first character are both enabled prefixes, at
  different prices, and nothing longer applies
  (`OrderIrrelevantExactlyWithoutClash`).
- Of a rule's configured action only the denial reaches the rule engine: the
  action is stored under the field names of a struct without JSON names and read
  under others. Seeded rules force and scale nothing, so they do what the
  configuration says exactly when it names no provider and scales nothing
  (`ActionSurvivesExactly`, `ForcingSurvivesExactly`, `ScalingSurvivesExactly`).
- Importing an export restores the listing of the rules exactly when no row has a
  blank name, condition or action (`ImportOfExport`), and what the rule engine
  runs exactly when it ran no rule with a blank name or condition
  (`ImportKeepsEvaluation`).
- The Redis limiter gives the memory limiter's verdicts exactly as long as no
  script runs more than 5 s after its stamp (`RefinesExactlyWithinGrace`), and on
  two calls exactly when their minutes are in order (`PairsAgreeExactlyInOrder`).
- A key can be live before its rest is over, by less than a second, exactly when
  the rest does not end on a whole second (`RestIsCutShort`,
  `RestsInFullExactlyOnWholeSeconds`, `EarlyPick`).
- Up to twice a limit is let through in sixty seconds, and more than once the
  limit exactly in those that do not start on a minute boundary (`SpanBound`,
  `SpanBoundIsTight`, `OneLimitExactlyOnClockMinutes`).
- Two providers can be limited as one channel exactly when one name, with a colon
  after it, begins the other (`ProvidersShareAChannelExactly`).
- A scaled channel limit still limits exactly when the limit times the scale is at
  least one (`ScaledLimitIsPositiveExactly`); at zero the channel is unlimited.
- Racing requests of one session can be split between providers that would each
  have served them exactly when one selection decides between another's decision
  and the write of its binding (`KeptExactlyInTurn`, `RaceSplitsASession`).

## Model

| member | source | states |
|---|---|---|
| `Limiter.MinuteLimiter.Current` | internal/gateway/limiter.go:34-42 | the bucket used is the key's own unless its window began before the current minute, when an empty one replaces it; no other key's window changes |
| `Limiter.MinuteLimiter.Allow` | internal/gateway/limiter.go:29-54 | one call on the bucket objects, in place, gives the verdict and leaves the windows that `Admits` and `After` give on values; no two keys ever share a bucket |
| `Limiter.MinuteLimiter.Charge` | internal/gateway/limiter.go:44-53 | the call is let through exactly when it fits both limits, and only then is the key's own bucket counted up, in place |
| `Limiter.WindowIsLastMinute` | internal/gateway/limiter.go:34-42 | over any call sequence with non-decreasing stamps, a key's window begins with the minute of its last counted call |
| `Limiter.CountsSinceWindowBegan` | internal/gateway/limiter.go:44-52 | each bucket's counts equal the sum of the deltas admitted since its window began |
| `Limiter.AdmittedExactlyWithRoom` | internal/gateway/limiter.go:29-54 | after any ordered call sequence, a call is let through if and only if, for requests and for tokens, no limit is set or what its key was admitted for since the minute on its clock began, plus its own delta, is within the limit; calls without limits count for nothing |
| `Limiter.MinuteBound` | internal/gateway/limiter.go:34-53 | with every limit positive and at most `cap`, the total admitted for a key in any clock minute is at most `cap` (requests, and likewise tokens) |
| `Limiter.SpanBound` | internal/gateway/limiter.go:34-53 | the total admitted in any half-open span of sixty seconds is at most twice `cap` |
| `Limiter.SpanBoundIsTight` | internal/gateway/limiter.go:34-53 | for either meter, every span of sixty seconds that starts inside a minute, and every key and positive `cap`, some ordered call sequence gets twice `cap` into the span |
| `Limiter.OneLimitExactlyOnClockMinutes` | internal/gateway/limiter.go:34-53 | for every start and positive `cap`, no ordered, capped sequence gets more than `cap` into the sixty seconds from that start if and only if the start is on a minute boundary |
| `Clock.GregorianYears` | internal/gateway/redis_limiter.go:74 | the days before any year are those of the Gregorian calendar in closed form |
| `Clock.CivilOfRecovers` | internal/gateway/redis_limiter.go:74 | the civil date and time computed for a minute gives the minute back, over the whole calendar with leap years |
| `Clock.MinuteNameInjective` | internal/gateway/redis_limiter.go:74 | two different minutes never format to the same text |
| `RedisLimiter.RedisLimiter.RunScript` | internal/gateway/redis_limiter.go:36-62 | the script answers 1 exactly when both counters have room, changes nothing when it answers 0, and otherwise raises each counter with a positive delta and lets it live until 65 s from then |
| `RedisLimiter.RedisLimiter.Allow` | internal/gateway/redis_limiter.go:67-81 | one call gives the verdict and the counters of the specification, the counter names composed from prefix, key, minute and kind |
| `RedisLimiter.CounterNameInjective` | internal/gateway/redis_limiter.go:74-76 | a counter name determines the limiter key, the minute and the kind of counter, whatever characters the key holds |
| `RedisLimiter.NothingExpiresInUse` | internal/gateway/redis_limiter.go:51-58 | no counter expires while a call stamped with its minute can still run: the script reads the stored value, which is what memory holds |
| `RedisLimiter.SameVerdict` | internal/gateway/redis_limiter.go:42-49 | under the simulation relation both limiters give a call the same verdict |
| `RedisLimiter.StepAgrees` | internal/gateway/redis_limiter.go:36-62 | one call on both limiters keeps the simulation relation between all per-minute counters and the single live window per key |
| `RedisLimiter.RunAgrees` | internal/gateway/redis_limiter.go:36-81 | the relation holds after any orderly run, for every minute from the last stamp on |
| `RedisLimiter.RedisRefinesMemory` | internal/gateway/redis_limiter.go:36-81 | after any run with minutes in order, scripts at most 5 s late (the client waits 2 s) and non-negative deltas, the next call gets the same verdict from the Redis limiter and the memory limiter |
| `RedisLimiter.RedisAdmitsExactlyWithRoom` | internal/gateway/redis_limiter.go:36-81 | the same of the Redis limiter by its own verdicts, over any orderly run with stamps in order and scripts at most 5 s late |
| `RedisLimiter.RedisBounds` | internal/gateway/redis_limiter.go:36-81 | over any orderly run with stamps in order, the Redis limiter itself admits at most `cap` in a clock minute and twice that in sixty seconds |
| `RedisLimiter.RefinesExactlyWithinGrace` | internal/gateway/redis_limiter.go:69-77 | the refinement holds for every run with scripts at most `late` behind their stamps if and only if `late` is at most 5 s, by which the time to live exceeds a minute |
| `RedisLimiter.PairsAgreeExactlyInOrder` | internal/gateway/redis_limiter.go:74-77 | whatever two timely calls with stamps a and b ask for, both limiters give the second the same verdict if and only if the minute of a is not after the minute of b |
| `RedisLimiter.DisagreeOutOfOrder` | internal/gateway/redis_limiter.go:36-81 | for any two stamps whose minutes are out of order, two single requests on which the limiters disagree |
| `RedisLimiter.DisagreeWhenLate` | internal/gateway/redis_limiter.go:55-58 | a script one nanosecond later than 5 s after its stamp meets an expired counter and disagrees |
| `RedisLimiter.UserKeysAreNotChannelKeys` | internal/gateway/server.go:342-363 | a `user:` key and a `provider:` key are different and so are all their counters |
| `RedisLimiter.SharedStep` | internal/gateway/server.go:61-65 | a call of one sort leaves every counter of the other sort alone, and gets its own sort's verdict |
| `RedisLimiter.SharingIsHarmless` | internal/gateway/server.go:61-65 | with one Redis limiter for users and channels, every call gets the verdict it would get from a limiter that sees its own sort's calls alone |
| `Conditions.BuildConditionJS` | internal/store/store.go:416-432 | the appended parts are joined to the condition text the theorems below are about |
| `Conditions.JsonCharsRead` | internal/store/store.go:419-420 | a JSON-encoded string is read back by the ECMAScript string grammar as itself, escapes undone, whatever follows it |
| `Conditions.GoCharsRead` | internal/store/store.go:423 | a %q-quoted string is read back as itself with BEL turned into the letter a |
| `Conditions.JsonTailReads` | internal/store/store.go:419-420 | a list of keys of any length is read back as the same keys in the same order |
| `Conditions.ConditionTextParses` | internal/store/store.go:416-432 | every printed condition is exactly one expression of the grammar, with nothing left over, and it is the expected one |
| `Conditions.ConditionTextDecides` | internal/store/store.go:416-432 | a printed condition is never an evaluation error and decides exactly what the match with the read-back prefix decides |
| `Conditions.FaithfulExactlyWithoutBel` | internal/store/store.go:416-432 | the printed condition agrees with the configured match on every request if and only if the prefix holds no BEL character |
| `Rules.ApplyRules` | internal/gateway/server.go:623-648 | denied exactly when some enabled rule fires and denies; otherwise the provider is that of the last firing rule naming one and the multiplier is the start times every firing rule's positive multiplier |
| `Rules.OrderDoesNotMatter` | internal/gateway/server.go:625-646 | any reordering of the rules keeps the denial and the multiplier |
| `Store.Store.SeedRules` | internal/store/store.go:392-404 | the configuration's rules are inserted in its order with priorities from one, printed conditions and stored actions; a name already taken, in the table or the configuration, leaves the database as it was |
| `Seeding.ActionSurvivesExactly` | internal/store/store.go:393 | an action whose fields the JSON library reads back, stored under the field names of a struct without JSON names and read under the snapshot's, keeps its denial alone, so it survives if and only if it names no provider and has a zero multiplier |
| `Seeding.SeededSnapshot` | internal/store/store.go:392-404 | a snapshot of freshly seeded tables shows the configuration's rules in its order, with printed conditions and what is left of their actions |
| `Seeding.SeededRuleFiresExactly` | internal/store/store.go:394 | a seeded rule fires on exactly the requests its match names if and only if its prefix holds no BEL |
| `Seeding.SeededRulesDeny` | internal/store/store.go:392-404 | with prefixes free of BEL, seeded rules deny exactly the requests a denying match names |
| `Seeding.ForcingSurvivesExactly` | internal/store/store.go:392-404 | seeded rules force no provider on any request, so they force what the configuration does if and only if it names none |
| `Seeding.ScalingSurvivesExactly` | internal/store/store.go:392-404 | a seeded rule scales no request, so it scales what its configured rule does if and only if that rule's multiplier is not positive or is one |
| `Seeding.WholeScalingSurvivesExactly` | internal/store/store.go:392-404 | with no multiplier between zero and one, every request's whole multiplier is the configured one if and only if no rule has a multiplier above one |
| `Gateway.ForcedIsLastNamed` | internal/gateway/server.go:639-641 | the provider the loop returns is the one the state machine forces |
| `Selection.SupportsModel` | internal/gateway/types.go:107-117 | an empty list supports every model, otherwise membership |
| `Selection.HasLiveKey` | internal/gateway/server.go:707-714 | true exactly when some key is enabled and strictly past its cooldown |
| `Selection.PickProviderKey` | internal/gateway/server.go:716-727 | an error exactly when no key is live, otherwise the live key at the clock reading modulo their number |
| `Selection.TotalWeight` | internal/gateway/types.go:123-130 | the total of the weights, each non-positive one counted as one |
| `Selection.WalkTo` | internal/gateway/types.go:135-146 | a draw below the total ends at the item whose stretch it falls in, and only a draw past the total reaches the trailing fallback |
| `Selection.WeightedProviderPick` | internal/gateway/types.go:119-147 | the provider whose stretch of [0, total) the random draw falls in, so neither fallback is reached |
| `Selection.DrawsAreExact` | internal/gateway/types.go:119-147 | a provider listed n times is returned for exactly n times its row's weight, one if that is not positive, of the draws below the total, which is the sum of the same over the list |
| `Selection.DrawIgnoresOrder` | internal/gateway/types.go:119-147 | the total and each provider's number of draws are the same under every permutation of the candidates |
| `Selection.Selector.Candidates` | internal/gateway/server.go:682-690 | the map loop lists exactly the qualifying providers, each once |
| `Selection.Selector.SelectProviderAndKey` | internal/gateway/server.go:650-705 | forced, sticky and drawn selections as one relation between snapshot, bindings, outcome and new bindings |
| `Selection.SelectionSoundAndComplete` | internal/gateway/server.go:650-727 | a returned pair is an enabled provider supporting the model with a live key of its own; an unforced selection fails exactly when no provider qualifies, a forced one exactly when the forced provider does not |
| `Selection.BindingNamesLastProvider` | internal/gateway/server.go:666-704 | over any sequential run, a session's binding names the provider of its last successful unforced selection, forced ones in between notwithstanding |
| `Selection.ProviderChangesOnlyWhenUnavailable` | internal/gateway/server.go:666-704 | between two successes a session changes provider only if the bound one does not qualify at that request |
| `Selection.ForcedRunKeepsBindings` | internal/gateway/server.go:654-664 | a stretch of forced selections of any length changes no session's binding |
| `Prices.ResolveModelPriceMicros` | internal/store/store.go:994-1005 | the loop returns the price of the first applicable row of the query's answer, else the fallback |
| `Prices.PriceIsLongestMatch` | internal/store/store.go:994-1005 | for every answer the query may give, the price is that of an enabled row whose prefix is `*` or begins the model, with no longer such prefix enabled, and the fallback when there is no such row |
| `Prices.OrderIrrelevantExactlyWithoutClash` | internal/store/store.go:994-1005 | with unique prefixes, every admissible order prices the model alike if and only if `*` and the model's first character are not both enabled, deciding prefixes at different prices |
| `Billing.TopupConserves` | internal/store/store.go:601-616 | every existing key keeps its balance minus its ledger sum, and a positive top-up lowers no balance |
| `Billing.DeductConserves` | internal/store/store.go:618-637 | every existing key keeps its balance minus its ledger sum, and no balance goes below zero |
| `Billing.ChargeCoversEstimate` | internal/gateway/server.go:322-384 | the charge for max(estimate, reported) tokens is at least the estimated cost at the same price |
| `Billing.RoundingIsBounded` | internal/gateway/server.go:379-384 | over any run at one price, truncation never overcharges and loses less than one micro per request |
| `Import.InsertRulesContents` | internal/store/store.go:802-822 | a successful import holds the non-blank payload rows in payload order with ids counting up |
| `Import.NormalisedIsComplete` | internal/store/store.go:802-812 | the rows kept of a payload are those without a blank name, condition or action, each as it is but for a priority of 100 in place of one that is not positive |
| `Import.InsertSchedulesContents` | internal/store/store.go:826-850 | the schedules stored are the payload's that name a group, in its order with ids counting up, their empty columns filled with every day, the whole day and a multiplier of one |
| `Import.ImportReplacesBoth` | internal/store/store.go:796-854 | a successful import replaces both tables by such rows with fresh ids and touches no other table |
| `Import.InsertRulesSucceeds` | internal/store/store.go:802-822 | the insertions succeed exactly when the non-blank rows have distinct names |
| `Import.StableSortUnique` | internal/store/store.go:652-656 | the stable sort by priority is one sequence only |
| `Import.ListingIsStable` | internal/store/store.go:652-656 | listing by priority then id is the stable sort of a table whose ids ascend |
| `Import.ImportSemantics` | internal/store/store.go:796-854 | a name collision leaves the whole database alone; otherwise the listing is the stable sort by priority of the non-blank rows, non-positive priorities set to 100, and the table keeps its shape |
| `Import.ImportOfExport` | internal/store/store.go:766-854 | importing an export always succeeds, and restores the listing of the rules up to ids if and only if no row has a blank part |
| `SnapshotView.ImportKeepsEvaluation` | internal/store/store.go:766-854 | importing an export leaves the rule engine the sequence it ran, up to ids, if and only if it ran no rule with a blank name or condition |
| `Sorting.SortSorts` | internal/store/store.go:652-656 | the listing is in order for any total, transitive order |
| `Sorting.SortKeepsGroup` | internal/store/store.go:652-656 | rows the order does not distinguish from their neighbours keep their places, so sorting is stable |
| `SnapshotView.GroupKeys` | internal/gateway/server.go:159-162 | the grouping loop gives every provider name its own rows in listing order |
| `SnapshotView.BuildProviders` | internal/gateway/server.go:171-208 | the provider map of the snapshot is the view of the provider and key rows |
| `SnapshotView.BuildGatewayKeys` | internal/gateway/server.go:210-224 | the key map of the snapshot is the view of the API-key rows |
| `SnapshotView.BuildRules` | internal/gateway/server.go:226-243 | the rule loop keeps the enabled, decodable rows in listing order |
| `SnapshotView.BuildSnapshot` | internal/gateway/server.go:159-255 | the snapshot built from five listings is their view |
| `SnapshotView.ViewShowsOwnKeys` | internal/gateway/server.go:159-206 | each provider has its own key rows, each once, in id order |
| `SnapshotView.ViewShowsRulesInOrder` | internal/gateway/server.go:226-243 | the view's rules are exactly the enabled, decodable rows, strictly in (priority, id) order |
| `SnapshotView.ViewShowsSchedules` | internal/gateway/server.go:245-250 | the published schedules are the rows, each group's in id order |
| `ByRows.KeyByRows` | internal/gateway/server.go:457-476 | over the published tables, authentication lets a request on if and only if its tenant is enabled, its token has an enabled row, and that row's list is empty or holds the model; the account then carries the row's columns |
| `ByRows.RulesByRows` | internal/gateway/server.go:623-648 | over the published tables, the rule step turns a request away if and only if some enabled, decodable row whose condition holds denies it; otherwise it forces the provider of the last such row naming one in (priority, id) order, and scales by the product of their positive multipliers |
| `ByRows.SelectionByRows` | internal/gateway/server.go:650-727 | over the published tables, a selection succeeds if and only if some provider's row, the forced one's if there is one, is enabled and lists the model or nothing, and some key row of its name is enabled and past its cooldown; what is returned are the columns of two such rows, the recover interval at least one second |
| `ByRows.StickinessByRows` | internal/gateway/server.go:666-704 | over the published tables, an unforced selection returns the provider the session is bound to while its rows can serve the model, and otherwise a weighted draw over those whose rows can, which alone binds the session |
| `ByRows.KeyPickByRows` | internal/gateway/server.go:716-727 | the key picked is found by counting through the provider's usable key rows in id order |
| `ByRows.CallsByRows` | internal/gateway/server.go:342-365 | the calls the two limiters get name the row's key or channel, one request and the estimate, and carry the row's request and token limits, a channel's scaled and rounded down |
| `GatewayNames.EveryStateNamed` | internal/gateway/server.go:193-205 | in every reachable state of any interleaving, providers are published under their own names, which stickiness relies on, and the tables keep theirs |
| `Health.RestIsCutShort` | internal/gateway/server.go:734-743 | truncation to Unix seconds shortens a rest by less than one second and never lengthens it |
| `Health.RestsInFullExactlyOnWholeSeconds` | internal/gateway/server.go:734-743 | a key is never live before its rest is over if and only if the rest ends on a whole second |
| `Health.EarlyPick` | internal/gateway/server.go:734-743 | a rest of one second begun 999 ms past any whole second is over after 2 ms |
| `GatewaySequential.EveryStateCurrent` | internal/gateway/server.go:729-743 | the inductive invariant: while attempts with a key come in turn and no reload straddles an outcome, its rows, the listings being read, the copies in flight and the snapshot hold the fold of its outcomes so far |
| `GatewaySequential.StoredRowCountsFailures` | internal/gateway/server.go:729-743 | in every state of such a run, the stored row's error count is the failures since the last success modulo the threshold, and its cooldown is set exactly when that number is a positive multiple of the threshold, to the whole Unix seconds of the last failure plus the longer of the provider's recover interval and the configured cooldown |
| `GatewaySequential.LiveAgainAfterRest` | internal/gateway/server.go:707-743 | in such a run, such a key is live by its stored row as soon as both the recover interval and the configured cooldown have passed since its last failure, and a key short of the threshold has no cooldown |
| `GatewaySequential.PickMeetsOutcomes` | internal/gateway/server.go:707-727 | in such a run the key a request is given is live by the outcomes written so far |
| `GatewaySequential.NotPickedWhileResting` | internal/gateway/server.go:707-743 | in such a run a key whose failures have reached a multiple of the threshold is not picked until more than the recover interval and more than the configured cooldown, each less one second, have passed since the last of them |
| `GatewaySequential.OneAtATimeIsOrderly` | internal/gateway/server.go:292-405 | a gateway that serves one request at a time makes such a run for every key |
| `Gateway.StepMoves` | internal/gateway/server.go:292-405 | every step of a request follows the control flow of the handler, and each amount it carries is set in one place only |
| `Gateway.SelectionIsOffered` | internal/gateway/server.go:650-705 | every pair the selection can return is one the state machine offers |
| `GatewayLedger.BalanceIsOpeningPlusLedger` | internal/store/store.go:601-637 | in every reachable state of any interleaving, a key whose row is not replaced or deleted has a non-negative balance equal to its opening balance plus its ledger rows |
| `GatewayLedger.ChargeCoversCheck` | internal/gateway/server.go:326-390 | in every reachable state under a fixed price table, what is charged for a request is at least the cost its balance was checked against |
| `GatewayAccounting.StepMovesUsage` | internal/gateway/server.go:391-400 | the usage table grows by a request's row exactly at the step where the request becomes recorded |
| `GatewayAccounting.StepMovesDebits` | internal/gateway/server.go:384-389 | a debit row appears exactly at the step where the request notes a successful deduction |
| `GatewayAccounting.EveryStateAccounted` | internal/gateway/server.go:342-404 | the inductive invariant: each counter, the usage table, the ledger debits and each key's tokens are sums over the requests |
| `GatewayAccounting.AdmissionsAreAccountedFor` | internal/gateway/server.go:363-404 | in every reachable state, channel admissions are proxy_ok plus proxy_error plus the requests between the channel limiter and their final counter |
| `GatewayAccounting.QuietBooksBalance` | internal/gateway/server.go:379-404 | once every request has finished: usage rows equal proxy_ok, usage debits <= billing_charged <= proxy_ok, and a key's recorded tokens are at least what its served requests presented to the limiters |
| `GatewayCharges.EveryRequestCharged` | internal/gateway/server.go:379-400 | the inductive invariant of a request's charge: none before it is settled, then settled and not yet taken, then taken or refused |
| `GatewayCharges.ChargedMeansDebitedOrRefused` | internal/gateway/server.go:379-404 | in every interleaving, a request past its debit was charged for the larger of its estimate and the reported tokens at a price the table gave; a positive charge met a debit step, which took it from the balance with one ledger row when the balance covered it and changed nothing otherwise; without a positive charge nothing was taken |
| `GatewayProgress.StepIsNearer` | internal/gateway/server.go:292-405 | whatever its inputs, a step leaves its request as it is or brings it nearer its end |
| `GatewayProgress.NobodyIsStuck` | internal/gateway/server.go:292-405 | in every reachable state, every unfinished request has a step that brings it nearer its end |
| `GatewayProgress.QuietIsAlwaysAhead` | internal/gateway/server.go:292-405 | every reachable state can be run to one in which every request has finished |
| `GatewayAccounting.TakenIsPaid` | internal/gateway/server.go:384-389 | in every reachable state, what the ledger has taken from a key since the start is the sum of the charges of its requests whose deduction succeeded, each charged at most once |
| `GatewayAdmission.StepGoesThrough` | internal/gateway/server.go:292-371 | a step of a request goes through the gate it stands at, is turned away, or stays between the same gates; what earlier gates asked about does not change |
| `GatewayAdmission.EveryRequestVetted` | internal/gateway/server.go:292-371 | the inductive invariant: in every reachable state every request has passed the gates that lie behind it, in order |
| `GatewayAdmission.ForwardedPassedEveryGate` | internal/gateway/server.go:298-404 | in every interleaving, a request at the upstream or anywhere past it had its key, tenant and model accepted, was denied by no rule, had its cost covered by the live balance, was admitted by both limiters and was given a qualifying provider with a live key, in this order, each against the state of that moment |
| `GatewayHealth.EveryStateHealthy` | internal/gateway/server.go:729-743 | the inductive invariant over the stored rows, the published snapshot and every copy in flight |
| `GatewayHealth.StoredHealthStaysSound` | internal/gateway/server.go:729-743 | in every reachable state from fresh rows, every stored row has 0 <= errors < threshold, and no errors beside a cooldown |
| `GatewayReload.ReloadStaysTrue` | internal/gateway/server.go:137-157 | while nothing is written, a reload under way has read what the tables hold |
| `GatewayReload.LastReloadPublishesView` | internal/gateway/server.go:137-256 | when the last publication comes from a reload that began after the last write, the snapshot is the view of the tables, whatever else ran in between |
| `GatewayLimits.WindowsOfRun` | internal/gateway/server.go:342-367 | for either limiter, its windows after any interleaving are those of its calls in order, limited or not |
| `GatewayLimits.PassesExactlyWithRoom` | internal/gateway/server.go:342-367 | in every interleaving with clock readings in order, either limiter lets a request through if and only if what its clock minute has admitted leaves room for its call |
| `GatewayLimits.PassedIsAdmitted` | internal/gateway/server.go:342-367 | under a key whose calls are all limited, the amount of the requests that pass either limiter is what the limiter admits of its calls |
| `GatewayLimits.UserRateHolds` | internal/gateway/server.go:342-345 | end to end over any interleaving with clock readings in order, what passes the limiter for an API key whose limits are positive and at most `cap` is at most `cap` in a clock minute and twice that in sixty seconds |
| `GatewayLimits.ChannelRateHolds` | internal/gateway/server.go:353-367 | the same for a channel whose scaled limits are positive and at most `cap` |
| `GatewayLimits.ScaledLimitIsPositiveExactly` | internal/gateway/server.go:354-361 | a scaled channel limit is positive if and only if the limit times the scale is at least one |
| `GatewayLimits.ProvidersShareAChannelExactly` | internal/gateway/server.go:362 | some aliases that are not blank give two providers one channel key if and only if one of the names, with a colon after it, begins the other with a colon after it |
| `Sessions.UndisturbedSelects` | internal/gateway/server.go:650-705 | the steps of a selection, snapshot read, binding read and binding write, with nothing in between are the one step of `SelectProviderAndKey` |
| `Sessions.EveryStateConsistent` | internal/gateway/server.go:650-705 | the inductive invariant over any interleaving of those steps: every answer is sound and complete by the snapshot it looked at, and every binding was returned |
| `Sessions.BindingWasReturned` | internal/gateway/server.go:666-704 | in every reachable state a session's binding names a provider that an unforced selection of that session returned, one that qualified for it |
| `Sessions.LeavesOnlyUnavailable` | internal/gateway/server.go:666-680 | in every interleaving, a selection returns a provider other than the one it read its session bound to only when that one does not qualify |
| `SessionSchedules.KeptInTurn` | internal/gateway/server.go:650-705 | in every run in which no selection of a session decides between another's decision and its write, the binding names the last provider decided on whenever nothing is left to write, and a decision leaves that provider only when it does not qualify |
| `SessionSchedules.KeptExactlyInTurn` | internal/gateway/server.go:650-705 | for any well-formed order of the steps of any selections, every run in that order keeps the session with its provider if and only if none of its selections decides between another's decision and its write |
| `SessionSchedules.RaceSplitsASession` | internal/gateway/server.go:666-704 | whenever one selection of a session decides between another's decision and its write, some run in that order splits the session between two providers that would each have served it |
| `Store.Store.TopupAPIKeyBalance` | internal/store/store.go:601-616 | the amount is added to the row's balance and a ledger row of that amount appended, even for an unknown key, with a blank reason read as `topup`; an amount of zero changes nothing |
| `Store.Store.DeductAPIKeyBalance` | internal/store/store.go:618-637 | refused exactly when the balance does not cover a positive amount; otherwise the amount leaves the balance and one ledger row of its negative is appended |
| `Store.Store.AddUsage` | internal/store/store.go:741-743 | one usage row is appended and nothing else changes |
| `Store.Store.UpdateProviderKeyHealth` | internal/store/store.go:534-540 | the three health columns of the row of that id, and no other row or column, are written |
| `Store.Store.CreateRules` | internal/store/store.go:801-822 | the insertion loop stops at the first refused name, otherwise it leaves the specified rows and id counter |
| `Store.Store.CreateSchedules` | internal/store/store.go:826-850 | the insertion loop leaves the named schedules with their defaults filled in |
| `Store.Store.ReplaceRulesAndSchedules` | internal/store/store.go:796-854 | the transaction replaces both tables or leaves the whole database as it was |
| `Server.Server.constructor` | internal/gateway/server.go:45-80 | a new server has counted nothing and has published the view of its tables |
| `Server.Server.IncStat` | internal/gateway/server.go:877-881 | one counter goes up by one and no other changes |
| `Server.Server.ReloadSnapshot` | internal/gateway/server.go:137-256 | with no write in between, the published snapshot is the view of the tables |
| `Server.Server.MarkProviderKeySuccess` | internal/gateway/server.go:729-732 | the row's health is cleared and the view of the result is published |
| `Server.Server.MarkProviderKeyFailure` | internal/gateway/server.go:734-743 | the row gets what the caller's copy of the error count, the threshold and the rests determine, with the error text, and the view of the result is published |
| `Server.Server.Authenticate` | internal/gateway/server.go:457-476 | unknown or disabled keys, disabled tenants and models outside the allowed list are rejected; otherwise the account and its multiplier are taken |
| `Server.Server.RunRules` | internal/gateway/server.go:315-325 | the rule verdict, the forced provider, the multiplier and the estimate of at least one token |
| `Server.Server.EstimateCost` | internal/gateway/server.go:326-329 | the cost to check, at the resolved price |
| `Server.Server.CheckLiveBalance` | internal/gateway/server.go:330-338 | the request goes on exactly when the live balance covers the cost |
| `Server.Server.LimitUser` | internal/gateway/server.go:342-345 | the user limiter's verdict decides, and its windows change as one call |
| `Server.Server.ChooseProvider` | internal/gateway/server.go:347-351 | the selection's outcome is a choice the state machine allows, for every draw |
| `Server.Server.LimitChannel` | internal/gateway/server.go:353-367 | the scaled limits, never negative, go to the channel limiter, whose verdict decides |
| `Server.Server.SettleCharge` | internal/gateway/server.go:379-383 | the charge for max(estimate, total) tokens, at the price resolved again |
| `Server.Server.DebitAccount` | internal/gateway/server.go:384-389 | the deduction, noted if it succeeded, and the reload after it either way |
| `Server.Server.RecordUsage` | internal/gateway/server.go:391-400 | one usage row with the billed tokens |
| `Server.Server.HandleProxy` | internal/gateway/server.go:292-405 | served undisturbed, what the handler does to store, snapshot, limiters, counters and bindings is the machine's steps by one thread with every input the given world's, the selection's choice included; it ends as the gates and the reply decide, by the rows over freshly published tables, and leaves behind what that end should leave |
| `Handler.WorldDecides` | internal/gateway/server.go:292-405 | of any such steps: the end is rejected exactly when the key, the rules, the balance, the user limiter, the lack of a qualifying provider or the channel limiter refuses, by the state the request arrived in; otherwise the reply decides |
| `Verdict.VerdictByRows` | internal/gateway/server.go:292-405 | of any such steps over freshly published tables, on the rows' own columns: rejected if and only if the tenant or the key's row is disabled, the row does not allow the model, a rule row denies, the row's balance is below a positive cost of the estimate, the user limiter refuses the row's call, no provider's rows can serve the model, or the channel limiter refuses the call of the rows taken; the estimate and the pair are the rows' |
| `Settlement.StepSettling` | internal/gateway/server.go:372-404 | each call past the channel limiter leaves the tables, the snapshot and the counters as the next one should find them |
| `Settlement.EndSettles` | internal/gateway/server.go:372-404 | a rejected request leaves tables, snapshot and counters alone; a failed one writes the key's health and counts an error; a served one clears the key's health and, with t the larger of its estimate and the reported total and c = t * price / 1,000,000 rounded down, takes a positive c from a balance that covers it with one ledger row of -c, and otherwise leaves balances and ledger alone; it appends one usage row of t tokens, counts itself and its charge, and the snapshot published is the view of the tables |
| `Handler.AloneIsARun` | internal/gateway/server.go:292-405 | such steps extend any state to a run of the whole machine, so the theorems over all interleavings apply to the handler |
| `Handler.LeadsThroughReload` | internal/gateway/server.go:137-256 | the machine's five table reads and publication, taken without a pause, are the handler's reload |

## Left out

- HTTP serving, header copying, forwarding, metrics, logs, the admin pages and handlers, YAML loading, database drivers and migration: plumbing. An upstream reply is an arbitrary failure with an error text or an arbitrary token total.
- Anthropic and Gemini conversion, `maybeRewriteModel`, `extractUsage`, `estimateTokens`, `readAndParseRequest`: the request arrives with its token, model, path and body-token count.
- `scheduleMultiplier`, `parseHHMM`, `parseWeekdayMask`: the multiplier of a channel's limits is an arbitrary real at each request, and schedules are published as their rows.
- The JavaScript engine in general: an arbitrary function from condition and context to yes, no or error, except for the texts the printer emits, which the reader of `Conditions` runs.
- Text beyond seven bits in conditions: `json.Marshal` and `%q` then escape by Unicode category, and JavaScript counts in UTF-16 units.
- JSON columns are kept decoded; a rule's action is decoded by an arbitrary partial function, and for seeded rules by the names of the fields of any JSON object text. The printing and parsing of that text are the library's, of which only reading back the configured actions is asked; `StrokesReadBack` shows that some library does for any configuration. Of seeding, only the rules are modelled.
- Machine integers are unbounded, and multipliers are exact reals with floor where the code multiplies floating-point numbers and truncates.
- Creating rows with `enabled` false: the column's default of true leaves that to the database library.
- Import.ImportSemantics: asks for enabled payload rows, because a disabled one is stored as the database library's zero-value handling decides.
- Import.ImportOfExport: asks for enabled rows, for the same reason.
- SnapshotView.ImportKeepsEvaluation: asks for enabled rows, for the same reason, and for a decoder that refuses text without anything in it, as JSON does.
- Seeding.WholeScalingSurvivesExactly: is for configurations without a multiplier between zero and one, which can cancel others on every request, as `CancellingMultipliers` shows; rule by rule, `ScalingSurvivesExactly` has no such condition.
- Redis errors (the call is then refused) and the difference between the gateway's and the server's clocks: the script runs at an instant not before the stamp and at most `late` after it, and a counter is gone from the instant its time to live is up.
- RedisLimiter.RedisRefinesMemory: is about non-negative deltas; the handler asks for one request and at least one token, and nothing is claimed of a call that gives something back.
- The state machine uses the memory limiters, which the Redis limiter refines; a run over Redis is covered through that refinement only.
- The sticky map in the state machine of `Gateway`: a step of selection there may return any qualifying pair, or none; which one is returned, and what the bindings are, is the subject of `Selection` and, interleaved, of `Sessions` and `SessionSchedules`. The time of a binding is not kept.
- Authentication reads the snapshot and the tenant's status in one step, and the balance check is one step.
- Store errors other than an insufficient balance; a failed reload keeps the old snapshot in the code, and does not occur here.
- GatewayLedger.BalanceIsOpeningPlusLedger: excludes replacing or deleting the key's own row, which overwrites the balance without a ledger row, and keys that do not exist, for which a top-up writes a ledger row and no balance.
- GatewayLedger.ChargeCoversCheck: is for a price table that stands still and prices the model one way; nothing is claimed of runs that change the price between check and charge.
- GatewayHealth.StoredHealthStaysSound: does not claim that a cooldown survives an outcome written from a stale copy.
- GatewayReload.LastReloadPublishesView: assumes that no write falls between the reload's beginning and the end of the run; nothing is claimed of what a reload publishes when a write falls among its reads.
- GatewaySequential.StoredRowCountsFailures: asks that attempts with the key come in turn, that no reload has read the key table and not yet published when an outcome of the key is written, and that ids are not used again; nothing is claimed of the count when outcomes are written from stale copies, beyond `StoredHealthStaysSound`.
- Server.Server.HandleProxy: is about one request served alone; interleavings are the state machine's, whose steps are the same calls. It asks for rows stored under their own names, which `GatewayNames` shows to be kept, and for price answers the query may give.
- Verdict.VerdictByRows: asks that the snapshot is that of the tables as the request arrives; between a write and its publication the gates decide by the older snapshot, as `WorldDecides` says.
- Administrative upserts are single writes of a whole row: fields an update leaves alone on particular paths, other than key health, are not modelled. Tenants, admin users, audit rows and the prompt and completion parts of a usage row are not kept.
- The unreachable branch for a total weight of zero or less in the weighted draw: the total is proved positive before the draw.
