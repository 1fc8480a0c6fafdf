# Delta: a verified model

This project models Delta, an incremental-computation engine with a policy gate and a money-safety protocol
around it, in Dafny, and proves what the engine, the gate, the handoff service, the ACP adapter, the spend ledger
and the scoped store guarantee.

`dafny verify dfyconfig.toml` checks everything.

## Layout

| file | models |
|---|---|
| Options.dfy | optional values, Python's order on strings |
| Json.dfy, JsonText.dfy | `normalize_json`, `canonical_json`, and a parser that undoes it |
| Types.dfy, HandoffTypes.dfy | Delta's records |
| Topology.dfy | `topological_order` |
| Core.dfy, InputLaws.dfy, RequestLaws.dfy | references, workflow and input validation, input resolution, signatures, matching; what an effective input holds; what a request becomes |
| Store.dfy, Isolation.dfy | the shared client, the scoped store, project isolation |
| Planning.dfy | `build_revision_plan` |
| Engine.dfy, EngineLaws.dfy, RunMeaning.dfy | `DeltaEngine`, what every run keeps track of, and what each of its decisions rests on and leaves |
| CacheLaws.dfy, HistoryLaws.dfy | the cache against evaluation from scratch: one run; whole histories of engine runs, service runs, deletions and resets |
| ReuseLaws.dfy | execution against preview; what a second run reuses |
| Mutex.dfy, Concurrent.dfy | interleaved threads inside `execute`: single steps; whole calls |
| Gate.dfy, GateLaws.dfy, GateMeaning.dfy | `HandoffGate`, its totality and closure, and what it hands over in terms of stored records and policies |
| GateInfluence.dfy, GateNotices.dfy | what can influence the gate: time, policies, records, rejected outputs |
| Service.dfy, ServiceLaws.dfy, ServiceMeaning.dfy | `AgentHandoffService.run`: gate, engine and receipt together, and what they leave in the store |
| Reconcile.dfy | `match_reconciliation_candidates` |
| Spend.dfy | `validate_spend_approval`, `ACPSpendLedger` |
| Acp.dfy | the operations of `ACPAdapter` |
| AcpProtocol.dfy | threads inside the adapter, interleaved between any two store accesses |
| AcpInvariant.dfy, AcpLaws.dfy, AcpExact.dfy, AcpFinal.dfy | what a disciplined schedule keeps, and why no habit can be given up |
| AcpOutcome.dfy | what each answer, observation and finalization comes to |
| AcpSpend.dfy | money over all schedules |

Code that changes state step by step is written as classes and loops (`DeltaEngine`, `SibylStore`, `HandoffGate`,
`AgentHandoffService`, `ACPAdapter`, `ACPSpendLedger`) and proved to compute a specification function on the
client's state; the laws are lemmas about those functions, and the thread models use the same functions.

What those functions come to is stated a second time without them, by the fields of requests, stored records, policies,
answers and evidence: in InputLaws, RequestLaws, RunMeaning, GateMeaning, ServiceMeaning and AcpOutcome, and in the
contracts of the planner, the matcher, the ledger and the deletion.

## Conventions

- SHA-256 is taken to be injective, so a signature, key, plan id, handoff id or receipt id is represented by what it
  digests. Where the code orders digests, the model takes any total order (`Gate.DigestOrder`).
- An executor is a partial function of implementation id and effective input; a run names the steps whose call
  raises although the function has a value.
- Time is an integer, money an integer number of the smallest unit.
- Attempt ids are fresh where a law says so; the source draws them at random.
- An exception is `None` or `false`; nothing is claimed about its text.

## Where the code does less than one might expect

- `_decide` alone would reuse a step whose external job was not evaluated (`GateLaws.DecideReusesExactly`); inside the
  gate this never happens (`GateLaws.ReusedExactlyWhenApproved`).
- The engine that runs after the gate does not consult it: a step that the gate blocks although its record is valid
  is reused all the same (`ServiceLaws.EngineReusesExactlyTheValid`).
- Two signatures on one step let two executor calls run at once (`Mutex.ExclusiveExactlyWithOneSignature`).
- At most one ACP command per step in flight is not guaranteed by the adapter on its own. `_mark_attempt` and
  `_persist_reconciliation` write the attempt and the head apart and without the action lock, `reconcile_attempt` acts
  on an answer that may be stale, `record_observation` has no status check, and `finalize_completed_work` clears the
  head also when the head names another attempt. `AcpProtocol.Discipline` lists seven habits: four on the schedule
  (nobody else is active on a step between the two writes of a mark, during an observation, or during a
  finalization; a finalization begins only while the head names its attempt), three on the operations (observations
  through the head, one signature per step, owned attempt ids). Together they are enough on every schedule of store
  accesses, and giving up any one of them is not (`AcpExact.SafeExactlyUnderFullDiscipline`).
- An ambiguous attempt never learns its job identity, so `reconcile_attempt` cannot resolve it and its step is stuck
  (`AcpLaws.AmbiguityIsFinal`); without any one of the habits it need not be (`AcpFinal.AmbiguityIsFinalExactly`).
- Issuing each (attempt, action) pair once does not bound what is sent by the cap: `create_job` reserves under the
  bare attempt id, the other actions under `attempt:action`, and the two can coincide
  (`Spend.CapBoundsWhatIsSentExactly`).
- The output of a rejected record can change the reported reason of its step: the records are ranked by completion
  time and then by the digest of their outputs. It never does exactly when, at every step that falls back to its
  latest record, all records with the greatest completion time are reported alike
  (`GateNotices.NoticesIgnoreOutputsExactly`).
- The ledger key joins tenant, project and plan id by colons, so keys of hand-made plans of two projects can coincide
  (`Spend.KeysCoincideExactly`); the ledger then refuses (`Spend.CollidingPlansNeverMix`). For plans that the planner
  made they never do (`Spend.PlannedKeysIdentify`).
- A paid operation for a plan of another project reserves its amount before the store refuses the intent
  (`Acp.ACPAdapter.Perform`).

## Model

| member | source | states |
|---|---|---|
| JsonText.ParseInvertsPrint | delta/core.py:77-86 | parsing the canonical text of a JSON value gives the value back: strings with escapes, integers, lists, objects with sorted keys |
| JsonText.EscapesOnlyWhatMust | delta/core.py:80-86 | only quotes, backslashes and control characters are escaped, with the short escape where there is one, else with four lower-case hexadecimal digits |
| JsonText.CanonicalTextIdentifiesValue | delta/core.py:45-86 | two Python values have the same canonical text exactly when they normalize to the same JSON value, objects compared without key order, or are both rejected |
| JsonText.PrintInjective | delta/core.py:77-92 | different JSON values have different canonical texts, which is what hashing relies on |
| JsonText.NormalizeIsIdempotent | delta/core.py:45-74 | a normalized value, handed in again as Python data, normalizes to itself |
| RequestLaws.NormalizesExactly | delta/core.py:45-74 | a Python value whose dicts have distinct keys normalizes to a JSON value exactly when that value stands for it: the same constants, numbers and texts, dates as ISO texts, lists and dicts member by member, nothing opaque and no key that is not a text |
| Ordering.SortedKeys | delta/core.py:80-86 | the keys of an object, each once, in ascending order of code points |
| Ordering.StringLeMeans | delta/core.py:80-86 | the order on keys: a prefix comes first, else the smaller code point at the first difference |
| Topology.CollectReady | delta/core.py:445-445 | the comprehension: exactly the remaining ids without remaining dependencies, in declaration order |
| Topology.TopologicalOrder | delta/core.py:434-450 | the loop computes the rounds of ready ids, or stops when nothing is ready; the remaining set shrinks |
| Topology.TopologicalOrderIsLayered | delta/core.py:434-450 | for unique ids and known dependencies the order exists exactly when the graph has no cycle; it is a permutation sorted by longest dependency chain, ties by declaration |
| Topology.LayeredOrderIsUnique | delta/core.py:434-450 | only one order is layered in this way, so the result is determined |
| Topology.LayeredPutsDependenciesFirst | delta/core.py:434-450 | every dependency comes before its dependents |
| Core.ExtractDependencies | delta/core.py:387-407 | each referenced step once, in the order of first uses; exactly the output references of the binding tree |
| Core.FirstUsesAreTheReferences | delta/core.py:398-407 | the list of first uses holds exactly the referenced steps, without repetition, and before the first use of each only earlier ones are used |
| Core.ValidWorkflowMeaning | delta/core.py:410-431 | validation succeeds exactly on non-empty workflows with unique ids whose steps refer to declared inputs and to other steps of the workflow only, without a dependency cycle |
| Core.OrderIsPermutation | delta/core.py:434-450 | the order of a valid workflow lists each of its step ids once, dependencies first |
| Core.OrderedIsSequenced | delta/core.py:434-450 | processing follows the order: every step once, its dependencies before it |
| Core.OrderedHasAllSteps | delta/core.py:434-450 | exactly the steps of the workflow are processed |
| Core.Normalized | delta/core.py:453-484 | validated inputs keep exactly the supplied names, and each value is the normalization of the supplied one and has its declared kind |
| RequestLaws.InputsAcceptedExactly | delta/core.py:453-484 | inputs are accepted exactly when every supplied one is declared and handed in as its kind demands, and no required one is missing |
| RequestLaws.QueryIsTheRequest | delta/core.py:713-726 | what is planned and run is the request: its project, workflow and time, for each supplied name the JSON that stands for the value, and its steps, each once, dependencies first |
| Core.StepInputNeedsRefs | delta/core.py:487-509 | the input of a step is known exactly when every declared reference has a value |
| Core.StepInputReadsRefs | delta/core.py:487-509 | the input depends on nothing but the declared references |
| InputLaws.StepInputIsWhatIsBound | delta/core.py:487-509 | the effective input is the one value that at every place of the binding tree holds the literal itself, the supplied input, the other step's output, a list of the bound length or an object of exactly the bound names |
| InputLaws.EqualInputsReadAlike | delta/core.py:487-509 | and it gives its references away: known and equal under two environments, it was made from equal supplied values and equal outputs |
| Core.StepInputMonotone | delta/core.py:487-509 | more outputs never change an input that is already known |
| Core.SignatureIdentifiesInput | delta/core.py:512-529 | equal input signatures mean equal tenant, project, workflow, version, step, implementation and effective input |
| Core.OutputSignatureIdentifiesOutput | delta/core.py:532-533 | equal output signatures mean equal outputs |
| Store.SharedClient.constructor | delta/store.py:210-238 | a fresh client holds nothing |
| Store.SibylStore.Save | delta/store.py:257-307 | a record of the store's scope is put under the key of its identity, a foreign one is refused and nothing changes |
| Store.SibylStore.SetActiveAttempt | delta/store.py:452-462 | only the head of this scope and step changes |
| Store.SibylStore.ListWorkRecords | delta/store.py:349-400 | the scan returns each result of the scope and workflow exactly once, in any order, and reports the steps of undecodable records |
| Store.SibylStore.DeleteScopeRecords | delta/store.py:718-758 | exactly the selected records of the scope are gone, and the count is their number; by the records' own fields, other workflows, other steps and other projects stay |
| Store.DeletionRemoves | delta/store.py:747-755 | a record is removed exactly when its own project is this one, its own workflow is among the given ones, if any are given, and its own step likewise; the rest and all heads stay as they were |
| Store.SibylStore.ResetActiveHeads | delta/store.py:760-764 | exactly the heads of the given steps are cleared |
| Isolation.KeysIdentify | delta/store.py:189-192 | a key text names one kind, one scope and one set of parts, so no two projects share a key |
| Isolation.ForeignCallsAreInvisible | delta/store.py:257-259 | no operation of a store of another scope changes what this scope sees |
| Isolation.OwnCallsActAlike | delta/store.py:282-307 | a store's own operation does the same to two clients it cannot tell apart |
| Isolation.SameDoomed | delta/store.py:718-758 | a scoped deletion picks the same records in two clients that look alike to the scope, so it reports the same count |
| Isolation.ViewsAreIsolated | delta/store.py:402-471 | after any interleaving of stores of different scopes, the records and heads of a scope are those of the run with the other stores' operations removed |
| Isolation.ProjectsAreIsolated | delta/store.py:309-400 | so every read agrees: results, attempts, plans, handoff records, receipts, sessions, runs, heads, listings, reports of damage |
| Isolation.ReadsReturnTheLastSave | delta/store.py:282-341 | a read finds a record exactly when it was saved under that key by a store of its own scope, or was there from the start, and no later call replaced or deleted it |
| Isolation.HeadsReturnTheLastWrite | delta/store.py:452-471 | reading a head gives what the last call of its scope that set or reset it wrote, whatever other stores did |
| Planning.SearchFirst | delta/core.py:743-750 | the scan finds the first result that matches the step and signature |
| Planning.BuildRevisionPlan | delta/core.py:713-796 | raises exactly on invalid requests; else plans each step in order: PENDING exactly when a dependency is not itself REUSE or a bound input was not supplied, else REUSE exactly when one of the given results was made for this project, workflow, step, implementation and signature, has not expired and has its artifact, else RERUN -- with input, signature, reason and cost |
| Planning.PreviewIsForetold | delta/core.py:727-773 | step by step, whatever results are given, in whatever order: the decisions are those that waiting and the fields of the results call for, and what a reused step passes on is the output of a result that fits |
| Planning.FirstMatchFinds | delta/core.py:590-606 | what the scan finds matches and nothing before it does; when it finds nothing, nothing matches |
| Planning.ListingAgreesWithLookup | delta/core.py:743-750 | scanning any listing of the store finds what a keyed lookup finds |
| Planning.PreviewIgnoresListingOrder | delta/execute.py:85-93 | the preview does not depend on the order in which the store lists its records |
| Planning.ForeignResultsAreIgnored | delta/core.py:743-750 | a listing of another project's results gives the preview of an empty one, without any REUSE |
| Planning.PlanIdsIdentify | delta/core.py:775-791 | equal plan ids name the same project, workflow, version and inputs, and step by step the same decision on the same input digest |
| Engine.DeltaEngine.Preview | delta/execute.py:85-93 | of every accepted request: a step is PENDING exactly when a dependency is not itself REUSE or a bound input was not supplied, else REUSE exactly when the store keeps a result of this project, workflow, step, implementation and signature that has not expired and has its artifact, else RERUN; for a request of another project that of an empty store |
| Engine.DeltaEngine.StartAttempt | delta/execute.py:342-373 | ownership is taken exactly when no active attempt asks for the same signature; then attempt and head are persisted |
| Engine.DeltaEngine.EndAttempt | delta/execute.py:219-281 | the outcome is persisted and the head released |
| Engine.DeltaEngine.Attempted | delta/execute.py:187-303 | the executor is called under ownership; its result or failure is persisted with its attempt |
| Engine.DeltaEngine.Turn | delta/execute.py:116-303 | one turn of the loop: what it decides, outputs, attempts and writes is what the specification of the step says, and it raises exactly when the step's record does not decode |
| Engine.DeltaEngine.Execute | delta/execute.py:95-312 | validates, saves the preview, runs the loop; it raises exactly when a request is invalid or foreign or a step reads a record that does not decode, and then what the earlier steps wrote stays; otherwise the new store and the report are those of the run's specification, whose inputs and decisions are characterized by InputLaws.StepInputIsWhatIsBound and RunMeaning.DecisionsAreDue |
| Engine.DeltaEngine.Loop | delta/execute.py:116-303 | the loop with its mutable outputs, failures, blocks, decisions and attempts computes the run step by step |
| EngineLaws.StepTouchesOwnKeys | delta/execute.py:116-303 | a step writes only its own attempt, its own results and its own head |
| EngineLaws.StepAdvances | delta/execute.py:116-303 | a step ends as an output, a failure or a block, and reports one decision |
| EngineLaws.StepsAreAccountedFor | delta/execute.py:116-303 | processed steps are always partitioned into outputs, failed and blocked, with decisions in order |
| EngineLaws.EarlierStepsStand | delta/execute.py:116-303 | later steps never change earlier outputs and decisions |
| EngineLaws.WaitingIsExplained | delta/execute.py:119-135 | DEPENDENCY_FAILED is reported exactly when a direct dependency ended without an output, DEPENDENCY_OUTPUT_UNKNOWN exactly when all have one and a bound input was not supplied |
| EngineLaws.OutputNeedsDependencies | delta/execute.py:116-153 | a step with an output had all its dependencies and inputs |
| EngineLaws.NothingDownstreamOfAMissingOutput | delta/execute.py:119-135 | a step downstream of one without an output never gets one |
| EngineLaws.AttemptsEnd | delta/execute.py:187-281 | every started attempt is persisted as succeeded or failed, as its decision says, with the step's head cleared |
| EngineLaws.AttemptsComeFromSteps | delta/execute.py:187-303 | every reported attempt was made by a step the run executed |
| EngineLaws.RunsTouchOwnSteps | delta/execute.py:95-312 | a whole run changes nothing but its plan and the attempts, results and heads of its own steps: every other record and head, of any project, is as it was |
| RunMeaning.DecisionsAreDue | delta/execute.py:116-303 | every decision of a run, on the store as the step finds it: without an input, waiting or blocked by a dependency; REUSE exactly when the store of the request keeps a result for the run's own input that fits and is not expired; BLOCKED while the head names an attempt for the same signature that is not over, or without an executor; else success or failure as the executor answers -- and what it leaves: output, record, attempt and head |
| RunMeaning.ExecutedWorkIsKept | delta/execute.py:225-281 | after the run the store keeps, under the input's signature, the record of every executed step: its output, time, expiry, attempt and the source that the principal and the declaration call for |
| CacheLaws.RunsKeepGood | delta/execute.py:116-303 | every run with fresh attempt ids keeps the store invariant: each record holds its implementation's output on the input its signature names, names a persisted succeeded attempt, and no attempt stays open |
| CacheLaws.ReusedOutputIsComputed | delta/core.py:590-606 | a matching record holds the executor's answer on the run's own input |
| CacheLaws.OutputsAgreeWithScratch | delta/execute.py:116-153 | every output of a run is the output of evaluating the step and its ancestors from scratch |
| CacheLaws.NothingIsMissedWithoutFailures | delta/execute.py:116-254 | when every step has an executor and none fails, the run outputs all of the evaluation from scratch |
| CacheLaws.RunsComputeScratch | delta/execute.py:95-312 | a run from a store whose records are sound raises nowhere, leaves it so, outputs only what evaluation from scratch gives, and all of it when nothing fails, whatever its attempt ids |
| HistoryLaws.HistoriesExist | delta/execute.py:95-312 | every sequence of engine runs, service runs, deletions and resets has its history of clients |
| HistoryLaws.FollowingIsServed | delta/agents/__init__.py:353-440 | a service run of a history ends in a client and an answer as the service's contract says |
| HistoryLaws.FollowingIsWhatItSays | delta/store.py:718-764 | the other events: a deletion removes exactly the selected records, a reset clears exactly the given heads, an engine run ends as its contract says, and a request that gets nowhere changes nothing |
| HistoryLaws.HistoryIsClean | delta/store.py:718-764 | after any such sequence from an empty client, deletions and resets included, every record is sound and decodes and no attempt is open |
| HistoryLaws.HistoryIsGood | delta/execute.py:95-312 | as long as nothing is deleted and attempt ids are fresh, every record also names a persisted succeeded attempt |
| HistoryLaws.CacheIsCorrect | delta/execute.py:95-312 | in any such history no run raises, and every output of every run, reused or executed, gated or not, is what evaluation from scratch gives |
| ReuseLaws.LookupAtRequest | delta/execute.py:137-153 | while a run is at a step, the records of that step are as they were when the run was requested |
| ReuseLaws.ExecutionRefinesPreview | delta/execute.py:85-153 | on the same store, time and request: what the preview reuses the run reuses, with the same output; what it would rerun is never reused; only waiting steps can resolve either way |
| ReuseLaws.RunServes | delta/execute.py:202-254 | after a run every step with an output has a record for its final input |
| ReuseLaws.EqualInputIsReused | delta/execute.py:137-153 | a step whose resolved bindings come out as before, and whose record is still fresh, is reused with the first run's output, also below steps that ran again |
| ReuseLaws.SelectiveRerun | delta/execute.py:116-153 | after a complete run, a second run whose inputs differ only on a set reuses every step no dependency path from the set reaches |
| ReuseLaws.ChangedBindingIsNotServed | delta/execute.py:136-153 | the other half: a step that binds an input or a dependency's output that is not the same in the second run asks for another signature, and what it reuses, if anything, was in the store before the first run |
| ReuseLaws.DecisionsTell | delta/execute.py:116-303 | every decision of a run names the input that the run's outputs give the step and that input's signature |
| ReuseLaws.PreviewReusesUnreached | delta/execute.py:85-93 | after a complete run whose records are still fresh, the preview of a request whose inputs changed reuses every step that no dependency path from the changed inputs reaches |
| ReuseLaws.UnchangedRequestIsPreviewedAsReuse | delta/execute.py:85-93 | in particular the preview of the unchanged request is REUSE at every step |
| ReuseLaws.CostAddsUp | delta/execute.py:391-405 | the reported cost is known exactly when that of every step that ran is, and each of these adds its amount |
| ReuseLaws.UnchangedRequestReusesEverything | delta/execute.py:390-394 | repeating a request reuses everything, starts no attempt and reports cost 0 |
| Mutex.MutualExclusion | delta/execute.py:330-373 | when the threads of a step ask for one signature: in every interleaving at most one executor call per step is in flight, and the head names exactly its active attempt |
| Mutex.OnlyTheOwnerReleases | delta/execute.py:200-281 | only the owner of a step clears its head |
| Mutex.TwoSignaturesRunTogether | delta/execute.py:330-340 | two threads asking for different signatures on one step run their executors at the same time |
| Mutex.ExclusiveExactlyWithOneSignature | delta/execute.py:330-373 | mutual exclusion holds in every reachable state exactly when the threads of each step ask for one signature |
| Mutex.AloneIsExecuteStep | delta/execute.py:137-303 | an undisturbed thread leaves the client as the sequential engine does |
| Concurrent.ConcurrentOutputsAreScratch | delta/execute.py:95-312 | in every interleaving of whole calls, every output of every call is what evaluation from scratch gives |
| Concurrent.ConcurrentCallsAreExclusive | delta/execute.py:330-373 | in every interleaving of whole calls that agree on the signatures of shared steps, at most one executor call per step is in flight, and the head names exactly its active attempt |
| Concurrent.OneRequestIsNeverExecutedTwiceAtOnce | delta/execute.py:342-373 | however often one request is made at once, at whatever times and with whatever failures, no step of it is executed twice at the same time |
| Concurrent.AloneIsComplete | delta/execute.py:95-312 | an undisturbed call does what the engine's run does: the same store, outputs, failures, blocks, decisions and attempts |
| Gate.LoadCandidates | delta/handoff.py:937-945 | the loop indexes the listing by step and signature, the later completed first |
| GateMeaning.IndexKeepsTheLast | delta/handoff.py:937-945 | of several results under one step and signature the one completed last is kept, of those completed at that time the one with the largest output signature, in whatever order they come |
| Gate.ListingIsIndexed | delta/handoff.py:937-945 | indexing any listing of the store gives the same index: the order of the listing does not matter |
| Gate.IndexFinds | delta/handoff.py:886-890 | a lookup in the index is a keyed lookup in the store |
| Gate.UniqueKeysIndex | delta/handoff.py:937-945 | on uniquely keyed results the index holds exactly the results |
| Gate.AheadTotal | delta/handoff.py:1534-1541 | completion time, output signature and key order rank the records of a step totally |
| Gate.LatestForStep | delta/handoff.py:1009-1020 | the scan in key order finds the record that leads this ranking |
| Gate.BuildApprovedContext | delta/handoff.py:1418-1459 | the loop sorts candidates into items and notices, stopping at the first guard that fires |
| Gate.Counts | delta/handoff.py:723-727 | the counts of the four decisions add up to the number of entries |
| Gate.CountsAreExact | delta/handoff.py:723-736 | each count is how often its kind of decision occurs among the entries |
| Gate.HandoffGate.EvaluateStep | delta/handoff.py:876-906 | one candidate per step, unless a guard of its construction fires |
| Gate.HandoffGate.Evaluate | delta/handoff.py:865-927 | one candidate per step with the inherited outputs carried forward, then record, context and receipt; raises exactly when a guard fires; what it hands over is characterized by GateMeaning.GateHandsOverExactly |
| GateLaws.DecideReusesExactly | delta/handoff.py:1351-1414 | the decision is REUSE exactly when the five verdicts approve, or when the job is unevaluated and the other four approve |
| GateLaws.ApprovedExactly | delta/handoff.py:876-906 | a candidate is approved exactly when its input is known and the record stored under its own signature passes all five verdicts; it waits exactly when its input is unknown |
| GateMeaning.ApprovesExactly | delta/handoff.py:1166-1350 | five favourable verdicts are exactly: the record is for this project, workflow, step, implementation and input, not expired, its artifact there; its output is the one signed and its source known; the policy for its category names both projects and lets the recipient, its provider and this exposure pass; and an external job, if any, is settled |
| GateMeaning.FoundIsRuled | delta/handoff.py:1351-1416 | the reason of a decision on a found record is the first fault: of its external job, then of its validity, then of its trust, then of the policy, each in the order of the checks |
| GateMeaning.DecisionsAreRuled | delta/handoff.py:1081-1160 | every decision of an evaluation: waiting without an input; ruled by the record under the input's signature, else by the step's latest record as a mismatch, else by an undecodable record, else without work -- with verdicts, evidence, signature and cost |
| GateMeaning.HandedOverExactly | delta/handoff.py:1418-1516 | the approved context holds exactly the steps whose stored record, under the signature of the input that the handed-over outputs give the step, may cross by its own fields, the policies and the recipient; each item is that record's output, source and artifact; every other step has a notice with its ruling; record and receipt say the same and count it |
| GateMeaning.GateHandsOverExactly | delta/handoff.py:865-927 | so it is for every accepted request on whatever the store keeps |
| GateMeaning.EvaluatedExactly | delta/handoff.py:65-69 | on stored work whose sources are named, the gate raises exactly when the workflow's id, its version or a step's id is empty or has blanks at an end |
| GateLaws.ReusedExactlyWhenApproved | delta/handoff.py:278-288 | in every evaluation a step is REUSE exactly when all five verdicts approve, and exactly then its output is inherited |
| GateLaws.PendingExactlyWhen | delta/handoff.py:876-888 | a step is PENDING_DEPENDENCY exactly when a direct dependency is not approved or a bound input was not supplied |
| GateLaws.ApprovedWorkIsClosed | delta/handoff.py:876-906 | every transitive dependency of an approved step is approved |
| GateLaws.FoundIsGuarded | delta/handoff.py:381-396 | no guard of verdicts, decision or candidate fires on a found record, whatever its verdicts |
| GateLaws.GuardsNeverFire | delta/handoff.py:232-446 | no constructor guard fires during the whole sweep |
| GateLaws.ItemsAndNoticesPartition | delta/handoff.py:1418-1459 | approved items and excluded notices partition the steps, each in topological order, and the items carry the inherited outputs |
| GateLaws.EvaluationIsTotal | delta/handoff.py:532-553 | no guard of items, notices, context, record or receipt fires either: the evaluation finishes |
| GateLaws.AcceptedRequestsAreEvaluated | delta/handoff.py:865-927 | every accepted request is evaluated, whatever the store holds, undecodable records included |
| GateInfluence.ApprovalIsMonotone | delta/handoff.py:1166-1315 | approvals with their outputs only shrink as time grows, and only grow when records are added under new keys or policies allow more agents, providers or exposures |
| GateInfluence.RejectedOutputsDoNotInterfere | delta/handoff.py:876-906 | replacing the outputs of records the gate does not approve changes neither the approved items nor the inherited outputs |
| GateNotices.NoticesIgnoreOutputsExactly | delta/handoff.py:1418-1459 | nor the excluded-work notices, for any replacement of rejected outputs, exactly when at every step that falls back to its latest record all records with the greatest completion time are reported alike |
| GateNotices.DisagreementShows | delta/handoff.py:1534-1541 | where two of those records are reported differently, some replacement of rejected outputs puts the other one first and shows |
| GateNotices.RejectedOutputsDoNotChangeNotices | delta/handoff.py:1418-1459 | in particular the notices stay when no two results of one step tie on completion time |
| GateNotices.TiedOutputsChangeNotices | delta/handoff.py:1534-1541 | whatever the order of digests, a concrete store with two tied records and one that differs in rejected outputs only, with different notices |
| Service.AgentHandoffService.SaveSources | delta/agents/__init__.py:371-382 | one session is saved for each candidate that names its source |
| Service.AgentHandoffService.SaveHandoff | delta/agents/__init__.py:364-382 | the gate's record, the recipient's session and the sources' sessions are saved before it |
| Service.AgentHandoffService.FinalizeEntries | delta/agents/__init__.py:388-412 | every receipt entry is finalized from the run's decisions and attempts |
| Service.AgentHandoffService.Settle | delta/agents/__init__.py:388-440 | the final receipt and the agent's run are saved after the engine's run, and answered |
| Service.AgentHandoffService.Run | delta/agents/__init__.py:353-440 | the store and the answer after gate and engine, as a function of the store before; it raises exactly when the gate does not finish or the engine reads a record that does not decode |
| Service.HandoffKeepsStore | delta/agents/__init__.py:367-382 | saving the handoff record and sessions touches no work record, attempt or head |
| ServiceMeaning.HandoffIsSaved | delta/agents/__init__.py:364-382 | before the engine runs the store holds the gate's record, a session of the recipient and one of every source of found work -- where ids coincide, a source's -- and is otherwise as it was |
| ServiceMeaning.ExecutedWorkIsTheRecipients | delta/agents/__init__.py:384-387 | what a served run executed is in the store afterwards, under its input's signature, with the reported output, and signed by the recipient where the step declares its work |
| ServiceLaws.ServiceRunsAreJoined | delta/agents/__init__.py:364-387 | the engine of every service run starts from the store that its gate judged |
| ServiceLaws.EngineReusesExactlyTheValid | delta/agents/__init__.py:384-387 | wherever the gate knows a step's input, the engine reuses the step exactly when the validity verdict is VALID, whatever the other verdicts say |
| ServiceLaws.GateAndEngineAgree | delta/agents/__init__.py:364-422 | gate REUSE is engine REUSE with the identical output and no executor call; gate RERUN is never engine REUSE |
| ServiceLaws.ReceiptIsProven | delta/agents/__init__.py:388-433 | each executed or failed entry of the final receipt names a persisted attempt of that step with the matching status, its head released |
| ServiceLaws.ServedRunsAreHonest | delta/agents/__init__.py:353-440 | over the answer and the store of every run: gate REUSE is engine REUSE with the identical output and no attempt of that step, gate RERUN is never engine REUSE, each receipt entry reports as outcome what gate and engine did, the handoff record, the final receipt and the run are persisted, and with fresh ids the receipt is proven by persisted attempts |
| Reconcile.SameIdentityIsAnEquivalence | delta/providers/acp.py:630-636 | the comparison of identities is an equivalence relation |
| Reconcile.SameIdentityMeans | delta/providers/acp.py:630-636 | two identities are the same exactly when they are equal texts, or both 0x and forty hexadecimal digits of the same values |
| Reconcile.MatchReconciliationCandidates | delta/providers/acp.py:655-715 | by the fields of the candidates: attached exactly when one candidate differs from the intent in nothing, every other differs somewhere, and it names provider and offering; manual without candidates, with several that do not differ, or without those names; blocked when every candidate differs, naming exactly the first difference of each |
| Reconcile.AttachedJobIsTheIntended | delta/providers/acp.py:655-715 | an attached job is on the intended chain, by the intended provider and under the intended offering, disagrees with no job id, name or requirements, and shares a transaction where both sides list some |
| Reconcile.AttachesExactly | delta/providers/acp.py:655-715 | a job is attached exactly when one and only one candidate is consistent with everything persisted and it carries provider and offering identity |
| Reconcile.DecisionIgnoresOrder | delta/providers/acp.py:655-715 | the whole decision, reported conflicts included, is invariant under permuting the candidates |
| Reconcile.ConflictingCandidateIsIgnored | delta/providers/acp.py:655-715 | adding a conflicting candidate anywhere never changes an attachment |
| Reconcile.SecondConsistentCandidateIsManual | delta/providers/acp.py:655-715 | adding a second consistent candidate anywhere always turns the decision to manual |
| Spend.ACPSpendLedger.Committed | delta/providers/acp.py:765-767 | of balanced ledgers, the sum of the entries under the plan's key; nothing without a ledger |
| Spend.ACPSpendLedger.ReserveSpend | delta/providers/acp.py:769-821 | accepted exactly when the approval is for this plan, project, step, action, provider, offering, chain and currency, has not expired and covers the amount, and the plan's ledger is its own and has room or holds the reservation already; then one entry is added unless it is there |
| Spend.AcceptedExactly | delta/core.py:853-890 | by the fields of approval, amount and ledger: when a reservation is accepted |
| Spend.LedgersStayBalanced | delta/providers/acp.py:769-821 | over any sequence of calls committed is the sum of the entries, and reservation ids differ |
| Spend.RepeatingAReservationIsANoOp | delta/providers/acp.py:807-809 | repeating a reservation id changes nothing, whatever the amount |
| Spend.CollidingPlansNeverMix | delta/providers/acp.py:797-805 | a call for one plan never changes the ledger of another, even when their keys coincide |
| Spend.KeysCoincideExactly | delta/providers/acp.py:738-740 | the keys of two arbitrary plans coincide exactly when one plan id makes up the difference between the joined scopes |
| Spend.ScopesShareKeysExactly | delta/providers/acp.py:738-740 | two projects can share a key exactly when the joined text of one scope begins the other's |
| Spend.PlannedKeysIdentify | delta/providers/acp.py:738-740 | keys of plans that the planner made coincide only for equal plan ids, which name their project |
| Spend.CommittedStaysUnderTheCap | delta/providers/acp.py:810-812 | over any sequence of calls under one cap, what a plan has committed stays under it |
| Spend.SentIsCommitted | delta/providers/acp.py:806-821 | when no two calls for a plan share a reservation id, the amounts of its accepted calls sum to what is committed |
| Spend.ReservationsCollideExactly | delta/providers/acp.py:1146-1149 | reservation ids of different (attempt, action) pairs coincide exactly when one attempt id spells out the other pair |
| Spend.SharedReservationOverspends | delta/providers/acp.py:806-821 | two pairs under one reservation id are both accepted and together exceed the cap |
| Spend.CapBoundsWhatIsSentExactly | delta/providers/acp.py:1241-1261 | for pairs issued once each, what is sent stays under the cap -- for all amounts, caps, plans and interleaved calls -- exactly when no pair spells out another |
| Acp.ACPAdapter.RejectDuplicate | delta/providers/acp.py:1295-1302 | raises exactly when the head's attempt asks for the same signature in a stopping status |
| Acp.ACPAdapter.PersistIntent | delta/providers/acp.py:1304-1320 | the attempt is rebuilt from scratch as submitting, and the head names it; the plan of another scope is refused |
| Acp.ACPAdapter.MarkAttempt | delta/providers/acp.py:1322-1343 | the outcome is written to the attempt and the head kept or released |
| Acp.ACPAdapter.Perform | delta/providers/acp.py:1123-1269 | create, fund, complete and reject: refused with nothing changed, refused after the reservation for a plan of another scope, or reserved, persisted, sent and marked |
| Acp.ACPAdapter.RecordObservation | delta/providers/acp.py:930-984 | a matching observation sets the status it reports, a conflicting one blocks and still writes the record's job and chain |
| Acp.ACPAdapter.ReconcileAttempt | delta/providers/acp.py:913-928 | observes the attempt that the head names, if it knows its job |
| Acp.ACPAdapter.FinalizeCompletedWork | delta/providers/acp.py:992-1116 | persists reusable work exactly when the attempt, the job record, the deliverable's hash, the settlement and the artifact all match, and clears the head |
| AcpOutcome.PaidOperationEnds | delta/providers/acp.py:1123-1269 | a paid operation goes through exactly when no attempt of the same signature in a stopping status is under the head, the approval allows it, the ledger has room and the plan is of this project; its attempt is then Failed, Active or Ambiguous exactly as the answer is a clear failure, a clear success with the job ordered, or anything else, and the head is released on failure only; refused, it changes nothing but, for a plan of another project, the ledger |
| AcpOutcome.DoubtStopsTheStep | delta/providers/acp.py:1146-1181 | after a command that timed out, was not parsed or is ambiguous, a creation also when it failed but is flagged or answers with another job or none, every further operation on the step and signature is refused and nothing can be reconciled |
| AcpOutcome.ObservationEnds | delta/providers/acp.py:930-984 | an observation blocks the attempt exactly when the record is of the wrong kind or contradicts what was persisted, else gives it the status that the lifecycle calls for in any case of letters; it rewrites the attempt and its step's head and nothing else |
| AcpOutcome.FinalizesExactly | delta/providers/acp.py:1022-1077 | work is finalized exactly when the job is live and completed, its deliverable has a claimed hash that was recomputed, its settlement is on its chain and by one of its transactions, the artifact is there, and the attempt is the job's own: step, input, chain, provider, offering and requirements |
| AcpOutcome.FinalizationEnds | delta/providers/acp.py:1079-1116 | then the deliverable is the step's work, the attempt has succeeded, the head is clear, and nothing else has changed |
| Acp.AmbiguityStopsTheStep | delta/providers/acp.py:1146-1155 | after an ambiguous outcome the head names an attempt that cannot be reconciled, and every further operation on the step and signature is refused with nothing changed, whatever its action, plan, approval or attempt id |
| AcpInvariant.CheckedAlone | delta/providers/acp.py:1295-1302 | the duplicate check does not pass while another payment is between its own check and its end on the step |
| AcpInvariant.MoveKeeps | delta/providers/acp.py:1123-1375 | every store access that the discipline allows keeps the protocol's invariant |
| AcpLaws.DisciplinedRunsAreSafe | delta/providers/acp.py:1146-1181 | after every store access of every schedule that keeps the discipline: each command is preceded by its reservation and a persisted submitting attempt, at most one per step is in flight, and no head names a failed, succeeded, rejected or expired attempt unless a thread is about to clear it |
| AcpLaws.AmbiguityIsFinal | delta/providers/acp.py:1262-1268 | once an ambiguous outcome is marked, in every continuation that keeps the discipline the attempt stays ambiguous and without a job identity under the head, and no further command is sent for the step |
| AcpOutcome.OutcomesAreMarked | delta/providers/acp.py:1164-1181 | in every disciplined schedule, once a payment has marked its outcome its attempt says what the answer's own fields call for, and the head names it unless the command failed |
| AcpOutcome.DoubtIsFinal | delta/providers/acp.py:1164-1181 | and once it has marked an answer that leaves doubt, no further command is ever sent for the step |
| AcpFinal.AmbiguityIsFinalExactly | delta/providers/acp.py:1123-1375 | of all sets of habits, exactly the whole discipline makes an ambiguous outcome final on every schedule that keeps the set |
| AcpFinal.AmbiguityIsFinalUntilObserved | delta/providers/acp.py:930-984 | with observations that may name their attempts directly, an ambiguous outcome is final in the same sense until the first of them |
| AcpLaws.AloneIsPerformed | delta/providers/acp.py:1146-1181 | the store accesses of an undisturbed payment amount to the adapter's operation, and its command is sent exactly when the operation does not raise |
| AcpLaws.AloneIsReconciled | delta/providers/acp.py:913-984 | so do those of a reconciliation |
| AcpLaws.AloneIsFinalized | delta/providers/acp.py:992-1116 | so do those of a finalization |
| AcpExact.LateReleaseOverlaps | delta/providers/acp.py:1322-1343 | keeping every habit but undisturbed marks, two commands for one step overlap |
| AcpExact.StaleObservationOverlaps | delta/providers/acp.py:913-984 | so they do without undisturbed observations: the provider's answer arrives after the next command was sent |
| AcpExact.DirectObservationOverlaps | delta/providers/acp.py:930-984 | without observations through the head: one names its attempt directly |
| AcpExact.StaleFinalizationOverlaps | delta/providers/acp.py:1079-1116 | without finalizations at the head: one closes an attempt that the head no longer names |
| AcpExact.SlowFinalizationOverlaps | delta/providers/acp.py:1079-1116 | without undisturbed finalizations: the step is taken in the middle of one |
| AcpExact.TwoSignaturesOverlap | delta/providers/acp.py:1295-1302 | without one signature per step |
| AcpExact.SharedIdOverlaps | delta/providers/acp.py:1304-1320 | without owned attempt ids: one id on two steps |
| AcpExact.SafeExactlyUnderFullDiscipline | delta/providers/acp.py:1123-1375 | of all sets of habits, exactly the whole discipline keeps at most one command per step in flight, and the whole of safety, on every schedule that keeps the set |
| AcpSpend.CommandsAreApproved | delta/providers/acp.py:1146-1163 | in every interleaving, every command that is sent is one that its approval allows: plan, project, step, action, provider, offering, chain, time and amount |
| AcpSpend.CommandsStayUnderTheCap | delta/providers/acp.py:1146-1163 | in every interleaving, disciplined or not, the commands sent for a plan amount to at most its cap when no two payments share a reservation id |
| AcpSpend.PairsIssuedOnceStayUnderTheCap | delta/providers/acp.py:1241-1261 | so they do when each (attempt, action) pair is issued at most once and no attempt id spells out another pair |

## Left out

- Core.Normalized: floats are not modelled, so neither is the rejection of non-finite numbers; a date input is any text, its format is not checked.
- Core.SignatureIdentifiesInput: holds for the digested text; SHA-256 collisions are assumed away.
- Topology.TopologicalOrder: the check for unknown dependencies is part of workflow validation here.
- Engine.DeltaEngine.Attempted: the value an executor returns is a JSON value already; a result that `normalize_json` rejects counts as a failing call.
- Service.AgentHandoffService.Run: the runner is an oracle.
- HistoryLaws.CacheIsCorrect: an executor that answers differently on equal inputs is outside the model, and so are histories with `finalize_completed_work`, whose results are a provider's deliverables and not an executor's answers.
- Concurrent.ConcurrentCallsAreExclusive: the listing behind a call's preview is one access; engine calls and service runs are not interleaved with each other.
- Gate.HandoffGate.Evaluate: reasons, summaries and the aggregated cost of a receipt are not modelled, nor the guards on reasons; evidence is reduced to output signature and source.
- Gate.IndexFinds: the status of a work record is always completed, as its constructor enforces.
- Store.SibylStore.Save: the size limit of inline records and the refusal of untrusted bodies in receipts are not modelled.
- Store.SibylStore.ListWorkRecords: the listing limit of the client is not modelled; decoding errors other than the three kinds the source catches propagate there and are not modelled here.
- Acp.ACPAdapter.Perform: a runner that raises is a thread that stops moving.
- Acp.ACPAdapter.FinalizeCompletedWork: the artifact reference is not stored separately.
- Spend.ACPSpendLedger.ReserveSpend: amounts are integers; Decimal rounding beyond 28 digits and the formatting of amounts are not modelled.
- Reconcile.SameIdentityIsAnEquivalence: lower-casing, also of transaction hashes and lifecycles, is modelled on ASCII text, which is all that an address contains.
- AcpProtocol.Move: the journal events that follow the writes are not accesses of the model, and the lock is released together with the last write under it.
- The engine and the ACP adapter working on the same step at once.
- `read_events`, journal events, demo markers, and the tenant selection of the client library.
- `delta/web.py`, `delta/session.py`, static files and the command-line entry points.
- `delta/artifacts.py`: only the `available` flag of an artifact reference is kept.
- The model provider runner, the command runner, redaction, and the parsing of browse and history responses.
- `reconcile_funding`, deliverable verification and chain evidence: small tables without state.
- `delta/baseline.py`, `delta/fixtures.py`, `delta/scenarios.py`, `delta/demo.py` and scripts.
