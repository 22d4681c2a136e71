# Support-ticket agents: a Dafny model

This project models the behaviour of the customer-support system and proves properties of it. Six parts are modelled:

* **The ticket pipeline.** `Pipeline` is the graph as a state machine: one step per node, fed with the answers of the
  planner LLM, the critic LLM and the memory store. `Executor`, `Critic`, `Dag` and `Records` are its agents and data.
  Tools, parameter preparation and the usability check are arbitrary functions of an environment, and the LLMs may
  answer anything, so a theorem about a run is about every run. `Worlds` has concrete production worlds for the runs
  that show a claim false, and `Resolution`, `Replans`, `Templates`, `Racing`, `OrderDrift`, `Amounts`, `Redirection`,
  `Repeats` and `Discipline` say exactly when such claims hold. `Graph`, `Executor.Run`, `Critic.Run` and
  `Dag.PlanPendingTools` are the same code as loops, proved equal to the functions the theorems speak of. `Parameters`
  says what every call asks, `Usability` what the usability check looks at, `Reporting` what a ticket reports.
  `Research` is the memoryless research loop that production ports, `MemoryLoop` the memory-augmented one with its LLMs on.
* **The LLM gateway.** `Limiter`, `Breaker` and `Gateway` are classes over a monotone clock (`Clock`). Ghost fields hold
  the whole history of grants and attempts, and the guarantees are about that history. `Callers` interleaves the locked
  sections of concurrent callers of one provider, and `Fallback` those of concurrent calls that each walk a list of
  providers.
* **API admission.** `Admission` interleaves the locked sections of many requests in any order; `ClientLimiter` is the
  inbound limiter; `Service` is the endpoint with one request at a time, tied to the protocol step by step. `Retries`
  and `Overlap` say when a ticket is run again.
* **Policy memory.** `Json` and `PolicyKey` are the text a policy id is hashed from; `PolicyStats` and `PolicyStore` are
  the upsert and its running statistics.
* **The failure detector.** `Detector` is the simulated tools over arbitrary tables, against `Records.IsUsable`, which
  never sees the injected failure; `Tables` has the tables the tools build.
* **Two codecs.** `Csv` is the dashboard's export with a reader after section 2 of RFC 4180; `SearchParams` and
  `ExperimentParams` are its URL state.

## Claims that are false of the code

Where a natural claim fails, the model keeps the code's behaviour, shows an input on which it fails and states exactly
when it holds.

* The plan type promises no order within a layer, but production marks success inside a layer and the research loop only
  after it. On a fresh ticket the two make the same calls, whatever the tools answer, exactly if no layer lists
  `order_lookup` before `refund` (`Racing.AgreeIffNoRace`); the deterministic plan has no such layer.
* A rejected lookup still changes the order in the context. A refund goes to the ticket's order exactly if the latest
  rejected lookup that named an order named that one (`OrderDrift.RefundsStayOnOrder`). In
  `Redirection.WrongEchoRedirectsRefund` a resolved ticket refunds an order the customer did not name. In the same way the
  amount is the total of the latest successful lookup that has one, usable or not (`Amounts.RefundPaysLastTotal`); in
  `Amounts.RejectedTotalIsPaid` that is a rejected one.
* Production's `_prepare_params` is meant to mirror the research loop's, but it looks for the customer's message and a
  refund's reason in the context, where nothing puts them: every knowledge-base search of a run asks for the empty text and
  every refund gives "customer request" (`Parameters.EveryCallAsks`). A resolved ticket that needs the knowledge base has
  such a search on record (`Parameters.ResolvedSearchAskedNothing`). The two tracks still agree on everything but these two
  texts if the tools do not look at them (`OwnParameters.ProductionSimulatesResearchAsWorded`).
* With an LLM a refund can be issued twice (`Repeats.PlanCanRefundTwice`): a tool with a usable call is called again exactly
  if the run comes to another plan entry for it (`Repeats.CalledAgainIffPlannedAgain`). With duplicate-free plans and
  verdicts that blame no tool with a usable call nothing is repeated (`Discipline.WellAdvisedAccounting`).
* Production ports the research loop, but the loop takes a tool off the pending set after any success, production only
  after a usable result. With the LLMs on and race-free plans the two keep the same pending tools after every iteration
  exactly if each pending tool with successful but no usable calls in an iteration is blamed by an unresolved verdict
  (`MemoryLoop.ProductionSimulatesMemoryLoop`); in `MemoryLoop.LoopLosesATool` one is not.
* The replan count tells resolved from unresolved tickets exactly for dependency-closed tool sets
  (`Replans.ReplanCountNeedsClosed`). Intake produces only such sets (`Accounting.IntakeIsClosed`).
* The template stored on success is the last iteration's plan only (`MemoryWriteback.ResolvedTicketsStoreTheirLastPlan`). It
  covers the ticket exactly if all its tools became usable in that iteration (`Templates.TemplateIsTheLastIteration`); after
  one failed order lookup it lacks the customer lookup (`Templates.TemplateMissesATool`).
* The usability check takes a wrong result for a good one exactly when the call names nothing to compare with
  (`Detector.DetectorEqualsOracle`). The critic's category is wrong exactly for ambiguous data of a tool other than
  `order_lookup` (`Detector.CriticNamesFailures`).
* Two requests for one ticket both complete exactly if the limiter turns neither away, both runs succeed and each lookup
  comes before the other's write (`Overlap.BothCompleteIffOverlapping`); from an empty limiter, if it allows two calls per
  window or the checks are a window apart (`Overlap.BothCompleteIffRoom`). `Admission.OverlappingRequestsRunTwice` is a
  schedule that does.
* `src/api/idempotency.py` promises that a retry after a crash re-dispatches nothing. A run that raises caches nothing:
  a request is run again exactly if all runs before it failed (`Retries.RunsAgainIffFailed`), as in
  `Retries.CrashIsRunAgain`.
* The half-open circuit promises one trial. Concurrent callers keep the pace exactly if each attempt after enough failures
  had heard of the last one when it asked (`Callers.PacedExactly`); two that ask together do not
  (`Callers.HalfOpenAdmitsTwo`). The request rate is kept in every interleaving (`Callers.RequestsPerSpan`).
* The policy key identifies intent and workflow except for names that contain a surrogate pair written as two code
  points, which prints like the character it stands for (`PolicyKey.KeyTextIsInjective`).
* The stored dependency graph fits the stored layer table only for workflows that pass the order check, which the
  policy writer does not make (`PolicyStore.GraphFitsIfOrdered`).
* `sameMembers` ignores repetition, so three times one arm turns into the default arms
  (`ExperimentParams.NamesSurvive`, `ExperimentParams.ThreeTimesOneArm`).

## Model

| member | source | states |
|---|---|---|
| Safety.EveryRunEnds | src/graph/pipeline.py:205-238 | For any LLM, memory and tools a ticket ends within twelve steps; resolved means every expected tool has a usable record; escalated means unresolved; nothing pending implies resolved; an unresolved ticket used all three iterations and has a pending tool |
| Safety.StepDescends | src/graph/pipeline.py:304-317 | Every step before the end lowers a bound on the remaining steps |
| Safety.CriticForgetsNothing | src/graph/pipeline.py:186-191 | Whatever the verdict, a tool leaves the pending set only with a usable record |
| Safety.RefundsFollowLookups | src/agents/executor.py:84-105 | In every reachable call log, across layers and iterations, each refund comes after a usable order_lookup |
| Accounting.PendingIsExact | src/graph/pipeline.py:186-194 | LLM off: between iterations and at the end, pending is exactly expected minus the tools with a usable record |
| Accounting.OfflineAccounting | src/graph/pipeline.py:186-210 | LLM off: no tool is called again once usable or twice in an iteration, only expected tools are called, at most three times their number; for a dependency-closed set a resolved run has iteration minus one replans and an unresolved one three |
| Accounting.OfflineVerdict | src/agents/critic_replanner.py:71-111 | LLM off: the verdict is "resolved" exactly when nothing failed, and names exactly the failed tools |
| Accounting.IntakeIsClosed | src/agents/intake.py:59-66 | Every tool set intake can choose contains its dependencies |
| Accounting.IntakeAsksFor | src/agents/intake.py:59-66 | Read by tool: which intents need each of the four tools, none twice and no others |
| Accounting.UnclosedNeverResolves | src/agents/executor.py:86-88 | LLM off: a refund expected without its lookup is never called, and the ticket is escalated after three iterations |
| Replans.ReplanCountNeedsClosed | src/graph/pipeline.py:193-210 | In every production world without the LLM the replan count is iterations minus one when resolved and three when not, exactly if the tool set is dependency-closed |
| Replans.UnclosedNeverReplans | src/graph/pipeline.py:193-210 | Tools that answer every call as asked leave a ticket with a refund but no lookup escalated after three iterations with no replan |
| Resolution.ResolvesInTime | src/graph/pipeline.py:169-210 | LLM off, closed set, tools failing their first f calls: the ticket resolves exactly if every f is at most two, lookup and refund together at most two, in the iteration the last tool needs, each tool called until usable |
| Resolution.IterationCalls | src/agents/executor.py:84-105 | One iteration calls each planned tool once, a refund only if the lookup has become usable by then |
| Worlds.FailuresAreArbitrary | src/models/executor.py:23-80 | For every number of failures per tool there is a production world whose runs show exactly those |
| NonInterference.MemoryDoesNotInterfere | src/graph/pipeline.py:186-200 | LLM off: two runs with arbitrary different memory contents agree at every step on everything but memory hit, confidence, strategy and distance |
| NonInterference.OnlyTheHeardCounts | src/agents/planner.py:67-68 | Two runs are the same if memory and the answers asked for are: the critic's only with the LLM on, the planner's only if the ticket also has a message |
| Simulation.ProductionSimulatesResearch | experiments/baselines/memoryless.py:351-426 | LLM off, shared usability (implying success), parameters and tools: the graph and the research loop give the same calls, context, pending set, iteration and replan counts and verdict |
| OwnParameters.ProductionSimulatesResearchAsWorded | src/agents/executor.py:26-41 | LLM off, each side with its own parameters: for tools that look neither at the query nor at the reason, the same agreement except for these two in the call logs |
| OwnParameters.RunAlike | src/graph/pipeline.py:143-277 | Two executors whose parameters differ in wording no tool or check looks at take the same course on every ticket, with any LLM |
| Simulation.PlanAgrees | src/agents/executor.py:84-105 | Both executors agree on every plan without a racing layer, LLM plans included |
| Racing.AgreeIffNoRace | experiments/baselines/memoryless.py:368-397 | On a fresh ticket production and research make the same calls in every production world exactly on plans without a racing layer |
| Racing.RacingPlanDiverges | src/agents/executor.py:84-105 | In the world whose lookups fail until the first racing layer, production makes more calls |
| Racing.UsableLookupAgrees | experiments/baselines/memoryless.py:371-380 | Once a lookup is usable the two agree on every plan |
| MemoryLoop.ProductionSimulatesMemoryLoop | experiments/memory_augmented_v2.py:950-1030 | Any LLM answers given to both, race-free plans: graph and loop agree on the pending tools after every iteration exactly if no iteration loses a tool, and then they give the same calls, context, pending set, counts and verdict |
| MemoryLoop.RoundDiffersByLost | experiments/memory_augmented_v2.py:1019-1026 | After one iteration production's pending set is the loop's plus exactly the tools lost |
| MemoryLoop.LoopLosesATool | experiments/memory_augmented_v2.py:1023-1028 | A verdict "resolved" over a vague article: the loop ends unresolved with nothing pending, production plans again |
| MemoryLoop.Iterate | experiments/memory_augmented_v2.py:950-1026 | The body of the loop computes the round of these theorems |
| Simulation.FallbackDoesNotRace | experiments/baselines/memoryless.py:193-203 | The deterministic plan has no racing layer |
| Research.Run | experiments/baselines/memoryless.py:351-426 | The loop over iterations computes the outcome function the simulation speaks of |
| Research.ExecutePlan | experiments/baselines/memoryless.py:366-397 | The nested dispatch loops, with success committed only after a layer, compute the layered trace |
| Research.DependenciesMet | experiments/baselines/memoryless.py:371-380 | The dependency loop decides whether every dependency has a good call among the committed ones |
| Provenance.RefundsUseTheLookup | src/agents/executor.py:26-67 | LLM off: each refund names the order, and whenever numeric the total, of the only usable order_lookup, although unusable results also update the context |
| Provenance.AmountIsNumeric | src/agents/executor.py:61-66 | In every reachable context the amount is a number, so converting it never fails |
| Provenance.IntakeIsNumeric | src/agents/intake.py:119-134 | Intake's contexts meet the hypothesis of that |
| Parameters.EveryCallAsks | src/agents/executor.py:26-67 | Any LLM, production, from intake: crm asks for the customer and e-mail of the latest profile taken over, lookups and refunds for the latest order named, refunds pay the last total for the one reason, searches ask for the empty text and three articles, other tools get nothing; each record is its tool's answer |
| Parameters.ResolvedSearchAskedNothing | src/agents/executor.py:39-40 | A resolved ticket that needs the knowledge base has a usable search for the empty text |
| Usability.CrmNotices | src/models/executor.py:41-52 | A usable profile stays usable under a change or removal of any one field exactly unless it is one of those listed |
| Usability.LookupNotices | src/models/executor.py:54-63 | The same for an order lookup |
| Usability.RefundNotices | src/models/executor.py:65-71 | The same for a refund |
| Usability.SearchNotices | src/models/executor.py:73-78 | The same for a search |
| Usability.OnlyTheAnswerCounts | src/models/executor.py:35-80 | Nothing but success, payload and the two requested identifiers makes a difference |
| OrderDrift.RefundsStayOnOrder | src/agents/executor.py:58-60 | Any LLM: a refund goes to the order the latest rejected lookup before it named, else to the ticket's; so to the ticket's order exactly if that lookup named it |
| Amounts.RefundPaysLastTotal | src/agents/executor.py:32-66 | Any LLM: a refund pays the numeric total of the latest successful lookup before it that names an order and has one, usable or not, else the ticket's amount, else nothing |
| Amounts.RejectedTotalIsPaid | src/agents/executor.py:58-66 | A refund request whose rejected lookup has a total and whose usable one has none resolves and pays the rejected total |
| Redirection.WrongEchoRedirectsRefund | src/agents/executor.py:92-105 | A refund request from intake, with lookups that answer for another order, resolves after one replan and its one refund goes to that other order |
| Repeats.CalledAgainIffPlannedAgain | src/agents/planner.py:117-120 | Any LLM: a tool with a usable call is called again exactly if the run comes to a later plan entry for it |
| Repeats.PlanCanRefundTwice | src/agents/planner.py:117-120 | A plan that lists the refund twice gives two usable refunds |
| Discipline.WellAdvisedAccounting | src/graph/pipeline.py:186-210 | LLM on, duplicate-free plans, verdicts that blame only expected tools without a usable call: no tool is called again once usable or twice in an iteration, at most three times the expected calls, pending is exactly what has no usable call |
| Discipline.PlanIsTheAnswerCutDown | src/agents/planner.py:117-120 | With an LLM answer the plan is that answer, layer by layer and in its order, without the tools that are not pending |
| Reporting.FinishedTicketReports | src/graph/pipeline.py:133-200 | Any LLM: iterations equal plans made, replans equal verdicts against the ticket and never exceed iterations, the memory flag is set exactly if a plan or verdict used memory; the confidence is the last verdict's, category and strategy the latest given, the distance the last plan's |
| Reporting.VerdictFromMemory | src/agents/critic_replanner.py:71-111 | The least failed tool and its first record are judged; a stored failure of that tool and category decides without the LLM, the first such entry giving strategy and confidence; without one and without an LLM answer the failed tools are to be retried |
| Reporting.VerdictFromLlm | src/agents/critic_replanner.py:129-152 | Without a stored failure the LLM decides resolution and failed tools; its first note on the least failed tool gives category, confidence and strategy, with stated defaults |
| Reporting.ResolvedNeedsAWord | src/agents/critic_replanner.py:71-73 | An iteration is called resolved exactly if no call failed, or no stored failure applies and an LLM answer says so; the verdict on an iteration without failure is fixed |
| Reporting.FailedCallIsNoLlm | src/agents/critic_replanner.py:153-161 | An LLM call or answer that fails leaves the verdict given with the LLM off |
| Reporting.ClassifiedRecordFailed | src/agents/critic_replanner.py:75-77 | The record classified is a failed one if no tool was called twice in the iteration |
| MemoryWriteback.WhatIsStored | src/graph/pipeline.py:241-275 | Any LLM: one episode, first, a success exactly if the ticket was not escalated; a template exactly by a resolved ticket whose last plan passes the order check, and nothing else then; an unresolved one stores one failure entry per unusable call, in order, with its tool and the ticket's last category, strategy and confidence |
| MemoryWriteback.ResolvedTicketsStoreTheirLastPlan | src/graph/pipeline.py:241-260 | LLM off: a resolved ticket stores one episode and one template, which covers exactly the tools not usable before the last iteration |
| MemoryWriteback.FailuresAreRecorded | src/graph/pipeline.py:262-273 | The failure entries are as many as the unusable calls and never lack a category |
| Templates.TemplateIsTheLastIteration | src/graph/pipeline.py:241-260 | LLM off, closed set: a resolved ticket's template lists exactly the tools that became usable in the last iteration, so it covers the ticket exactly if all did |
| Templates.TemplateMissesATool | src/graph/pipeline.py:241-260 | An order-status ticket with one failing lookup resolves in iteration two and stores a template without the customer lookup |
| Dag.FallbackCoversOnce | src/core/dag.py:38-47 | The deterministic plan lists every pending tool exactly once and nothing else, lower layers first |
| Dag.FallbackStages | src/core/dag.py:18-23 | Stage by stage: crm, then kb_search and order_lookup, then refund, then unknown tools, each stage sorted and left out when nothing in it is pending |
| Dag.FullPlan | src/core/dag.py:38-47 | All four tools give [crm], [kb_search, order_lookup], [refund] |
| Dag.FallbackIsPlan | src/core/dag.py:38-47 | Its layers are non-empty ascending listings of exactly the pending tools of one index, with growing indices |
| Dag.FallbackIsUnique | src/core/dag.py:38-47 | No other list of layers meets those requirements |
| Dag.PlanPendingTools | src/core/dag.py:42-47 | The loop over the occurring indices builds that plan |
| Dag.IsDependencyOrdered | src/core/dag.py:62-91 | The two loops decide: some layer is populated, none before a populated one is empty, and a dependency present comes in a strictly earlier layer |
| Dag.OrderedPlans | src/core/dag.py:62-91 | A plan passes exactly if, cut behind its last populated layer, it is not empty and has no empty layer, and some refund comes in a later layer than every lookup if both are planned |
| Dag.LayerTable | src/core/dag.py:77-80 | The table maps each tool to the last layer that lists it |
| Dag.FallbackPasses | src/core/dag.py:62-91 | The deterministic plan of a non-empty set passes the check |
| Executor.Run | src/agents/executor.py:79-107 | The nested loops with their running set of succeeded tools compute the dispatch trace, which depends on the plan only through its order |
| Executor.OrderedPlanSkipsNothing | src/agents/executor.py:84-105 | A duplicate-free, dependency-closed plan passing the check is dispatched in full and in order when every call is usable |
| Executor.ExecToolsExtends | src/agents/executor.py:90-102 | Dispatch only appends calls, of this iteration, to listed tools, at most one per entry |
| Executor.ExecToolsDistinct | src/agents/executor.py:84-102 | A duplicate-free plan calls no tool twice |
| Critic.Run | src/agents/critic_replanner.py:63-161 | The early returns and loops compute the verdict function of the theorems |
| Critic.ScanHits | src/agents/critic_replanner.py:85-95 | The loop finds an entry of this tool and category, and none exactly if there is none |
| Pipeline.CheckResolved | src/graph/pipeline.py:77-84 | The loops decide whether every expected tool has a usable record |
| Pipeline.WriteBack | src/graph/pipeline.py:241-275 | The write node computes the memory writes of the theorems |
| Graph.Invoke | src/graph/pipeline.py:295-319 | Running nodes until the end terminates and gives the run's final state |
| Windows.SpanBound | src/core/llm_client.py:64-65 | If entry i+n comes a window after entry i, any half-open span of k windows holds at most k·n entries |
| Limiter.PruneIsExact | src/core/llm_client.py:84-85 | Pruning the stored list gives exactly the grants inside the window out of all ever made |
| Limiter.GrantsPerSpan | src/core/llm_client.py:64-65 | Over any history any half-open span of k windows holds at most k·max_calls grants |
| Limiter.SlidingWindowLimiter.Acquire | src/core/llm_client.py:81-100 | Sleeps exactly when the window is full, between 0.05 s and a window plus 0.05 s; appends one grant; fails exactly when max_calls is below one; keeps the stored list the suffix of the history and the grants spaced |
| Breaker.CircuitBreaker.IsOpen | src/core/llm_client.py:120-126 | Open exactly when the attempts end in threshold failures and the last is younger than the cooldown |
| Breaker.CircuitBreaker.RecordFailure | src/core/llm_client.py:133-137 | Keeps counter and opening time functions of the outcome history |
| Breaker.OutageTrials | src/core/llm_client.py:103-111 | In an outage, attempts after the first threshold failures come at least one cooldown apart |
| Callers.PacedExactly | src/core/llm_client.py:120-137 | Every interleaving of callers: the attempts keep the breaker's pace exactly if each one after threshold failures in a row had heard of the last of them when it asked |
| Callers.PacedByTheClock | src/core/llm_client.py:120-137 | By the clock: such attempts begin no earlier than the last failure ended if the pace is kept, and beginning later suffices |
| Callers.HalfOpenAdmitsTwo | src/core/llm_client.py:120-126 | In a run with threshold failures and a cooldown, two callers that ask together are both let through and break the pace |
| Callers.RequestsPerSpan | src/core/llm_client.py:81-100 | Every interleaving of callers, one of them possibly asleep with the lock: any k windows hold at most k·max_calls requests |
| Callers.EveryGrantIsUsedOnce | src/core/llm_client.py:197-199 | Every interleaving: the limiter's grants are exactly the request times of the attempts on record and under way |
| Callers.SleepersWait | src/core/llm_client.py:91-100 | Every interleaving: a caller that slept is let through at least a window and 0.05 s after the grant max_calls before it |
| Gateway.LLMProviderGateway.Call | src/core/llm_client.py:159-194 | Providers are visited in order, skipped exactly when their circuit is open, until one replies; the log grows by exactly the attempts made |
| Gateway.LLMProviderGateway.Try | src/core/llm_client.py:173-192 | One visit: an attempt unless the circuit is open, with the world's reply unless no client or slot can be had |
| Gateway.FirstWillingAnswers | src/core/llm_client.py:160-163 | The answer is the first willing provider's, and the call fails exactly when none in the list is willing at its turn |
| Gateway.LLMProviderGateway.ValidIsDisciplined | src/core/llm_client.py:140-143 | In every reachable gateway, whatever the roles, no provider was tried while open and the requests to each keep its pace |
| Gateway.RequestsPerSpan | src/core/llm_client.py:234-243 | Any k minutes hold at most k times `nim_rpm` requests to nim, `gemini_rpm` to gemini and `ollama_rpm` to ollama |
| Gateway.WillingMeans | src/core/llm_client.py:173-192 | A provider answers exactly if it is one of the three with a positive rate, has a reply, and has not failed three times in a row with the last failure less than 60 seconds ago |
| Gateway.TrialsPerOutage | src/core/llm_client.py:103-111 | After three failures in a row a provider sees at most one trial per minute until it succeeds |
| Fallback.FirstWillingAnswers | src/core/llm_client.py:159-194 | Every interleaving of calls over several providers: a call returns the recorded answer of the first provider in its list that did not decline, by a circuit open on the outcomes reported by then or by a recorded failure, and fails exactly when all declined or the list is empty |
| Fallback.EveryProviderIsKept | src/core/llm_client.py:81-137 | In such interleavings each provider's grants are its requests, at most k·max_calls in any k windows, and every attempt was admitted on the outcomes reported before it asked |
| ClientLimiter.AllowIsExact | src/api/rate_limit.py:23-35 | A call is allowed exactly when fewer than max_calls grants of the full history lie in the window; a rejection uses no budget; other clients are untouched; lists stay within max_calls |
| ClientLimiter.ClientsAreIndependent | src/api/rate_limit.py:28-35 | In any run a client is answered as if it were alone |
| ClientLimiter.ClientRateLimiter.AllowCall | src/api/rate_limit.py:23-35 | The method makes that decision and keeps the lists sound |
| Admission.CachedCameFromTheKey | src/api/main.py:90-93 | Any interleaving: a cached response came from a completed run of that same key |
| Admission.CompletedRunsOverlap | src/api/main.py:59-93 | Any interleaving: two completed runs of one key each looked up before the other wrote |
| Admission.OneRunPerKey | src/api/main.py:59-94 | If requests of a key do not overlap, at most one completes, all answers for the key are equal, and replays never touch the limiter |
| Admission.OverlappingRequestsRunTwice | src/api/main.py:59-93 | Two overlapping requests of one key both complete, with different answers |
| Overlap.BothCompleteIffOverlapping | src/api/main.py:59-93 | For every schedule of two requests for one ticket and every limiter: both complete exactly if neither is turned away, both runs succeed and each lookup comes before the other's write |
| Overlap.BothCompleteIffRoom | src/api/main.py:59-93 | The same from the schedule alone: not turned away means two calls per window, or one and a window between the two checks |
| Retries.MissIffNoneCompleted | src/api/main.py:59-65 | Any interleaving: a request misses exactly if no completed run of its key was written before it looked |
| Retries.RunsAgainIffFailed | src/api/main.py:70-79 | Requests of a key that do not overlap: one goes on to be run exactly if every run before it failed |
| Retries.CrashIsRunAgain | src/api/main.py:70-79 | After a run that raised, the retry of the ticket is let through to the pipeline |
| Retries.RunsPerKey | src/api/main.py:70-93 | The runs started for such a key are the failed ones and at most one more, completed or going on |
| Admission.AdmittedPerSpan | src/api/main.py:67-68 | Any interleaving: a client's grants are exactly its requests let through, at most k·max_calls in any k windows |
| Service.TicketApi.SubmitTicket | src/api/main.py:54-94 | One request at a time, the endpoint's reply and state are those of the protocol's five actions in a row |
| Service.SoloRun | src/api/main.py:54-94 | Those actions replay a cached answer with nothing changed, or reject with 429, or fail with 502 after using budget, or answer and cache |
| Service.TicketApi.OneRunEach | src/api/main.py:54-94 | After any number of requests served one by one, at most one run per key completed and every answer for the key is that run's |
| Json.DumpIsInjective | memory/policy_store.py:59 | Two workflows print alike exactly when they differ only in how surrogate pairs are written |
| Json.SameUnits | memory/policy_store.py:59 | Two texts escape alike exactly when joining surrogate pairs makes them equal |
| Json.PrintsJson | memory/policy_store.py:59 | The text is the JSON array of arrays of strings, after section 7 of RFC 8259, with Python's separators and escapes |
| PolicyKey.DumpIsClosed | memory/policy_store.py:59 | Printed JSON ends outside quotes and has all its colons inside |
| PolicyKey.KeyTextIsInjective | memory/policy_store.py:52-61 | The text hashed is equal exactly for equal intents and workflows, up to surrogate pairs, whatever colons, quotes or brackets occur |
| PolicyKey.ProperKeysAreInjective | memory/policy_store.py:52-61 | For Unicode text the key text identifies intent and workflow |
| PolicyKey.KeyOfOneTool | memory/policy_store.py:59-60 | The text of one key, character by character |
| PolicyStats.ReinforceIsExact | experiments/memory_augmented_v2.py:831-839 | One more ticket keeps count, means, confidence and contributors exact |
| PolicyStats.ExactMeans | experiments/memory_augmented_v2.py:831-835 | In numbers: the mean of the replans, and confidence 0.5 plus 0.05 for each further ticket up to 1 |
| PolicyStats.FiftyAreCredited | experiments/memory_augmented_v2.py:836-839 | Of tickets with distinct ids the last fifty are credited |
| PolicyStats.MeanStep | memory/policy_store.py:157-161 | The running average of an exact mean is the exact mean |
| PolicyStats.CreditStays | experiments/memory_augmented_v2.py:836-839 | Contributors stay duplicate-free, at most 50, and the last 50 tickets when ids are distinct |
| PolicyStore.HashedTellsApart | memory/policy_store.py:52-61 | A hash without collisions on the key texts seen tells the policies apart |
| PolicyStore.WriteStaysFaithful | experiments/memory_augmented_v2.py:819-861 | With no hash collision, a write keeps one entry per intent and workflow, each the exact summary of its tickets |
| PolicyStore.SinceIsAll | memory/policy_store.py:64-78 | As long as reads succeed an entry sums up all its tickets |
| PolicyStore.SinceIsTheEnd | memory/policy_store.py:69-74 | A failed read starts the policy over: it then sums up a final part of its tickets |
| PolicyStore.PolicyMemory.WriteBack | experiments/memory_augmented_v2.py:808-863 | The writer keeps the store faithful; a successful write changes one entry, whose workflow dispatches the plan's tools in the plan's order without empty layers, with their number and layers, and credits the ticket; an empty plan or a failed write changes nothing |
| PolicyStore.NonEmptyKeeps | experiments/memory_augmented_v2.py:820 | The stored layers are the plan's non-empty ones, in order |
| PolicyStore.ToolLayersMean | experiments/memory_augmented_v2.py:798-805 | The stored table gives each tool, and no other, the last layer that lists it |
| PolicyStore.PolicyMemory.CountPolicies | memory/policy_store.py:139-143 | The number of entries is the number of distinct pairs of intent and workflow |
| PolicyStore.GraphFitsIfOrdered | experiments/memory_augmented_v2.py:784-805 | Every stored dependency leads to an earlier stored layer exactly when the workflow passes the order check |
| Detector.DetectorEqualsOracle | src/models/executor.py:23-80 | For all tables of two or more good rows: usable means no failure injected and the thing asked for exists, except exactly when a wrong result meets a call that names nothing |
| Detector.CriticNamesFailures | src/agents/critic_replanner.py:37-51 | The category is the injected failure except exactly for ambiguous data of a tool other than order_lookup |
| Detector.ResolveMeans | src/tools/crm.py:50-55 | The customer with the id, else the last with the e-mail, else none |
| Detector.GoodAnswers | src/tools/refund.py:11-21 | Without an injected failure each tool answers with the row asked for, a refund of the rounded amount for that order, or the best articles |
| Detector.WrongAnswers | src/tools/refund.py:37-48 | A wrong result is about another customer or order, or half the amount for another order |
| Detector.WrongRowIsFirst | src/tools/order.py:108-110 | A wrong lookup answers with the first row of the table that is not the one asked for |
| Detector.DoubtfulAnswers | src/tools/order.py:95-105 | An ambiguous result repeats the request and gives no lifetime value, refund number or result count |
| Detector.FruitlessAnswers | src/tools/order.py:84-92 | A lookup that finds nothing repeats the request and says so |
| Tables.BuiltTablesAreWellFormed | src/tools/crm.py:23-47 | The tables the tools build meet the detector's assumptions |
| Tables.OrdersHaveCustomers | src/tools/order.py:42-75 | Every order's customer is in the customer table, and the identifiers count from CUST-0001 and ORD-1001 |
| Tables.RowsTakeTurns | src/tools/crm.py:23-47 | Tiers and order states take turns in the order of their lists |
| Detector.CrmWrongPayload | src/tools/crm.py:83-92 | The loop returns the first other profile, or the first one if there is no other |
| Detector.CrmSuccessDetected | src/tools/crm.py:50-67 | A crm payload without failure is usable exactly when the customer was found |
| Detector.CrmWrongDetected | src/tools/crm.py:83-92 | A wrong crm payload passes exactly when no id was asked for |
| Detector.OrderDetects | src/tools/order.py:84-110 | The same two facts for the order lookup |
| Detector.RefundWrongDetected | src/tools/refund.py:37-48 | A wrong refund passes exactly when the order id is empty |
| Detector.KbDetects | src/tools/kb_search.py:39-75 | Every knowledge-base payload is told apart |
| Csv.ReadAfterWrite | dashboard/src/features/experiments/export.ts:5-7 | The reader gives back any grid of non-empty rows, whatever the cells contain |
| Csv.FeedCell | dashboard/src/features/experiments/export.ts:5-7 | An escaped cell reads back as the cell |
| Csv.EscapeIsSparing | dashboard/src/features/experiments/export.ts:5-7 | A cell without quote, comma and line feed is written as it is |
| Csv.RowsToCsv | dashboard/src/features/experiments/export.ts:26-48 | The loop's text reads back as the header and the rows |
| SearchParams.ListRoundTrip | dashboard/src/features/clients/search-params.ts:57-58 | Joining and splitting gives back a list exactly when its parts are non-empty and comma-free |
| SearchParams.DecimalRoundTrip | dashboard/src/features/clients/search-params.ts:73-74 | A whole number reads back from its decimal digits |
| SearchParams.Build | dashboard/src/features/clients/search-params.ts:71-87 | The URL carries exactly the fields that differ from their defaults |
| SearchParams.NoFieldIsIdle | dashboard/src/features/clients/search-params.ts:71-87 | Every field of a built URL is needed: without it the value read is another |
| SearchParams.ParseAfterBuild | dashboard/src/features/clients/search-params.ts:52-87 | A value comes back exactly when it is in range |
| SearchParams.ParsedIsInRange | dashboard/src/features/clients/search-params.ts:16-29 | Any URL parses to a value in range |
| SearchParams.AnyUrl | dashboard/src/features/clients/search-params.ts:16-29 | Any URL gives a page from 1, 10 to 100 clients, no negative bound, one of the nine sort fields and two directions |
| SearchParams.EmptyUrl | dashboard/src/features/clients/search-params.ts:33-47 | A URL without parameters gives the page's defaults |
| SearchParams.NumbersGoWhereTheyBelong | dashboard/src/features/clients/search-params.ts:52-69 | A whole number in range is read into its own field and no other |
| SearchParams.RangesGoWhereTheyBelong | dashboard/src/features/clients/search-params.ts:52-69 | The same for the four bounds |
| SearchParams.TextsGoWhereTheyBelong | dashboard/src/features/clients/search-params.ts:52-69 | The same for texts and lists |
| SearchParams.OrderGoesWhereItBelongs | dashboard/src/features/clients/search-params.ts:52-69 | The same for sort field and direction |
| SearchParams.ParseBuildParse | dashboard/src/features/clients/search-params.ts:52-87 | Parsing, building and parsing again changes nothing, for every URL |
| SearchParams.ClientsUrlsSurvive | dashboard/src/features/clients/search-params.ts:16-29 | The same for the client list's own sort fields |
| SearchParams.ClientsComeBack | dashboard/src/features/clients/search-params.ts:52-87 | A client-list value comes back exactly when it is in range for its nine sort fields |
| ExperimentParams.NamesSurvive | dashboard/src/features/experiments/search-params.ts:25-44 | A selection comes back up to order exactly when it has no repetition or other members than the default |
| ExperimentParams.ThreeTimesOneArm | dashboard/src/features/experiments/search-params.ts:25-27 | Three times one arm is left out of the URL and comes back as the three default arms |
| ExperimentParams.ArmsAreGood | dashboard/src/features/experiments/search-params.ts:3-7 | The page's arms meet the assumptions of the round trip |
| ExperimentParams.RatesAreGood | dashboard/src/features/experiments/search-params.ts:4-7 | So do its failure rates |
| ExperimentParams.ListsInTheUrl | dashboard/src/features/experiments/search-params.ts:9-12 | A list of names is shown as it stands exactly if all are the page's arms, or rates, and otherwise gives way to the default |
| ExperimentParams.PageWithout | dashboard/src/features/experiments/search-params.ts:13-23 | A URL without parameters gives the page's defaults, and the ablation rate is one of the three |
| ExperimentParams.ParseBuildParse | dashboard/src/features/experiments/search-params.ts:29-44 | The same for all three parameters of any URL |
| ExperimentParams.PageUrlsSurvive | dashboard/src/features/experiments/search-params.ts:29-44 | For the page's own arms and rates, every URL: the ablation rate comes back, and each selection up to order exactly if it does not repeat the default's members |

## Left out

- Prompt text, LLM JSON extraction, telemetry and logging: the LLM may return any list of layers and any verdict, or fail.
- Regular expressions (entity extraction, redaction, injection filter): what they extract is an input.
- Response and escalation texts: nothing depends on them.
- Chroma, OpenAI, Stripe, Zendesk, FastAPI and LangGraph internals: tools and providers answer arbitrarily; memory retrieval is an arbitrary choice.
- Tools that raise: a dispatch always returns a result; failing vendor back ends return unsuccessful results.
- SHA-256 and its truncation: a hash function assumed to have no collision among the keys written.
- Embedding similarity, retrieval ranking, retention pruning and collection reset: no member needs them.
- Floating point: averages, confidence, amounts and clock readings are reals; rounding of refund amounts is a parameter.
- Python equality across types (True equals 1) in payload comparisons: values of different kinds differ.
- PolicyStore.PolicyMemory.WriteBack: names are Unicode text here; texts with unpaired surrogates are covered by PolicyKey.KeyTextIsInjective only. The stored timestamp is not modelled.
- Gateway.LLMProviderGateway.Call: one caller at a time; Callers and Fallback interleave the sections of concurrent calls, over one provider and over lists of them; models, clients and roles are then left out, and a provider without a client is one that fails before its slot.
- Service.TicketApi.SubmitTicket: one request at a time; interleavings are in Admission, Overlap and Retries.
- Admission: the response holds the fields of `TicketResponse`, with tool calls as names.
- Simulation.ProductionSimulatesResearch: one way to prepare parameters for both sides; OwnParameters has each with its own, on tools that ignore the difference.
- Detector.DetectorEqualsOracle: article scores are a parameter; the refund tool gets a text as its order id. In Tables, columns that no check reads are parameters or left out.
- Csv.RowsToCsv: cells are already formatted texts, and the header names are any names that need no quotes, as the fourteen in the source; records end in a line feed, so a carriage return is part of its cell.
- Csv: text is a sequence of Unicode characters, not of 16-bit units.
- SearchParams.ParseAfterBuild: numbers other than safe whole ones are known by the text JavaScript prints for them; reading such a text gives back the number it stands for (an assumption of ParseBuildParse only).
- The research-track variants `memory_augmented.py`, `static_react.py` and `langgraph_react.py`, and the LLM critic of `memoryless.py`, which takes "resolved" from the list of failed tools: other loops than the one production ports. MemoryLoop feeds both sides the same LLM and memory answers; what the retrieval puts into the prompts is left out.
- Markdown export, the other URL codecs, the React interface, statistics and dataset scripts: only easy members.
