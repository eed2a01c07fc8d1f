# Reconductor in Dafny

Reconductor is an orchestrator for authorized reconnaissance: it compiles a scope of regular-expression rules into
concrete targets, runs a workflow of capabilities over them with budgets and approvals, and hands work to queue
workers. This project models the parts whose correctness is not visible in one function body and proves what they
promise, over every input, every interleaving and every reachable state.

| area | modules | what is proved |
|---|---|---|
| workflow engine | `Graph`, `Json`, `Reading`, `Definition`, `Engine`, `Turns`, `Approvals`, `Progress`, `Resume`, `Waves`, `Refinement`, `Run`, `Budgets` | validation accepts exactly the sound definitions; bindings and conditions read what their texts say; every step of a run does what it is for, and no step starts without the approval it needs; the execution order is canonical; waves of any width refine one-at-a-time evaluation; runs make progress and end well; finished work and idempotency keys survive resumes |
| budget limiter | `Limiter` | counters are exact, limits hold, no wakeup is lost, in every interleaving |
| queue and worker | `Queue`, `Worker`, `Service`, `DeliveryGuarantees` | no job is lost or stranded, attempts are bounded, results stand for persisted successes, permanent failures are never retried, finished keys are not executed again |
| scope and its history | `Scope`, `ScopeHistory` | evaluation by the written rules, canonical compilation, and a history that never widens authorization silently |
| target planning | `Regex`, `Targeting`, `Plans`, `Filter` | enumeration of patterns is exact; plans hold exactly what the rules spell out and the scope allows, and are canonical; filters let through exactly what the scope allows |
| policy, assets, classifier | `Policy`, `Assets`, `Classifier`, `Observed`, `Scores` | budgets split safely, written windows are intervals on the week, changes are exactly what happened and patch one snapshot into the next, entries record exactly what was observed, scores grow monotonically |

`Order`, `Strings` and `Wrappers` hold sorting, string keys and optional values. `dafny verify dfyconfig.toml` checks
everything.

## How the code is represented

The engine is a state machine (`Engine`): a frame is its state between two effects, and a label carries what the
environment decides there: operator signals, approval answers, the executor's verdict, whether a save succeeded. A run
is any sequence of enabled labels. `Run.Runner.Execute` is the imperative engine, with its state object, wave planning,
unordered completion, rank sort and commits; its contract says that each execution is such a run, so the theorems about
runs apply to it. In the same way `Service.Cluster.Handle` follows the delivery protocol of `Worker` while every other
participant moves between its steps, and the classes `Limiter.Local`, `Queue.Streams` and `ScopeHistory.Store` are
proved against the transition functions that the protocol theorems are about.

SHA-256 appears as a function that does not collide where a theorem says so; fresh ids come from a counter; the order of Go
map iteration and of goroutine completion is an arbitrary choice, and results are shown not to depend on it.

Where documentation and code disagree the model follows the code. `docs/workflows.md` says that a succeeded step is
retained when its normalized input hash is unchanged; the code keeps a succeeded step whatever its input unless the step
opts into reruns (`internal/workflow/workflow.go:272`).

Some expected properties are false. For each the model has an input and the condition under which the code meets it:

- Not every listed string is matched in full by the scope (`Regex.LeftmostFirstIsNotMembership`): it is exactly if no
  entry, in preference order, follows an unanchored proper prefix of itself (`Regex.ListIsMatchedInFull`).
- A resumed run can plan a step together with its own dependency (`Waves.RerunBreaksAntichains`): never from a state
  that runs of this definition left behind, where no input is stale (`Waves.WavesAreAntichains`, `Waves.LivesAreAntichains`);
  otherwise only for a step that depends on a stale one without reading it (`Waves.RelatedStepsMayShare`); and where
  ready steps read finished steps only, exactly if two related steps would start in the state before the wave
  (`Waves.SettledWavesAreExact`).
- A key with a persisted success can be executed again (`DeliveryGuarantees.OverwrittenSuccessRunsAgain`): exactly if it
  is checked when no row of it has a success as its last write (`DeliveryGuarantees.FinishedKeysStayFinished`).
- The score of an endpoint can depend on the order of observations (`Scores.FirstObservationDecides`): with separator-free
  sources it does exactly if the URLs that come first differ in weight (`Scores.OrderMattersByUrlWeight`).
- Two signals can share a key (`Classifier.SeparatorsMergeSignals`): only with a separator in the value of one and in the
  source of the other (`Classifier.KeysAreTriples`).
- Idempotency keys need hashes of one length (`Resume.KeysNeedFixedLength`), and the limiter needs distinct hosts
  (`Limiter.RepeatedHostsOverrun`).
- A program without any recorded version would accept its first scope unseen (`ScopeHistory.FirstVersionIsTrusted`).

Three remarks follow from the decision function by cases: `Policy.DeniedUnlessGranted` says field by field what gets an
action past every denial, `Policy.DecisionsAreMonotone` that opening a policy, asking for less or approving never makes
a decision stricter, and `Policy.HighRiskNeedsApproval` that no policy field stands in for the approval of a high-risk
action.

## Model

| member | source | states |
|---|---|---|
| `Graph.TransitivelyDependsOn` | internal/workflow/workflow.go:210-226 | the search with its shared `seen` map answers exactly whether a path of at least one dependency edge leads to the source |
| `Graph.CheckAcyclic` | internal/workflow/workflow.go:168-191 | the depth-first check succeeds exactly on graphs in which no step reaches itself, in whichever order the roots are taken |
| `Graph.TopologicalOrders` | internal/workflow/workflow.go:717-746 | on a closed acyclic graph the order contains every id once, after all of its dependencies |
| `Graph.TopologicalCanonical` | internal/workflow/workflow.go:717-746 | graphs with the same edges have the same order, however their dependency lists are written |
| `Graph.TopologicalSort` | internal/workflow/workflow.go:717-746 | the imperative sort computes that order |
| `Definition.Validate` | internal/workflow/workflow.go:119-208 | no error exactly when ids are unique, steps well formed, references resolved, dependencies acyclic and every binding and condition source a transitive dependency |
| `Definition.ExecutionOrderCanonical` | internal/workflow/workflow.go:717-746 | definitions with the same steps up to the order of steps and of dependency lists run in the same order |
| `Json.ReadBinding` | internal/workflow/workflow.go:656-713 | the loop over a binding path and its failures compute the denotation that `ArrayPathsCollect`, `Reading.PlainBindings` and `Reading.ArrayBindings` characterise |
| `Json.ArrayPathsCollect` | internal/workflow/workflow.go:669-705 | a path `name[].a.b` gives, in order, what the items of the array have at `a.b`, through objects and strings that hold JSON objects, and is broken exactly without such an array |
| `Reading.ItemFields` | internal/workflow/workflow.go:683-699 | one array item at a field: that of an object, or of the object that a string item decodes to, and nothing else |
| `Reading.PlainBindings` | internal/workflow/workflow.go:657-713 | a binding `id.output.a.b` along which no value is an array gives the value that descending field by field reaches, and is broken exactly if there is none; it is left alone for a skipped source without output |
| `Reading.ArrayBindings` | internal/workflow/workflow.go:657-705 | a binding `id.output.name[].a.b` gives what the items of that array have at `a.b`, and is broken exactly without the array |
| `Reading.InputsAreOverridden` | internal/workflow/workflow.go:651-716 | the input is the literal object with exactly the assigned fields put over it, and exists exactly if no binding is broken |
| `Reading.SuccessConditions` | internal/workflow/workflow.go:613-615 | `success:id` holds exactly if the step succeeded |
| `Reading.ChangedConditions` | internal/workflow/workflow.go:616-623 | `changed:id` holds exactly if the output is an object whose `changes` is an array with an item |
| `Reading.NonemptyConditions` | internal/workflow/workflow.go:624-648 | `nonempty:id.output.a.b` holds exactly if descending along the fields reaches a value other than null, the empty string and the empty array |
| `Reading.BareNonemptyPanics` | internal/workflow/workflow.go:624-630 | `nonempty:id` without a second part panics exactly once the output of the step parses |
| `Reading.WrittenBindings` | internal/workflow/workflow.go:151-159 | a written binding is accepted exactly with three parts or more of which the second is `output`, and reads the step that the first names |
| `Reading.WrittenConditions` | internal/workflow/workflow.go:140-142 | the supported conditions are the empty one and those of the three kinds |
| `Reading.SourcesAreNamed` | internal/workflow/workflow.go:192-206 | the steps that a step reads are those that its bindings name and, with a condition, the one that it names |
| `Json.AssignBindings` | internal/workflow/workflow.go:651-716 | assigning bindings in any map order gives one input, or fails exactly if some binding is broken |
| `Json.ReadsOnlySources` | internal/workflow/workflow.go:603-716 | input and condition depend on nothing but the states of the binding and condition sources |
| `Run.ExecuteStep` | internal/workflow/workflow.go:485-532 | only retryable failures are retried, up to the attempts that the step allows and at least one; the verdict is that of the last call |
| `Run.SortOutcomes` | internal/workflow/workflow.go:395-396 | whatever order a wave finishes in, its outcomes are committed in the order in which they were planned |
| `Run.Runner.PlanWave` | internal/workflow/workflow.go:319-387 | planning a wave is a run of examine steps of the machine, each of which `Turns.TurnsAreTaken` and `Approvals.ApprovalsAreRespected` describe, ending in a started wave, the loop head or a return |
| `Run.Runner.CommitWave` | internal/workflow/workflow.go:397-430 | committing sorted outcomes is a run of commit steps of the machine, with the first primary failure kept |
| `Run.Runner.Execute` | internal/workflow/workflow.go:227-444 | every execution of the engine is a run of the state machine from a fresh or resumed state to its return, unless the first save fails |
| `Turns.RunsStartSo` | internal/workflow/workflow.go:253-278 | a fresh run starts with nothing, a resumed one with the earlier state, the steps that need not run again finished, and an event for each of them |
| `Turns.PollsAreObeyed` | internal/workflow/workflow.go:284-317 | in every run an iteration ends as completed, cancelled, paused or stuck in that order of precedence, and otherwise goes on with exactly the steps that can start, in the planned order |
| `Turns.TurnsAreTaken` | internal/workflow/workflow.go:321-382 | in every run a ready step keeps its result, is skipped, blocked or planned, or ends the run, exactly by its input, its earlier result and its condition; a new step run has its own key, input and hash, and a plan the input and the provider |
| `Turns.CommitsAreRecorded` | internal/workflow/workflow.go:397-430 | in every run committing an outcome records its status, output, error and attempts for that step and no other, with one event; the first primary failure stays and only a change report with output replaces the summary |
| `Turns.WavesEnd` | internal/workflow/workflow.go:431-441 | in every run a cancelled or interrupted wave cancels the run, one with a primary failure fails it at that step, and any other leads back to the head of the loop |
| `Turns.PlanningEnds` | internal/workflow/workflow.go:383-394 | in every run planning ends when no ready step is left or the wave is full, and is carried out only if it could be saved |
| `Approvals.ApprovalsAreRespected` | internal/workflow/workflow.go:346-378 | in every run a step that itself or whose manifest asks for approval starts only if it is granted, waits if nobody can be asked, and ends the run, untouched, if it is rejected or the question fails; one that does not ask starts and is never blocked |
| `Approvals.OnlyApprovedStepsRun` | internal/workflow/workflow.go:346-378 | at every point of every run, fresh or resumed, a planned step that asks was granted approval before, and a blocked one asks and nobody can be asked |
| `Progress.RunsEndWell` | internal/workflow/workflow.go:284-317 | in every run of a validated definition "no runnable steps" never happens, a completed run leaves every step succeeded or skipped, and an approval pause leaves only steps that are blocked or wait for a blocked one |
| `Progress.IterationsSettle` | internal/workflow/workflow.go:284-442 | unsettled steps strictly decrease with every iteration that does not return, and never go below zero |
| `Resume.ResumesKeepWork` | internal/workflow/workflow.go:266-277 | over any number of resumes, crashes included and each with a definition of its own, a succeeded step that none of them reruns keeps its state to the last field and is never started again |
| `Resume.KeysInjective` | internal/workflow/workflow.go:580-583 | within a run, equal idempotency keys mean equal step and input hash, for hashes of one length whose keys do not collide |
| `Resume.KeysNeedFixedLength` | internal/workflow/workflow.go:580-583 | without that length two different steps share a key |
| `Resume.AttemptIdentity` | internal/workflow/workflow.go:585-591 | a new attempt keeps key and step-run id exactly when its input is the previous one, unless the hashes of these two inputs or of their keys collide |
| `Resume.KeysInRuns` | internal/workflow/workflow.go:580-591 | in every run each step state carries the key of its own input and step-run ids stay distinct |
| `Waves.WavesAreAntichains` | internal/workflow/workflow.go:300-382 | no two steps of a wave depend on each other, and all their transitive dependencies are done, at every point of every fresh run and every resume, reruns included, from a state whose done steps follow from those before them and none of whose succeeded steps has a stale input |
| `Waves.RunsKeepDoneSteps` | internal/workflow/workflow.go:325-344 | every run, fresh or resumed, keeps the status and output of every step that was done before it, and leaves no stale inputs |
| `Waves.SkipsAreStable` | internal/workflow/workflow.go:336-345 | after a fresh run and over any number of resumes of one definition a skipped step is skipped again and a succeeded one keeps its output, with no assumption on the states in between |
| `Waves.LivesAreAntichains` | internal/workflow/workflow.go:300-382 | after a fresh run and any resumes of one definition every wave of the next resume is an antichain |
| `Waves.RerunBreaksAntichains` | internal/workflow/workflow.go:270-277 | a state that an earlier definition left with a stale input, from which a run plans a step and its dependency in one wave |
| `Waves.WaveStepsReadNoOther` | internal/workflow/workflow.go:319-382 | on every run, from any previous state, no step of a wave reads another step of that wave |
| `Waves.RelatedStepsMayShare` | internal/workflow/workflow.go:319-382 | related steps of the first wave of a resume, from a dependency-closed state whose skips still hold, are a ready step and a succeeded rerun step that it depends on without reading it and that is stale or depends on a stale one |
| `Waves.SettledWavesAreExact` | internal/workflow/workflow.go:319-382 | as far as ready steps read finished steps only and the width admits them, the first wave of a resume holds exactly the steps that would start in the given state, so it has related steps exactly if two such steps are related |
| `Refinement.EvaluationEquation` | internal/workflow/workflow.go:594-716 | one-at-a-time evaluation is a fixed point: each step's result follows from the final states of the others |
| `Refinement.WavesRefineSequential` | internal/workflow/workflow.go:284-443 | a fresh benign run, for every width and completion order, ends completed or paused exactly if sequential evaluation meets no fault, and then every step has that evaluation's status and output |
| `Refinement.WidthDoesNotMatter` | internal/workflow/workflow.go:279-282 | two such runs with different widths end alike with the same statuses and outputs |
| `Budgets.WavesStayWithinBudget` | internal/workflow/workflow.go:391-393 | in every run of an engine as wide as the policy's parallelism, the shares of a started wave add up to at most each positive limit and are at least one |
| `Limiter.Local.Normalize` | internal/budget/limiter.go:178-191 | sorted, distinct, non-empty, and exactly the folded hosts |
| `Limiter.Local.TryAcquire` | internal/budget/limiter.go:53-86 | the critical section grants a lease exactly when program, provider and every host have a free slot, and otherwise changes nothing |
| `Limiter.Local.ReleaseLease` | internal/budget/limiter.go:66-83 | the first call gives every slot back and closes the channel; later calls change nothing |
| `Limiter.NextAccounts` | internal/budget/limiter.go:53-95 | every step of every client keeps each counter equal to the number of live leases naming its key, absent at zero and within its limit |
| `Limiter.LimiterSafety` | internal/budget/limiter.go:40-110 | in every interleaving the accounts are exact and no client is parked on the open channel with an admissible request |
| `Limiter.IdleAdmitsAll` | internal/budget/limiter.go:40-51 | with no live lease every request is admissible |
| `Limiter.SleepersHaveAHolder` | internal/budget/limiter.go:79-92 | a client parked on the open channel waits for a lease that someone holds and whose release wakes it |
| `Limiter.RepeatedHostsOverrun` | internal/budget/limiter.go:178-191 | without distinct hosts one request could exceed the host limit |
| `Queue.DelayBounds` | internal/queue/streams.go:129-133 | retry delays never shrink and lie between the base and 1024 times the base |
| `Queue.FailuresAreSorted` | internal/queue/streams.go:129-157 | a failure that is permanent or has no attempt left is a dead letter with its attempt counted and leaves the retry set alone; any other one waits the base, doubled with each attempt up to the eleventh, and leaves the dead letters alone |
| `Queue.Streams.Read` | internal/queue/streams.go:92-101 | delivers the oldest undelivered entries in order, as many as asked for, each pending for this consumer |
| `Queue.BatchIsNextByNext` | internal/queue/streams.go:92-101 | a batch is delivered one next message after the other, as the protocol delivers single ones |
| `Queue.Streams.ClaimStale` | internal/queue/streams.go:102-111 | takes over exactly the stale pending messages whose entries still exist, forgets the stale ones whose entries are gone, and leaves the others to their consumers |
| `Queue.Streams.Fail` | internal/queue/streams.go:129-157 | a failed delivery leaves the stream, for the retry set with its doubled wait if it may be retried and attempts are left, and for the dead letters with its attempt counted otherwise |
| `Queue.Streams.DueJobs` | internal/queue/streams.go:158-162 | the earliest due retries, as many as the limit allows |
| `Queue.Streams.PumpRetries` | internal/queue/streams.go:158-180 | due items leave the retry set for the end of the stream, one transaction at a time and in their order; a failure leaves exactly the rest waiting |
| `Queue.Streams.RetryDeadLetter` | internal/queue/streams.go:187-209 | a fresh copy with attempt 0, due now and otherwise the same, is enqueued before the dead letter is removed |
| `Worker.SoundStep` | internal/queue/streams.go:70-209 | every step of every participant keeps deliveries equal to the entries they came from and message ids unique |
| `DeliveryGuarantees.NoJobIsLost` | internal/queue/streams.go:70-209 | under any interleaving of consumers, stolen leases, pumps, replays and crashes an enqueued job is in the stream, the retry set, an unreplayed dead letter or the results |
| `DeliveryGuarantees.NoJobIsStranded` | internal/queue/streams.go:92-111 | every stream entry is still to be delivered or pending, where any consumer can claim it |
| `DeliveryGuarantees.AttemptsAreBounded` | internal/queue/streams.go:129-157 | for jobs enqueued at attempt 0, queued and retrying jobs stay within the retry limit, dead letters carry 1 to one more than it, and nothing is delivered before it is due |
| `DeliveryGuarantees.FailuresAreEarned` | internal/queue/streams.go:129-157 | at every point of every run each waiting job was put there by a retryable failure with an attempt left, due after its doubled wait, and each dead letter by a permanent failure or one with no attempt left |
| `DeliveryGuarantees.PermanentFailuresAreFinal` | internal/worker/service.go:156-188 | in every run a delivery that was refused or failed for good goes to the dead letters when its failure is reported, however many steps of others lie between, and the retry set stays as it was |
| `DeliveryGuarantees.RetryableFailuresWait` | internal/worker/service.go:185-203 | in every run one that failed otherwise or lost its artifact waits its doubled delay as long as attempts are left |
| `DeliveryGuarantees.ResultsArePersisted` | internal/worker/service.go:148-215 | every published result stands for a key whose success had been persisted, whatever crashed in between |
| `DeliveryGuarantees.FinishedKeysStayFinished` | internal/worker/service.go:148-155 | from any moment on the provider of a key runs for no other delivery than those that had passed the check, exactly as long as every check of the key finds a persisted success |
| `DeliveryGuarantees.SuccessIsLastWrite` | internal/worker/service.go:148-155 | a check finds a success exactly if some row of the key has one as its last write |
| `DeliveryGuarantees.OverwrittenSuccessRunsAgain` | internal/worker/service.go:148-155 | a run in which a workflow save overwrites the persisted success and a second delivery of the key executes the provider again |
| `Service.Cluster.Handle` | internal/worker/service.go:128-216 | handling any received delivery, with everybody else moving in between, is a run of the protocol along one of its paths, those included whose last transaction fails; its message is then answered, waiting for a retry, dead, or still pending, as the outcome says |
| `Service.Cluster.Consume` | internal/worker/service.go:97-127 | one turn of the worker's loop claims stale deliveries, reads at most one new one, and handles each of them along a path that ends as its outcome says |
| `Scope.CompileRules` | internal/scope/scope.go:113-138 | the distinct enabled rules in id order; it fails exactly when one of them does not compile |
| `Scope.CompiledCanonical` | internal/scope/scope.go:113-138 | permuting, repeating or adding disabled rules changes nothing |
| `Scope.Compile` | internal/scope/scope.go:96-111 | fails exactly without enabled include rules or with a rule that does not compile |
| `Scope.Evaluate` | internal/scope/scope.go:197-284 | the reason that the target deserves by its protocol, host, effective port and effective path under the rules' own four expressions, with the ids of the rules that agree in all four; `no_matching_include` is never the reason |
| `Scope.AllowsByTheRules` | internal/scope/scope.go:197-284 | allowed exactly if the URL is http or https with a host, some include rule agrees with its protocol, host, effective port and effective path, and no exclude rule does |
| `Scope.DesertIsUnique` | internal/scope/scope.go:239-253 | a target deserves one reason only |
| `Scope.CompiledRulesAreWritten` | internal/scope/scope.go:113-172 | the compiled rules are exactly the enabled ones with trimmed expressions, a lower-case host, and empty ones standing for anything |
| `Scope.MismatchReason` | internal/scope/scope.go:239-253 | each reason exactly for the number of leading aspects that some rule matches |
| `Scope.NarrowingIsSafe` | internal/database/store.go:230-234 | no added include digest and no removed exclude digest means nothing new is allowed |
| `ScopeHistory.ComputeDifference` | internal/database/store.go:215-229 | the sorted elements of one list that the other lacks |
| `ScopeHistory.DifferenceMembers` | internal/database/store.go:215-229 | membership in both directions, order, and emptiness exactly for inclusion |
| `ScopeHistory.NoExpansionIsNarrower` | internal/database/store.go:230-234 | against an earlier version, no expansion is flagged exactly when the new rules are narrower |
| `ScopeHistory.Store.CheckAndRecord` | internal/database/store.go:99-161 | compares with a latest eligible version, keeps everything on a conflict but a missing acknowledgement, and updates the program only when acknowledged |
| `ScopeHistory.VerdictsAreFair` | internal/database/store.go:230-234 | a changed scope goes ahead exactly if it is the first, narrower than the previous one, or acknowledged; the change lists exactly what came and went |
| `ScopeHistory.SubmissionsAreWritten` | internal/database/store.go:116-150 | an unchanged plan writes nothing; any other writes its version once, or its acknowledgement on the version that is there, and becomes the program's scope exactly if it is accepted |
| `ScopeHistory.HistoriesAreSafe` | internal/database/store.go:99-161 | every eligible version, every scope that went ahead and the program's own scope is narrower than one that a human accepted |
| `ScopeHistory.NeverWidensSilently` | cmd/platform/main.go:515-521 | over every sequence of compiled and submitted scopes, a URL allowed by one that a run went ahead with is allowed by one that a human accepted, given injective digests |
| `ScopeHistory.PlanDigestsDetermineRules` | internal/targeting/plan.go:385-390 | plans with one digest come from scopes with the same rules |
| `ScopeHistory.FirstVersionIsTrusted` | internal/database/store.go:113-115 | against an empty table any scope goes ahead without acknowledgement |
| `Regex.Enumerate` | internal/targeting/plan.go:276-325 | the recursive enumerator with its early exits computes the enumeration function |
| `Regex.EnumerationIsBounded` | internal/targeting/plan.go:276-325 | at most `limit` strings |
| `Regex.EnumerationIsMonotone` | internal/targeting/plan.go:276-325 | a larger limit lists the same strings |
| `Regex.EnumerationIsComplete` | internal/targeting/plan.go:276-325 | every substring that the pattern can match is listed |
| `Regex.EnumerationIsSound` | internal/targeting/plan.go:276-325 | with anchors at the outer ends every listed string is matched wherever it stands at those ends |
| `Regex.EnumerationIsExact` | internal/targeting/plan.go:276-325 | the list is the language of the pattern |
| `Regex.EnumerationDecidesFull` | internal/scope/scope.go:285-288 | for every finite pattern, a string is matched in full exactly if it is listed and is an entry that no unanchored proper prefix of it precedes |
| `Regex.EndsArePreferred` | internal/scope/scope.go:285-288 | leftmost-first matching anywhere in a string is trying the entries of the pattern in their order |
| `Regex.ListIsMatchedInFull` | internal/targeting/plan.go:276-325 | with anchors at the outer ends the whole list is matched in full exactly if no entry follows an unanchored proper prefix of itself |
| `Regex.PrefixFreeIsMatched` | internal/targeting/plan.go:276-325 | a list without proper prefixes is exactly what the scope matches in full |
| `Regex.LeftmostFirstIsNotMembership` | internal/scope/scope.go:285-288 | `http` or `https` as parsed, with the common prefix factored out, lists `https` and does not match it in full |
| `Regex.LongerFirstIsMembership` | internal/scope/scope.go:285-288 | `https?` lists the same strings in the other order and matches both |
| `Targeting.PortIsRecovered` | internal/targeting/plan.go:363-373 | re-deriving the port inverts the elision of default ports |
| `Targeting.EndpointUrlInjective` | internal/targeting/plan.go:363-373 | for one path a printed endpoint URL stands for one host, protocol and port, if printing and parsing agree on endpoint URLs |
| `Targeting.ProtocolsAgreeWithScope` | internal/targeting/plan.go:235-247 | the planner overlooks no protocol that the scope matches, and a listed one is matched exactly if no unanchored proper prefix of it is preferred |
| `Targeting.MakePlan` | internal/targeting/plan.go:80-174 | a plan of the scope, or an error exactly if some manual root has no valid host or no reason |
| `Plans.SeedsAreTheProposals` | internal/targeting/plan.go:90-130 | a plan has a seed for every exact host and path pattern for which an include rule names a start path, a protocol and a port with an allowed URL, and no other; it holds all these URLs and rule ids, each once and in order, and nothing else |
| `Plans.ExactByLanguage` | internal/targeting/plan.go:208-215 | a host is exact exactly if the pattern's language is one string that is a host name; the start path is the root where the pattern matches it, and otherwise the only string of its language if that is absolute |
| `Plans.InfiniteIsNotExact` | internal/targeting/plan.go:327-340 | a pattern that is not enumerated names no host, and no start path but the root |
| `Plans.RootsAreDerivedOrManual` | internal/targeting/plan.go:131-159 | the discovery roots are exactly the base domains of wildcard rules and the manual roots, each domain once, with the ids of all its rules, manual before derived and the last reason given |
| `Plans.PlanAllowsWhatRulesName` | internal/targeting/plan.go:90-104 | the allowed protocols and ports are exactly those that some include rule names |
| `Plans.PlanWarnsOfTheRest` | internal/targeting/plan.go:93-140 | a wildcard for every rule with a base domain, and a warning exactly for every part of a rule that names nothing |
| `Plans.PlansAreInOrder` | internal/targeting/plan.go:427-445 | every list of a plan is in order |
| `Targeting.ActiveUrlsAreAllowed` | internal/targeting/plan.go:114-134 | every active URL of a plan is allowed by the whole scope |
| `Targeting.PassiveRootsAddNothing` | internal/targeting/plan.go:136-159 | manual roots and wildcard rules add no active URL |
| `Targeting.PlanIsCanonical` | internal/targeting/plan.go:160-174 | a scope has one plan, whatever the iteration order of the maps it was collected in |
| `Targeting.PlanIgnoresRuleOrder` | internal/targeting/plan.go:427-445 | permuting or repeating scope rules does not change the plan |
| `Filter.Dedupe` | internal/providers/command/command.go:391-402 | in place, the front of the buffer becomes the list without adjacent repetitions |
| `Filter.CollapsedIsDistinct` | internal/providers/command/command.go:391-402 | of a sorted list that leaves each item once, still sorted |
| `Filter.AuthorizeHost` | internal/targeting/filter.go:97-139 | accepted exactly when a proposed URL is allowed; all such URLs, the rules behind them, and the reason otherwise |
| `Filter.AuthorizedByTheRules` | internal/targeting/filter.go:97-139 | a host is authorized by exactly the allowed URLs of a protocol, port and start path that an include rule names whose host expression matches it |
| `Filter.FilterDiscoveredHosts` | internal/targeting/filter.go:35-63 | exactly the authorized hosts, all URLs that authorize them, and every other entry among the filtered |
| `Filter.FilterUrls` | internal/targeting/filter.go:65-95 | exactly the allowed URLs, each once, every other entry among the filtered |
| `Filter.FilterRecords` | internal/providers/command/command.go:323-389 | exactly the authorized records, as often as they come and in target order; accepted targets and URLs are exactly what these records contribute, each once, and all URLs are allowed |
| `Filter.AcceptedPortsAreAllowed` | internal/providers/command/command.go:352-380 | a port record is accepted only if an allowed URL of its host uses that very port |
| `Policy.WavesKeepWithinBudget` | internal/policy/policy.go:227-256 | up to the program parallelism, n shares stay within each positive limit, each is at least one, and no larger ones would fit |
| `Policy.ParallelismIsTight` | internal/policy/policy.go:236-246 | the shares of n steps fit exactly if n is at most the program parallelism, given a positive concurrency; without one the parallelism is one |
| `Policy.WindowsAreIntervals` | internal/policy/policy.go:153-221 | every window that parses is open on an interval modulo one day or, with a weekday, modulo one week, across midnight and from Saturday into Sunday |
| `Policy.WindowsAreRead` | internal/policy/policy.go:153-200 | a text parses to a window exactly if it is written as one: an optional weekday by its name, two clock readings around the first dash that differ, and UTC |
| `Policy.WrittenWindowsAreOpen` | internal/policy/policy.go:153-221 | a window that is written from one time to another is open exactly from the first to the second, modulo one day or, from its weekday on, modulo one week |
| `Policy.WithinScanWindows` | internal/policy/policy.go:130-145 | open exactly when a window contains the instant and every window up to it parses |
| `Policy.Evaluate` | internal/policy/policy.go:70-128 | the checks in their order decide as the grounds for denial say, together |
| `Assets.LastStateWins` | internal/assets/changes.go:67-73 | the index holds for each key the last state that has it |
| `Assets.Compare` | internal/assets/changes.go:29-66 | one change for each key that changed and no other, sorted by kind and value |
| `Assets.ChangesSayWhatHappened` | internal/assets/changes.go:29-80 | the changes are exactly the new assets, those whose metadata differ as values, and the vanished ones whose source's last coverage entry is successful and complete |
| `Assets.ChangesAreListed` | internal/assets/changes.go:59-64 | by the names of the kinds, and within a kind by value |
| `Assets.ChangesPatchPreviousToCurrent` | internal/assets/changes.go:29-66 | replaying the changes gives the current index up to equal metadata, plus exactly the vanished assets whose source was not completely covered; with separator-free types the entries under one key are one asset |
| `Classifier.Classify` | internal/intelligence/classifier.go:93-131 | fails exactly if some record cannot be read, and otherwise has observed all of them, so that the laws below are about its result |
| `Observed.EntriesRecordTheirObservations` | internal/intelligence/classifier.go:103-313 | one entry for each endpoint that was observed, whose facts, labels and changes since earlier records are exactly those that its observations tell |
| `Observed.MarksAreTold` | internal/intelligence/classifier.go:194-282 | an observation's labels and signals are exactly those of its status, technologies, redirect, header, method, content type, referring script, schemas, history and URL words |
| `Observed.SignalsAreTold` | internal/intelligence/classifier.go:194-313 | every signal of an entry is told by one of its observations, and every one that is told is there or shares its key with one that is |
| `Observed.ConfidenceIsRounded` | internal/intelligence/classifier.go:331-344 | the confidence of the best source, five hundredths for every further source and three for every signal of positive weight, at most 0.99, rounded to the nearest hundredth |
| `Classifier.CoveringIsMonotone` | internal/intelligence/classifier.go:315-345 | more information never lowers score or confidence |
| `Classifier.AppendingNeverLowers` | internal/intelligence/classifier.go:93-131 | an appended record drops no signal, lowers no score or confidence, and leaves other endpoints alone |
| `Classifier.DuplicatesChangeNothing` | internal/intelligence/classifier.go:194-254 | appending a copy of a record changes nothing |
| `Classifier.ScoreCountsDistinctSignals` | internal/intelligence/classifier.go:265-361 | the signals that the score adds up are exactly those that the endpoint's observations say, one for each key, a change only if one of them differs from an earlier record |
| `Classifier.OrderDoesNotMatter` | internal/intelligence/classifier.go:93-361 | score and confidence do not depend on the order of tokens, nor on the order or repetition of observations while the same endpoint comes first |
| `Scores.ScoreSplits` | internal/intelligence/classifier.go:93-131 | the score is the weight of the first URL once for each source, beside signals that do not depend on which URL came first, given separator-free sources |
| `Scores.OrderMattersByUrlWeight` | internal/intelligence/classifier.go:93-361 | two orders of the same observations score alike exactly if the URLs that come first have one weight, and otherwise differ by that difference for each source |
| `Scores.FirstObservationDecides` | internal/normalize/url.go:72-126 | `/1234` and `/Admin-0123456789ab` share a route and a digest, and the endpoint scores two more for each source if the second is observed first |
| `Classifier.KeysAreTriples` | internal/intelligence/classifier.go:354-361 | two different signals share a key only with a separator in the value of one and in the source of the other |
| `Classifier.SeparatorsMergeSignals` | internal/intelligence/classifier.go:354-361 | two records of one endpoint, one with a separator in a technology and one with it in its source, of whose two signals classification keeps at most one |

## Left out

- Run.ExecuteStep: backoff durations, attempt timeouts, budget leases and the wall clock are not modelled; waiting and cancellation are arbitrary choices, so the uncapped backoff shift cannot overflow here.
- Run.Runner.Execute: the operator controls object is the environment's choice of a signal at each poll; timestamps, messages and the `Summary` of events are dropped; the save after planning always takes place, since every examined step changes the state.
- Json.AssignBindings: raw messages are JSON values up to their text, so the input hash is a hash of the value; a literal `null` input, where assigning a binding panics, is reported as that panic even if a binding is also broken, where the code's answer depends on map order.
- Refinement.WavesRefineSequential: steps whose run ends with a broken binding or a panicking condition are covered only as to how the run ends, since such a run stops in the middle of a wave.
- Worker.SoundStep: the events stream, idle times and the decoding of payloads are dropped; any pending message may be claimed at any time, which includes every real schedule.
- DeliveryGuarantees.ResultsArePersisted: it assumes that jobs carry the idempotency key of their step run, as the engine creates them; providers are taken to echo the request id, as all of them do.
- Targeting.EndpointUrlInjective: printing and parsing of URLs are library functions; that they agree is assumed, of endpoint URLs only.
- Service.Cluster.Handle: a transaction that takes place although its reply is lost counts as one that took place; the lease timer is not modelled, and lease refreshes are steps of the environment.
- Service.Cluster.Consume: the loop around a turn, its timing and its cancellation are arbitrary choices; any pending message counts as stale.
- Scope.CompileRules: rule ids are 16 hex digits of a digest and are assumed not to collide within one scope.
- Regex.Enumerate: parsing and simplifying patterns is library code; case-folded literals are treated as refused operators, although the code enumerates them without the folding.
- Targeting.MakePlan: a plan's digest, warning texts and the host name grammar are not modelled.
- Plans.SeedsAreTheProposals: that normalised host names contain no NUL is assumed, as their grammar has none.
- Filter.FilterDiscoveredHosts: the list of all decisions in input order and the counts are left out; the filtered entries and the accepted ones are kept.
- Filter.FilterRecords: the reason copied into a refused port record is left out, and so is the stability of the final sort among equal targets.
- Policy.Evaluate: reason texts are left out, and `clockMinute` is a function with values within a day.
- Assets.Compare: changes that agree in kind and value but differ in asset type come in an unspecified order, as in the code, where it depends on map iteration.
- Classifier.Classify: reading a provider record into method, status, technologies and confidence, URL normalisation and tokenisation are functions; an aggregate is a value and not an object updated in place, and the final sorting of its lists, the `multi_source` label and the cut at score 2 are dropped.
- The persistence layer beyond scope versions and step-run rows, the console, configuration, migrations, artifact storage, redaction and the provider command runner are input and output around these parts.
- Host extraction from workflow input, URL normalisation and finding lifecycles would add members whose statements repeat their bodies.
