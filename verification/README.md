# Verified model of an in-place pod resizer

The project models an operator that resizes the requests of running pods. Three parts are covered.

- **The resize policy.** Usage times headroom is rounded up, quantised to 50m or 64Mi in the direction of the change,
  passed through a percent and an absolute deadband, moved into bounds, and clamped to the limit (or the limit follows the
  request). A pod whose quality-of-service class would change is refused, except that a Burstable pod that would become
  Guaranteed is repaired by lowering one request. `Rounding`, `ResourceStep` and `PolicySpec` define what is computed;
  `Resources`, `PodHash` and `Policy` hold the loops and in-place edits and are proved against those definitions.
  `PolicyMeaning`, `ContainerMeaning` and `PlanExact` say in the fields of the policy, without those definitions, what an
  evaluation has to answer, and prove that it is exactly that. `ClosedLoop`, `QoSSafety`, `PolicyLaws`, `RepairLaws`,
  `MachineArithmetic` and `MachineSums` prove the laws, and `SmallPods` shows pods on which an effect of the arithmetic
  reaches the result of a whole evaluation.
- **The worker pool of one run.** `WorkerPool` is a transition system: a producer, workers with one program counter each,
  a token channel, a reserve/commit/release budget, a cancellable context and shared counters; API outcomes and scheduling
  are arbitrary. `PoolInvariant` proves what every step keeps, `PoolTheorems` what holds of every run, `PoolAnswers` how the
  answers that a worker gets decide what becomes of its pod, `PoolAccounts` what the aggregates and the cancellation stand
  for, `BudgetCap` when the configured maximum is a hard cap for all candidates. `Budget` and `RunState` are the shared
  variables as classes and the code of a worker on them, step by step and as the program text has it. `PolicyRun` puts the
  policy into the pool, `Directions`, `OpposingPods` and `PolicyCap` decide for each policy whether the maximum is a hard
  cap, and `Selection` picks the candidates.
- **The state kept across runs.** `MergePatch` and `Stabilization` follow the cooldown and pending annotations of a pod over
  any number of runs, `PolicyVisits` and `SwingingVisits` put the policy behind the gate; `Capability` follows the cached
  capability answer.

Reading aids: quantities are integers (milli-cores for CPU, bytes for memory), and a request that is absent differs from
one that is zero. Times are integers.

Findings. These follow from the code as it is written and are stated as theorems with exact conditions where one exists.

- Under constant usage with scaling down, a request can swing forever between two multiples of the step, exactly under
  `ClosedLoop.NeverRestsExact`. With the default thresholds and no minimum change above a step it does so from every start outside
  the deadband of a target that is off the grid and below five steps; `SmallPods.PodSwingsForever` has the pods.
- The configured maximum increase is exceeded when a negative reservation is released after other resizes used its room. For a
  policy and pods of bounded size it is a hard cap exactly with one worker, without a maximum, when the policy never lowers the
  resource, or when all but one of the allowed resizes cannot rise above it together (`PolicyCap.CapExact`).
- A resource that is bounded but not managed is still moved into its bounds, which makes a Guaranteed pod under EqualRequests
  refuse every resize while that resource is outside them (`QoSSafety.RefusalExact`).
- A repaired pod can move again on the next evaluation of the same usage: `RepairLaws.RepairedOutputExact` has the condition,
  `SmallPods.RepairedPodMoves` a pod.
- A pod that swings is not calmed by cooldown and stabilization: it is resized once per cooldown and window, for ever
  (`SwingingVisits.ResizedForEver`).
- When the annotation patch of a resize fails, the cooldown after it is lost, but never the stabilization window
  (`PolicyVisits.PacedRegardlessExact`).
- With a stabilization window, the hash recorded as applied last is never applied again while it stays the target. When the patch
  of a later resize failed, that locks the pod out of a target it does not have, although nobody else touched it
  (`PolicyVisits.LockedOut`).
- The 64-bit percent test is right for amounts up to 2^63 / 1000 and wrong right after (`MachineArithmetic.AgreementExact`);
  `MachineSums` gives the ranges of the sums.
- The documentation announces a dry run before each resize; the code applies directly, and so does the model.

## Model

| member | source | states |
|---|---|---|
| `Rounding.DivCeilIsCeiling` | internal/policy/policy.go:373-384 | `divCeil` is the mathematical ceiling for every numerator and positive divisor, although Go's division truncates |
| `Rounding.RoundUpIsLeastMultiple` | internal/policy/policy.go:433-441 | rounding up gives the least multiple of the step not below a positive value |
| `Rounding.RoundDownIsGreatestMultiple` | internal/policy/policy.go:443-451 | rounding down gives the greatest multiple of the step not above a positive value |
| `Rounding.QuantizeMonotone` | internal/policy/policy.go:407-431 | directional rounding never decreases as the target grows and keeps the target on its side of the current value |
| `Rounding.DecideLaw` | internal/policy/policy.go:328-371 | the request moves exactly when the target differs in an allowed direction by a gap that clears the percent and the absolute threshold; the special cases for zero are instances of this one rule |
| `ResourceStep.StepIdempotent` | internal/policy/policy.go:135-202 | without scaling down, one resource step applied to its own output changes neither request nor limit, in both limit modes |
| `ResourceStep.StepMonotoneInUsage` | internal/policy/policy.go:135-202 | the request after ceiling, rounding, deadband, bounds and limit clamp never decreases as usage grows, with scaling down on or off |
| `ResourceStep.StepEnvelope` | internal/policy/policy.go:163-202 | where a managed request can end relative to its maximum, its minimum and its limit, and the only two ways it falls without scaling down |
| `ResourceStep.UnmanagedStep` | internal/policy/policy.go:163-164 | a resource that is not managed is still moved into its bounds, and stays put exactly when it lies in them |
| `ClosedLoop.SwingExact` | internal/policy/policy.go:328-451 | with bounds and a limit, the rounded-down and rounded-up targets exchange places pass after pass exactly under a closed condition on thresholds and minimum change |
| `ClosedLoop.ConstantUsage` | internal/policy/policy.go:328-451 | under constant usage every trajectory rests in the deadband or reaches the pair of landing amounts; there it changes on every pass forever exactly under the swing condition and rests otherwise |
| `ClosedLoop.UnboundedConstantUsage` | internal/policy/policy.go:328-451 | without bounds or limit a request inside the deadband of its target stays, any other moves once and is on the pair; there it swings forever exactly when the target is off the grid, the minimum change is at most a step and both percentages are small enough, and rests otherwise |
| `ClosedLoop.SwingsUnbounded` | internal/policy/policy.go:360-384 | the general swing condition, written in the number of whole steps in the target |
| `ClosedLoop.NeverRestsExact` | internal/policy/policy.go:328-451 | a request changes on every pass, forever, exactly when it starts outside the deadband of its target and the target satisfies the swing condition |
| `ClosedLoop.DefaultThresholdsSwing` | internal/policy/policy.go:328-371 | with the default thresholds of 20 percent and a minimum change of at most one step that is: outside the deadband of a target off the grid and below five steps |
| `SmallPods.PodSwingsForever` | internal/policy/policy.go:79-230 | the evaluation of a whole pod alternates between two states under the default thresholds, for every usage whose CPU target is off the grid and below 250m |
| `MachineArithmetic.MachineRefinesIdeal` | internal/policy/policy.go:104-154 | for amounts up to 2^63 / 1000, which is more than 2^53, and the declared field ranges the wrapping 64-bit pipeline computes what the unbounded one computes |
| `MachineArithmetic.AgreementExact` | internal/policy/policy.go:104-154 | for CPU and for memory, the two pipelines agree on all amounts up to n and all field values exactly when 1000 n is below 2^63 |
| `MachineArithmetic.WrapsJustBeyond` | internal/policy/policy.go:360-371 | one unit further a whole decision differs: a doubling that a threshold of 1000 percent forbids is accepted |
| `MachineSums.DeltaFits` | internal/policy/policy.go:545-564 | for n containers with requests up to a largest amount the wrapping delta is the ideal one whenever n times that amount fits in 64 bits |
| `Resources.ResourceListEqual` | internal/policy/policy.go:270-296 | the two loops decide equality of amounts, with missing and zero entries identified |
| `Resources.PodQoSClass` | internal/policy/policy.go:453-493 | the loop over init and regular containers decides the class by its definition over all containers |
| `PodHash.HashPodResources` | internal/policy/policy.go:232-268 | the digest input is the list of all containers sorted by name |
| `PodHash.CanonicalExact` | internal/policy/policy.go:242-266 | for distinct container names two pods have the same digest input exactly when they have the same named containers with the same resources, in any order |
| `Policy.ApplyBounds` | internal/policy/policy.go:386-405 | both bounds are compared with the value before either was applied; only the named entry changes |
| `Policy.DecideRequests` | internal/policy/policy.go:135-161 | new requests before bounds: a managed request goes up or down to a whole number of steps that suffices for usage and headroom when the thresholds are cleared, and a fall that is not allowed is reported |
| `Policy.ApplyLimits` | internal/policy/policy.go:178-201 | requests are clamped to limits, or the managed limits are set to the requests |
| `Policy.RefitContainer` | internal/policy/policy.go:123-202 | the loop body computes the CPU and the memory step independently and leaves every other entry alone |
| `Policy.StepContainer` | internal/policy/policy.go:113-208 | a container is rewritten exactly when some amount of its lists changes |
| `Policy.RefitAll` | internal/policy/policy.go:113-208 | the loop over the copied containers, in place, with its counters |
| `Policy.ForceBurstable` | internal/policy/policy.go:495-543 | the first container with a lowerable request is lowered in place, CPU before memory; none otherwise |
| `Policy.ComputeDeltaRequests` | internal/policy/policy.go:545-564 | the by-name delta of the two loops |
| `Policy.EvaluatePod` | internal/policy/policy.go:210-229 | the class check, the repair and the report on the in-place copy |
| `Policy.RefuseMode` | internal/policy/policy.go:199-201 | an unrecognised limits mode fails at the first measured container, and only then |
| `Policy.ResolveMode` | internal/policy/policy.go:90-97 | limits follow requests exactly under EqualRequests for a Guaranteed pod, an unrecognised mode is none, every other one keeps limits |
| `Policy.Settle` | internal/policy/policy.go:210-219 | the class check on the working copy, with the repair of a Burstable pod that would turn Guaranteed, made in place |
| `Policy.ComputeDesired` | internal/policy/policy.go:79-230 | the whole evaluation meets its specification `Plan`, errors included |
| `PolicyMeaning.DecidesExact` | internal/policy/policy.go:135-161 | the decided request is the one that the fields of the policy ask for: the least amount that covers usage and headroom, rounded to the multiple of 50m or 64Mi in the direction of the change, if percentage and minimum change are cleared |
| `PolicyMeaning.EndsExact` | internal/policy/policy.go:135-202 | after the decision: the maximum wins over the minimum, and the request stops at its limit or pulls the limit along; this determines one resource of one container completely |
| `ContainerMeaning.UsagesAreLast` | internal/policy/policy.go:99-121 | the last metrics listed for a container name are the ones that count |
| `ContainerMeaning.TreatedExact` | internal/policy/policy.go:113-208 | a container without metrics, or whose amounts would not change, stays as it is; any other becomes what the two resources ask for, and nothing else of it moves |
| `PlanExact.PlanExact` | internal/policy/policy.go:79-230 | the answer to the one state asked for: nothing to change, the same class, a repaired Burstable pod, or a refusal that names both classes and leaves the pod alone |
| `PlanExact.ErrorsExact` | internal/policy/policy.go:79-98 | which error is returned, exactly when, and that nothing is changed or counted with it; with nothing managed nothing is changed |
| `PlanExact.LimitsKept` | internal/policy/policy.go:178-201 | no limit of any container changes unless the pod is Guaranteed under EqualRequests |
| `PlanExact.RequestMeetsUsage` | internal/policy/policy.go:135-161 | a request without bounds, and without a limit that holds it back, rises to the least multiple of the step that covers usage and headroom, and falls to the greatest one that one unit less would leave uncovered |
| `PlanExact.EqualRequestsExact` | internal/policy/policy.go:90-97 | under EqualRequests a Guaranteed pod is evaluated successfully exactly when its unmanaged resources lie in their bounds; every managed request then moves to its decided and bounded amount whatever its limit was, the limit is the same, and a change is reported exactly when an amount differs |
| `PlanExact.TallyExact` | internal/policy/policy.go:113-198 | each of the nine counters is the sum over the containers of its own condition on metrics, allowed falls, minima, maxima and limits |
| `QoSSafety.ClassIsKept` | internal/policy/policy.go:90-230 | a successful evaluation keeps the class of the pod and changes something only for a Burstable pod or a Guaranteed one under EqualRequests; a failed one changes nothing |
| `QoSSafety.RefusalExact` | internal/policy/policy.go:210-225 | for each class, exactly when an evaluation is refused because the class would change |
| `QoSSafety.RepairExact` | internal/policy/policy.go:453-543 | a Burstable pod that would turn Guaranteed succeeds exactly when some managed limit is above its minimum bound; then the first container with room has one request lowered, CPU before memory, by a step or to its minimum, and the pod stays Burstable |
| `QoSSafety.FollowingPod` | internal/policy/policy.go:178-184 | a Guaranteed pod whose limits follow succeeds exactly when its unmanaged resources already lie in their bounds |
| `PolicyLaws.ContainerIdempotent` | internal/policy/policy.go:113-208 | without scaling down a rewritten container is not rewritten again for the same usage |
| `PolicyLaws.OwnOutputIsFixed` | internal/policy/policy.go:79-230 | an evaluation of its own output changes nothing, with a zero delta for distinct names, when scaling down is off and the repair was not needed |
| `RepairLaws.RepairedOutputExact` | internal/policy/policy.go:210-229 | after a repair, a second evaluation reports a change exactly when the target of the lowered request clears the thresholds above it; it then raises the request to the rounded target, or, if that reaches the limit, ends in the same pod |
| `SmallPods.RepairedPodMoves` | internal/policy/policy.go:210-229 | a pod that the repair lowers by 50m of CPU and that the next evaluation of the same usage raises by 40m |
| `PolicyLaws.ContainerMonotone` | internal/policy/policy.go:113-208 | for a fixed container more usage of a resource never ends in less requested of it |
| `PolicyLaws.FinalEnvelope` | internal/policy/policy.go:135-225 | on success every managed request of a measured container ends within maximum, limit and minimum, the repaired one included |
| `PolicyLaws.DeltaIsConserved` | internal/policy/policy.go:203-228 | with distinct container names the reported delta is the change of the total requests, and zero when nothing changed |
| `WorkerPool.Limits` | internal/controller/inplacepodresize_controller.go:271-277 | the two limits after defaulting and capping: the worker count is between one and the pod limit, which is 20 by default |
| `Budget.BudgetManager.TryReserve` | internal/controller/inplacepodresize_controller.go:343-360 | a reservation is taken exactly when committed, reserved and the new delta stay within every positive maximum |
| `RunState.SharedRun.StepWorker` | internal/controller/inplacepodresize_controller.go:446-659 | one atomic step of a worker on the shared variables: the next program counter and the operation are those of the transition system, of which PoolAnswers.FateExact says what they come to |
| `RunState.SharedRun.ProcessOne` | internal/controller/inplacepodresize_controller.go:446-648 | the program text of one candidate: a token, committed budget, the resized counter and the aggregate of its namespace move exactly with a proposal behind an open gate that fits the budget and that the API accepts; otherwise the one counter that says why; cancelled exactly for unreadable metrics or a fatal answer. The effect is that of the atomic steps of an undisturbed worker |
| `RunState.SharedRun.ApplyReserved` | internal/controller/inplacepodresize_controller.go:564-648 | a reserved resize is applied exactly when the capability is there and the API accepts it, at once or on the retry after a conflict; after a conflict a conflict is counted, otherwise an apply failure, and only a fatal one marks and cancels |
| `RunState.AloneIsARun` | internal/controller/inplacepodresize_controller.go:446-659 | an undisturbed worker is a run of the pool in which only this worker acts |
| `PoolInvariant.TokensKept` | internal/controller/inplacepodresize_controller.go:390-394 | every step keeps tokens in the channel, tokens held and applied pods summing to the pod limit |
| `PoolInvariant.LedgerKept` | internal/controller/inplacepodresize_controller.go:343-380 | every step keeps reserved equal to the deltas held by workers and committed equal to the deltas applied |
| `PoolInvariant.BudgetKept` | internal/controller/inplacepodresize_controller.go:343-380 | every step keeps committed plus reserved within the maximum plus the negative reservations released so far |
| `PoolInvariant.OwnershipKept` | internal/controller/inplacepodresize_controller.go:668-694 | every step keeps each candidate with at most one worker |
| `PoolInvariant.AppliedOnceKept` | internal/controller/inplacepodresize_controller.go:632-636 | every step keeps each candidate applied at most once |
| `PoolInvariant.CountersKept` | internal/controller/inplacepodresize_controller.go:454-555 | every step keeps each counter equal to the number of candidates with that outcome |
| `PoolInvariant.SkipsKept` | internal/controller/inplacepodresize_controller.go:455-464 | every step keeps skips for the pod limit to states in which all but the tokens of the other workers have gone into resizes |
| `PoolInvariant.ExplainedKept` | internal/controller/inplacepodresize_controller.go:472-659 | every step keeps outcomes tied to the verdicts that explain them |
| `PoolInvariant.AggregatesKept` | internal/controller/inplacepodresize_controller.go:634-648 | every step keeps the namespace aggregates in agreement with the committed budget |
| `PoolTheorems.InvAlongRun` | internal/controller/inplacepodresize_controller.go:446-694 | all invariants hold along every run, for every interleaving and every API outcome |
| `PoolTheorems.FinalState` | internal/controller/inplacepodresize_controller.go:692-696 | after the wait nothing is reserved, tokens and resizes make up the limit, and counters, aggregates and committed budget agree |
| `PoolTheorems.CountersPartition` | internal/controller/inplacepodresize_controller.go:454-659 | no candidate is counted twice, and every candidate is counted once when the run is not cancelled and the policy does not fail |
| `PoolTheorems.OutcomesHaveCauses` | internal/controller/inplacepodresize_controller.go:472-659 | every counted outcome has the policy verdict that causes it, only proposed resizes pass the gate, conflicts need the capability, and a candidate counted as resized was applied |
| `PoolTheorems.TokenReturnNeverBlocks` | internal/controller/inplacepodresize_controller.go:465-470 | in every reachable state a worker returning its token finds room in the channel |
| `PoolTheorems.SkippedOnlyWhenNearlyFull` | internal/controller/inplacepodresize_controller.go:455-464 | in every reachable state in which a pod has been counted as skipped for the pod limit, at least maxPods - maxConcurrentPods + 1 pods were applied |
| `PoolTheorems.BudgetBound` | internal/controller/inplacepodresize_controller.go:343-380 | in every reachable state committed plus reserved exceeds a maximum by at most the negative reservations released, and committed alone by at most these and the ones still held; for a resource that no proposal lowers neither exceeds it |
| `PoolTheorems.EveryRunReachesTheWait` | internal/controller/inplacepodresize_controller.go:668-694 | runs have bounded length, and until the wait is over the pool itself has a next step, without being cancelled from outside |
| `PoolTheorems.DrainBound` | internal/controller/inplacepodresize_controller.go:601-628 | after the cancelling step at most maxConcurrentPods - 1 further resizes commit, one more if the cancellation came from outside |
| `PoolTheorems.MarkedExactly` | internal/controller/inplacepodresize_controller.go:601-628 | after the wait the capability has been marked unsupported exactly when a resize failed fatally |
| `PoolTheorems.AppliedWereProposed` | internal/controller/inplacepodresize_controller.go:551-569 | applied pods were proposed by the policy, none twice, and none at all without the capability |
| `MachineSums.AdmissionFits` | internal/controller/inplacepodresize_controller.go:343-360 | in every reachable state the wrapping admission test is the ideal one while one more resize than the run allows fits in 64 bits |
| `BudgetCap.OvershootIsReachable` | internal/controller/inplacepodresize_controller.go:343-380 | for any decrease and any number of equal rises that fit beside it, fewer than the pod limit, a reachable state has committed all of them with nothing left in reserve |
| `BudgetCap.HardCapExact` | internal/controller/inplacepodresize_controller.go:343-380 | neither what is committed nor what is committed and reserved exceeds a maximum, whatever the candidates, exactly when the run has a single worker or no maximum is set |
| `BudgetCap.SmallProposalsHold` | internal/controller/inplacepodresize_controller.go:343-380 | when all but one of the resizes that a run allows cannot together rise above the maximum, it is not exceeded, with any number of workers |
| `Directions.PlanDirection` | internal/policy/policy.go:135-225 | an evaluation raises a resource by no more than its containers can reach (their maximum if it is managed, their minimum otherwise), and lowers it only if it is managed or has a maximum |
| `OpposingPods.PodRises` | internal/policy/policy.go:135-202 | a pod of n containers, each allowed l of a resource and asking for nothing, gets n * l of it and nothing of the other resource |
| `OpposingPods.PodFalls` | internal/policy/policy.go:135-225 | for every policy that can lower a resource, a pod of at most two containers whose proposal lowers it and leaves the other one: to the maximum, by as much as asked, or by the repair |
| `PolicyCap.ExceedsOnSoundPods` | internal/controller/inplacepodresize_controller.go:343-380 | otherwise, admissible pods with metrics and a run over what the policy proposes for them that commits more than the maximum; how many pods of how many containers it takes is part of the statement |
| `PolicyCap.CapExact` | internal/controller/inplacepodresize_controller.go:343-380 | for one policy and all admissible pods of bounded size, neither what is committed nor what is committed and reserved of a resource exceeds its maximum, exactly when there is one worker, no maximum, a policy that never lowers the resource, or too few containers in all but one of the allowed resizes to rise above the maximum |
| `PoolAnswers.ResizesAreAccepted` | internal/controller/inplacepodresize_controller.go:446-648 | in every reachable state an applied pod has had a token, an open gate, room in the budget and an accepted API call, in this order, and every counted pod a log that leads to its counter |
| `PoolAnswers.FateExact` | internal/controller/inplacepodresize_controller.go:446-659 | after the wait, the log of what was asked for a pod and answered, with its verdict, decides exactly which counter it is in and whether it was resized: a closed gate, no room, a failed or fatal call, a conflict followed by a failure and an accepted call each lead to their own |
| `PoolAccounts.NamespacesExact` | internal/controller/inplacepodresize_controller.go:634-648 | in every reachable state the aggregate of a namespace counts the resized pods of that namespace and sums their deltas |
| `PoolAccounts.CancelledExactly` | internal/controller/inplacepodresize_controller.go:471-482 | after the wait the run has been cancelled exactly if it was from outside, if the metrics of a pod were unreadable, or if a resize failed fatally |
| `PolicyRun.VerdictExact` | internal/controller/inplacepodresize_controller.go:471-535 | each verdict exactly under its condition: a failed metrics listing, missing metrics, a refused class, another error, nothing to do or a zero delta, and otherwise the delta of the evaluation |
| `PolicyRun.Assess` | internal/controller/inplacepodresize_controller.go:472-535 | what processOne learns from metrics and policy before the stabilization gate, zero deltas included |
| `PolicyRun.ResizesKeepClass` | internal/controller/inplacepodresize_controller.go:495-507 | no run resizes a BestEffort pod, a Guaranteed pod that keeps its limits, or any pod to another class |
| `PolicyRun.CommittedIsGrowth` | internal/controller/inplacepodresize_controller.go:634-648 | in every reachable state the committed budget is the growth of the total requests of the pods resized so far |
| `PolicyRun.ProposalHasNewDigest` | internal/controller/inplacepodresize_controller.go:507-539 | a target that gets to the stabilization gate never has the digest of the pod that was read |
| `PolicyRun.EveryCandidateCounted` | internal/controller/inplacepodresize_controller.go:454-659 | with a recognised limits mode and no cancellation the outcome counters add up to the candidates |
| `Selection.SelectCandidates` | internal/controller/inplacepodresize_controller.go:280-324 | eligible pods of matched namespaces are counted as cooling down or become candidates in listing order; namespaces are counted once |
| `Selection.FilteredIsExact` | internal/controller/inplacepodresize_controller.go:294-309 | every pod is a candidate as often as it is listed if it is picked, and not at all otherwise |
| `Selection.CandidateExact` | internal/controller/inplacepodresize_controller.go:280-309 | a listed pod is a candidate exactly when its namespace matches, it is running on a node and not being deleted, and no resize was recorded within the cooldown |
| `Selection.FilteredCount` | internal/controller/inplacepodresize_controller.go:294-309 | as many candidates as picked pods in the listing |
| `MergePatch.BuildPatch` | internal/controller/inplacepodresize_controller.go:864-888 | the patch body turns empty values into null |
| `MergePatch.MergeRewritesAnnotations` | internal/controller/inplacepodresize_controller.go:864-888 | merged as in section 2 of RFC 7396 the patch removes the empty keys, writes the others, and changes nothing else of the pod |
| `Stabilization.AnnotatedPod.EnsurePending` | internal/controller/inplacepodresize_controller.go:890-917 | the pending record is written when the target is new or its time is missing, and left alone otherwise |
| `Stabilization.AnnotatedPod.VisitByRun` | internal/controller/inplacepodresize_controller.go:537-659 | one run's visit to a pod: cooldown check, gate, pending record or resize record |
| `Stabilization.VisitExact` | internal/controller/inplacepodresize_controller.go:821-917 | what a visit resizes and writes, read off the four annotations: the cooldown, the open gate, the new, the undated and the standing pending record |
| `Stabilization.Pacing` | internal/controller/inplacepodresize_controller.go:821-862 | two resizes of a pod are at least cooldown plus stabilization window apart when the annotation patch of the first went through, whatever happens in between; times are those recorded at the gate, before the API call |
| `Stabilization.WindowAlwaysHolds` | internal/controller/inplacepodresize_controller.go:537-660 | whatever patches fail, two resizes of a pod that only this operator resizes are at least one stabilization window apart, because the second target is another one and has to become pending first |
| `PolicyVisits.PacedRegardlessExact` | internal/controller/inplacepodresize_controller.go:650-660 | over all policies, pods and histories in which every target is what the policy proposes for the pod as it is, the full distance survives failing patches exactly when no cooldown is configured |
| `Stabilization.UnpatchedResize` | internal/controller/inplacepodresize_controller.go:650-660 | histories, with and without a window, in which a failed patch leaves two resizes exactly one window apart |
| `PolicyVisits.HistoryIsFresh` | internal/controller/inplacepodresize_controller.go:507-539 | what the policy proposes for the pod as it is differs from it, which is what the minimum distance rests on |
| `PolicyVisits.UnpatchedPod` | internal/controller/inplacepodresize_controller.go:650-660 | a pod, usages and visits under one policy in which a failed patch leaves two resizes exactly one window apart, for any timing |
| `Stabilization.StableTarget` | internal/controller/inplacepodresize_controller.go:839-862 | from a pod without operator annotations a target is applied only after a visit at least one window earlier computed it and every visit at the gate in between did too |
| `Stabilization.PendingStands` | internal/controller/inplacepodresize_controller.go:839-917 | while one target stays pending its time never moves, and the gate is open exactly from one window after it, unless the target is the one recorded last |
| `Stabilization.ConstantTargetOpens` | internal/controller/inplacepodresize_controller.go:839-917 | a constant target that is not pending is let through exactly from one window after the first visit that computed it, unless it is the one recorded last |
| `Stabilization.LastAppliedIsBlocked` | internal/controller/inplacepodresize_controller.go:846-848 | with a window, the hash applied last is never applied again while it stays the target |
| `PolicyVisits.LockedOut` | internal/controller/inplacepodresize_controller.go:846-848 | a history of this operator alone after which the policy keeps proposing a target the pod does not have, and no visit ever applies it |
| `SwingingVisits.ResizedForEver` | internal/controller/inplacepodresize_controller.go:537-659 | as long as the policy proposes a next state from each state, the pod is resized once per cooldown and window, for any number of cycles |
| `SwingingVisits.ConstantUsageOrbit` | internal/policy/policy.go:79-230 | under constant usage the pods that swing under the default thresholds are such endless sequences |
| `Capability.Prober.CheckSupport` | internal/resize/resize.go:89-139 | a fresh cache is returned as it is; a stale one asks: supported exactly when discovery lists a first pods/resize entry with the verb update, unsupported exactly when it lists none, unknown otherwise; the answer is cached with the current time |
| `Capability.MarkHolds` | internal/resize/resize.go:93-95 | a marked answer is returned, unrefreshed, by every check before its time to live is over, and the next check probes again |
| `Capability.AnswerExact` | internal/resize/resize.go:89-139 | the same of the answer as a function of cache, time and discovery |
| `Capability.ResizesNeedSupport` | internal/controller/inplacepodresize_controller.go:143-187 | a run that resizes anything found a fresh supported answer, or a stale cache and a listed entry that can be updated; with a stale cache and a missing or failing discovery nothing is resized |
| `Capability.NoResizeWhileBlocked` | internal/controller/inplacepodresize_controller.go:143-187 | after a run in which a resize failed fatally no run that starts before the mark expires resizes a pod, and later runs resize only on a supported answer |

## Left out

- Kubernetes clients, discovery transport, metrics listing, event recording, status conditions and Prometheus metrics: their results enter as arbitrary outcomes, the reporting is not modelled.
- The time a run takes and the interval after which it is requeued.
- Namespace selectors by glob or regular expression: matching is an arbitrary predicate on the namespace.
- Error classification of failed resizes: which failures are fatal is part of the API outcome.
- Quantities finer than a milli-core or a byte, and the textual form of quantities: two spellings of one amount have the same digest here.
- SHA-256 and JSON text of the digest: the digest is taken to be injective, so it is represented by its input. A library sort that is not stable is represented by a stable one, which matters only for repeated container names.
- Timestamps as text: formatted times parse back to themselves; any other text does not parse.
- Stale reads, several policies acting on one pod, and manual edits of the operator's annotations during a sequence of visits.
- On a conflict the resize is retried on a freshly read pod; the committed delta is still the one computed from the listed pod, and the change the cluster sees is not modelled.
- ResourceStep.StepMonotoneInUsage: assumes limits that are not negative, which the API server enforces; likewise PolicyLaws.ContainerMonotone.
- PlanExact.RequestMeetsUsage: assumes a request that is not negative, which the API server enforces; PolicyMeaning.DecidesExact does not.
- Rounding.RoundUpIsLeastMultiple: says nothing about values that are not positive, which round to zero by definition; likewise Rounding.RoundDownIsGreatestMultiple.
- PoolTheorems.EveryRunReachesTheWait: counts atomic steps; that each API call returns is guaranteed by its timeout and assumed here.
- SwingingVisits.ResizedForEver: needs a stabilization window; without one the gate is always open and only the cooldown separates the resizes.
- Stabilization.StableTarget: assumes that the pending records of the visits in question were written.
- Stabilization.Pacing: compares the times taken at the gate; the API calls that follow take their own time, so two resizes can reach the API closer together by the duration of the first call. Likewise Stabilization.WindowAlwaysHolds, which also assumes that nobody else resizes the pod.
- Capability.NoResizeWhileBlocked: assumes that no other run marks the capability in between; resizes still in flight in the run that failed are bounded by PoolTheorems.DrainBound.
- PoolTheorems.BudgetBound: the condition on proposals is sufficient for one list of candidates; the exact conditions are BudgetCap.HardCapExact over all lists and PolicyCap.CapExact over all lists of one policy.
- PolicyCap.CapExact: quantifies over pods of at most a given number of containers, between 2 and 26^4, with distinct RFC 1123 labels as container names, amounts that are not negative and requests within limits, and over policies whose bounds are ordered and not negative; usages are arbitrary.
- RunState.SharedRun.ProcessOne: treats one candidate without interference; interference between the atomic steps is covered by RunState.SharedRun.StepWorker and the pool.
