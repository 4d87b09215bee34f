# Verification of the partitioned-inference control and data plane

The system splits a neural-network DAG into components, places them on workers with a mixed-integer program,
turns the solution into one plan per worker, rolls the plans out, and runs the components by message passing.
This project models that path in Dafny and proves what the code promises about it.

`dafny verify dfyconfig.toml` checks everything.

## How the parts fit together

**Optimization formulation.** A solver is an oracle that returns some point satisfying the rows that the code
emits. `Lp` has the model object: variables, linear expressions and a mutable `Model` that rows are appended to.
Each emission method is proved to add exactly the rows of a predicate, for every point. The predicates are then
given a meaning: a point of the structural rows is a placement (`Assignment`, `Structure`), crossing terms and
transition variables mean what their names say (`TensorCrossing`), the queue rows bound waits within the relative
error of the utilization grid (`BinLimits`, `NetworkQueue` on `ProcessorSharing`, `ExecutionQueue`), and big-M rows
are exact (`BigM`, `Transmission`, `Memory`). `MaxCut` proves the profiled cut size, and `NetworkBounds` that the
bounds computed from it hold for every placement.

The other direction is that nothing real is cut off. `WaitBounds` shows that the waits of a real placement stay
within the bounds computed in advance, `PlacementPoints` builds the structural part of the point that a placement
stands for, and `RealPlacements` completes it: for every real placement there is a point that encodes it and
satisfies all structural, execution and queue rows and every bound.

The last step compares the rows with the placements alone, without any variable. `WaitMeaning` and `PlacedWaits` show
that a component never waits less than in a non-preemptive priority queue under the load of the placement,
`NetworkMeaning` and `NetworkPoints` the same for processor sharing on an uplink, and both that the bound is reached up
to the relative error. `ResponseTime` adds the rows of the response times, `ResponseMeaning` proves that no flow is
assigned less than the response time of its placement in the queueing model, `ResponseOptimal` builds the point of a
possible placement, and `Optimality` concludes: the rows admit exactly the possible placements, an admitted placement
meets its requirements, and an optimum is within 1 + relative error of the best placement. `SolverAnswer` states this for
whatever point the solver returns.

**Solution to plans to run.** `FlowSolution` reads a placement back out of a point, `FlowRoutes` finds the tensors
between executable components, `ReplicaIds` and `PlanBuilder` build the plans, and `PlanGluing` shows that they fit
together; `PlannedPriorities` follows the chosen priorities and the ends of the flows into the plans. `Inference` evaluates a model over an uninterpreted layer function, `WorkerRuntime` is what one worker does
with what arrives, `RuntimeChecks` when its steps succeed, and `EndToEnd` proves that a run over the chain of hops delivers the value of the whole model.
`Planning` states this from solver points to results, `PublishedModels` from the rollout to results, and
`RollingPasses` for passes between whose hops the rollout goes on.

**Concurrency and failures.** `ContributionPipeline` is a state machine in which every await ends an atomic section
of a submission; `ContributionReceiver` has the classes whose methods perform exactly these sections.
`ContributionConservation` proves that nothing accepted is dropped, `ContributionOutcomes` how a submission that runs
alone ends, and `LateContributions` when a handle can still be resolved. `Rollout` is the prepare / apply / publish
protocol under arbitrary failures, and `RolloutProgress` shows that it can always complete. `ActivityGrants` has the grants of local resources and `ActivityWaiting` those who
wait for them. `Contraction` and `Journal` are two self-contained imperative parts.

## Findings

- **Plans that cannot be built** (services/controller/src/controller/domain/profile/model_variant_topology.py:133-171).
  The tensor contract of a component counts tensors that only pass by its executable layers when the component also
  holds an input or output layer. Two flows of one variant may therefore put the same executable layers on the same
  worker with different contracts, and then plan building fails
  (services/controller/src/controller/application/deployment/builder/default_worker_plan_builder.py:209-224).
  `SchemeConflict.SchemesCanDisagree` is such a pair, with one point that satisfies every structural row of both flows
  and encodes both placements. `PlanGluing.PlansBuild` shows that this is the only obstacle: plans are built if and
  only if the schemes agree, which can be read off the solution.
- **Handles without a result**
  (services/worker/src/worker/application/hop_contribution_rcv/default_contribution_pipeline.py:81-102). A contribution
  that arrives after its collection was deposited is not recognised as late. `LateContributions.LateCompleteIsRefused`
  is a run of a one-source plan in which it is a complete set: it is refused, and its fresh handle stays registered and
  pending. `LateContributions.LateIncompleteIsStored` is a run of a two-source plan in which it is stored again under a
  fresh pending handle. `ContributionOutcomes.RefusedAtDeposit` proves the refusal for every state. When a handle can
  still be resolved is settled by `LateContributions.ResolvableExactly`: for every registered pending
  handle, some continuation resolves it if and only if a submission is concluding for its key, or the key has not been
  deposited yet and its routings can be completed at all, which the checks of every plan guarantee for inputs
  of the hop's own flow (`LateContributions.PlannedIsCompletable`).

## Model

| member | source | states |
|---|---|---|
| `ProcessorSharing.ProjectionExact` | services/controller/src/controller/adapters/outbound/optimization/compact_network_queue.py:20-39 | For any non-negative selection that sums to 1, fractional ones included, the projected rows admit exactly the responses of the disaggregated formulation with one part per bin |
| `ProcessorSharing.RowsGiveDisaggregation` | services/controller/src/controller/adapters/outbound/optimization/compact_network_queue.py:30-39 | Filling the cheapest bins first is a disaggregation of every response that the rows admit |
| `ProcessorSharing.DisaggregationSatisfiesRows` | services/controller/src/controller/adapters/outbound/optimization/compact_network_queue.py:30-39 | No disaggregation violates a projected row |
| `ProcessorSharing.GreedyCost` | services/controller/src/controller/adapters/outbound/optimization/compact_network_queue.py:32-39 | The cost of the greedy fill is the right-hand side of the row of its critical bin |
| `ProcessorSharing.MultipliersIncrease` | services/controller/src/controller/adapters/outbound/optimization/compact_network_queue.py:30 | Increasing limits below 1 give positive, increasing multipliers |
| `NetworkQueue.AddProjectedPsEpigraph` | services/controller/src/controller/adapters/outbound/optimization/compact_network_queue.py:20-39 | The emitted rows are the bound on the nominal time and one projected row per bin, for every point |
| `NetworkQueue.AddCompactNetworkQueueConstraints` | services/controller/src/controller/adapters/outbound/optimization/compact_network_queue.py:42-118 | The loops over workers, flows, cuts and sources emit exactly the utilization, bin and response rows |
| `NetworkQueue.OneHotCollapse` | services/controller/src/controller/adapters/outbound/optimization/compact_network_queue.py:30-39 | With one selected bin all rows together say: response at least multiplier times nominal time |
| `NetworkQueue.SelectedBin` | services/controller/src/controller/adapters/outbound/optimization/compact_network_queue.py:75-94 | Binary bins that satisfy the worker rows select one bin, and the utilization lies in it |
| `NetworkQueue.ResponseWithinRelativeError` | services/controller/src/controller/adapters/outbound/optimization/compact_network_queue.py:55-113 | There is a least response that the rows admit, and it is between nominal / (1 - rho) and (1 + relative error) times that |
| `BinLimits.IntervalCount` | services/controller/src/controller/adapters/outbound/optimization/gurobi_problem_builder.py:91-93 | The number of intervals is the least n with (1 + e)^n >= 1 / (1 - u) |
| `BinLimits.BinLimits` | services/controller/src/controller/adapters/outbound/optimization/gurobi_problem_builder.py:90-99 | The grid starts at 0, ends at the limit, increases strictly, and one step loses at most the factor 1 + e of the free capacity |
| `BinLimits.GridOrdered` | services/controller/src/controller/adapters/outbound/optimization/gurobi_problem_builder.py:94-99 | All limits are ordered and lie between 0 and the utilization limit |
| `ModelTopology.TensorRoutes` | services/controller/src/controller/domain/profile/model_variant_topology.py:106-131 | The routes name the source, all destinations and the maximal destinations of every tensor; it fails exactly when a tensor has two sources |
| `ModelTopology.MaximalAbove` | services/controller/src/controller/domain/profile/model_variant_topology.py:115-131 | Every destination reaches a maximal one, so maximal destinations exist |
| `FlowSolutions.ComponentTensorContract` | services/controller/src/controller/domain/profile/model_variant_topology.py:133-171 | One pass over the edges gives what the layers exchange with the rest of the model; errors exactly for empty or unknown layer sets |
| `TensorCrossing.AddStructure` | services/controller/src/controller/adapters/outbound/optimization/gurobi_structure_constraints.py:40-358 | The loops over flows, components, cuts, variants, layers, edges and tensors emit exactly the structural rows, the crossing rows included |
| `TensorCrossing.AddFlowStructure` | services/controller/src/controller/adapters/outbound/optimization/gurobi_structure_constraints.py:54-93 | One flow: selection, component, endpoint, neighbour, variant and crossing rows |
| `Assignment.AddModelAssignmentConstraints` | services/controller/src/controller/adapters/outbound/optimization/gurobi_structure_constraints.py:251-294 | One variant: assignment, input, output and precedence rows of all its layers and edges |
| `Assignment.EndpointPlacementConstraints` | services/controller/src/controller/adapters/outbound/optimization/gurobi_structure_constraints.py:96-118 | The ingress hosts the first component and the sink the last one, when they are given |
| `Assignment.SuccessiveComponentsUseDifferentWorkers` | services/controller/src/controller/adapters/outbound/optimization/gurobi_structure_constraints.py:121-138 | The rows forbid one worker for two successive components |
| `Assignment.LayerAssignmentsRespectPrecedence` | services/controller/src/controller/adapters/outbound/optimization/gurobi_structure_constraints.py:361-389 | One row per cut keeps the target of an edge from lying before its source |
| `Structure.RowsAreExactlyPlacements` | services/controller/src/controller/adapters/outbound/optimization/gurobi_structure_constraints.py:40-306 | With only the layer and priority variables binary, a point satisfies the rows if and only if it encodes a valid placement |
| `Structure.PlacementOfPoint` | services/controller/src/controller/adapters/outbound/optimization/gurobi_structure_constraints.py:141-235 | A point encodes one variant, one component per layer, a non-empty active prefix with one worker each, inputs first, outputs last, neighbours on different workers, and order along edges |
| `Structure.PlacementSatisfiesRows` | services/controller/src/controller/adapters/outbound/optimization/gurobi_structure_constraints.py:392-462 | No row cuts off a valid placement |
| `Structure.VariantChoice` | services/controller/src/controller/adapters/outbound/optimization/gurobi_structure_constraints.py:220-234 | The relaxed variant variables are 0 or 1, and one of them is 1 |
| `Structure.WorkerChoice` | services/controller/src/controller/adapters/outbound/optimization/compact_variables.py:73-82 | The relaxed activity variables are 0 or 1, and an active component has one worker |
| `Structure.ActivePrefix` | services/controller/src/controller/adapters/outbound/optimization/gurobi_variables.py:31-38 | The active components form a prefix |
| `Structure.CompactRowRedundant` | services/controller/src/controller/adapters/outbound/optimization/compact_structure.py:40-59 | The strengthening that ties the last component to the first output layer removes no integral point |
| `TensorCrossing.ComponentsFollowPaths` | services/controller/src/controller/adapters/outbound/optimization/gurobi_structure_constraints.py:361-389 | Components never decrease along a path of the model |
| `TensorCrossing.MaximalSuffices` | services/controller/src/controller/adapters/outbound/optimization/gurobi_expressions.py:38-59 | Some destination lies after a cut exactly when some maximal destination does |
| `TensorCrossing.AddTensorCrossingCuts` | services/controller/src/controller/adapters/outbound/optimization/gurobi_structure_constraints.py:293-358 | All tensors and cuts of a variant: auxiliary rows for exactly the tensors with several maximal destinations |
| `TensorCrossing.CrossingExact` | services/controller/src/controller/adapters/outbound/optimization/gurobi_expressions.py:22-59 | At every placement the crossing term of a tensor is 1 when its source lies at or before the cut and a destination after it, and else 0, although the auxiliary variable is continuous |
| `TensorCrossing.AddTransitionMarginalConstraints` | services/controller/src/controller/adapters/outbound/optimization/gurobi_structure_constraints.py:481-516 | The marginals are emitted for exactly the links that exist |
| `TensorCrossing.TransitionsExact` | services/controller/src/controller/adapters/outbound/optimization/gurobi_structure_constraints.py:481-516 | The marginals hold exactly when every transition variable is the product of the two placements and the used link exists |
| `BigM.AddExecutionRows` | services/controller/src/controller/adapters/outbound/optimization/compact_execution.py:69-97 | One worker of one component: zero rows for unsupported layers and the big-M row with the total of the supported ones |
| `BigM.AddCompactExecutionConstraints` | services/controller/src/controller/adapters/outbound/optimization/compact_execution.py:27-109 | The loops over variants, components and workers emit exactly the zero rows, the big-M rows and the minimum rows, with the relay-only filter |
| `BigM.MinimumExecutionTimeByLayer` | services/controller/src/controller/adapters/outbound/optimization/gurobi_structure_constraints.py:465-478 | The map has exactly the layers that some worker supports, each with the least of its times there |
| `BigM.MinimumIsAttained` | services/controller/src/controller/adapters/outbound/optimization/gurobi_structure_constraints.py:465-478 | The least time of a layer is the time of a worker that supports it |
| `BigM.MinimumIsLeast` | services/controller/src/controller/adapters/outbound/optimization/gurobi_structure_constraints.py:465-478 | The profiled minimum is at most the time on every worker that supports the layer |
| `BigM.ExecutionExact` | services/controller/src/controller/adapters/outbound/optimization/compact_execution.py:27-109 | The rows force supported placements and times of at least the physical ones, and the physical times of a supported placement satisfy all of them |
| `BigM.UnsupportedMeaning` | services/controller/src/controller/adapters/outbound/optimization/compact_execution.py:74-80 | The zero rows admit exactly the placements whose layers run where they are supported |
| `BigM.RelayOnlyRelays` | services/controller/src/controller/adapters/outbound/optimization/compact_execution.py:55-80 | The zero rows admit a placement exactly when every layer is profiled on its worker and a relay-only worker has input and output layers only |
| `BigM.PhysicalMinimum` | services/controller/src/controller/adapters/outbound/optimization/compact_execution.py:98-109 | Physical times satisfy the minimum-time strengthening |
| `BigM.MinimumRowMeans` | services/controller/src/controller/adapters/outbound/optimization/compact_execution.py:98-109 | At a placement the strengthening says that a component takes at least the sum of the least times of its layers |
| `Transmission.AddCompactTransmissionConstraints` | services/controller/src/controller/adapters/outbound/optimization/compact_transmission.py:81-146 | The loops over sources and links emit exactly the slack rows and the minimum row |
| `Transmission.DeltaIsVolume` | services/controller/src/controller/adapters/outbound/optimization/gurobi_expressions.py:62-83 | The transmitted size expression is the volume of the tensors that cross the cut |
| `Transmission.TransmissionExact` | services/controller/src/controller/adapters/outbound/optimization/compact_transmission.py:104-146 | Times are forced to be at least volume / bandwidth of the used link, and these times satisfy all rows, the minimum included |
| `Transmission.MinimumRowMeans` | services/controller/src/controller/adapters/outbound/optimization/compact_transmission.py:104-126 | At a placement the strengthening says that the volume of a cut is at most the total time of its sources times the bandwidth of the fastest link |
| `Memory.FlowRowsExact` | services/controller/src/controller/adapters/outbound/optimization/compact_memory.py:71-95 | Weight and activation rows hold if and only if the variables are at least the weights held and the activations hosted |
| `Memory.CapacityExact` | services/controller/src/controller/adapters/outbound/optimization/compact_memory.py:96-110 | The capacity row keeps all held weights plus the largest hosted activation within the capacity, and cuts off nothing that fits |
| `Memory.AddComponentRows` | services/controller/src/controller/adapters/outbound/optimization/compact_memory.py:77-95 | One component: a weight and an activation row per worker |
| `Memory.AddCapacityRows` | services/controller/src/controller/adapters/outbound/optimization/compact_memory.py:96-110 | One capacity row per worker over all flows |
| `NetworkBounds.NominalUppers` | services/controller/src/controller/adapters/outbound/optimization/compact_network_queue.py:142-158 | For every worker of a flow, the longest time of a profiled largest cut on one of its links, 0 without links |
| `NetworkBounds.CutWithinProfile` | services/controller/src/controller/adapters/outbound/optimization/compact_transmission.py:35-39 | At the points of the rows no cut exceeds the profiled bound, whichever way the profiler ended |
| `NetworkBounds.NominalIsPhysical` | services/controller/src/controller/adapters/outbound/optimization/compact_network_queue.py:99-104 | With physical times, the nominal time of a source is what the chosen variant needs there, and it is within the computed bound |
| `NetworkBounds.PhysicalTimesAdmitted` | services/controller/src/controller/adapters/outbound/optimization/compact_transmission.py:104-146 | With the profiled bounds, physical times satisfy the transmission rows of all variants |
| `NetworkBounds.PhysicalResponse` | services/controller/src/controller/adapters/outbound/optimization/compact_network_queue.py:95-118 | With the computed bounds, the responses admitted for a physical transmission are those from a least one on, which is the processor-sharing response up to the factor 1 + relative error |
| `NetworkMeaning.UtilizationIsSent` | services/controller/src/controller/adapters/outbound/optimization/compact_network_queue.py:59-70 | The utilization of an uplink is at least the sum, over the flows, of the rate of the chosen variant times the volume over bandwidth of the cuts that its placement sends from the worker, and at the real transmission times it is exactly that |
| `NetworkMeaning.RowsBoundTimes` | services/controller/src/controller/adapters/outbound/optimization/compact_transmission.py:104-146 | The transmission rows of all variants and cuts make every time at least the real one |
| `NetworkMeaning.SourceResponds` | services/controller/src/controller/adapters/outbound/optimization/compact_network_queue.py:95-113 | The responses admitted for a source are those from a least one on, which is time / (1 - load) with the time and the load of the placements, up to the factor 1 + relative error at the real times |
| `NetworkMeaning.CutNotFaster` | services/controller/src/controller/adapters/outbound/optimization/compact_network_queue.py:114-118 | The response of a used cut is at least that of processor sharing, time / (1 - load), with the load that the placements put on the uplink |
| `NetworkPoints.NetworkAdmitsExactly` | services/controller/src/controller/adapters/outbound/optimization/compact_network_queue.py:42-118 | At the real times the network rows admit the placements if and only if no worker sends more than the utilization limit |
| `NetworkPoints.FittingHolds` | services/controller/src/controller/adapters/outbound/optimization/compact_network_queue.py:42-118 | Then they admit responses of all used cuts within 1 + relative error of processor sharing |
| `ResponseTime.AddResponseTimeConstraints` | services/controller/src/controller/adapters/outbound/optimization/gurobi_qos_constraints.py:22-94 | The response time of each flow is the sum of batch fill, execution, queue, transmission and latency terms, with the requirement for two of the objectives |
| `ResponseMeaning.ResponseNotFaster` | services/controller/src/controller/adapters/outbound/optimization/gurobi_qos_constraints.py:44-94 | At every point of all rows the response time of a flow is at least the one that the queueing model gives to its placement, so with the requirement rows every admitted placement meets its requirement there |
| `ResponseOptimal.PointIsPossible` | services/controller/src/controller/adapters/outbound/optimization/gurobi_solver.py:193-256 | Whatever placement a point of all rows encodes uses links that exist, fits the memory, and keeps workers and uplinks within their limits |
| `Optimality.PossibleHasPoint` | services/controller/src/controller/adapters/outbound/optimization/gurobi_solver.py:193-256 | Every possible placement has a point of all rows at which each response time is at most the fixed part plus 1 + relative error times the queueing part, provided that the requirements allow it |
| `Optimality.RowsAdmitExactlyPossible` | services/controller/src/controller/adapters/outbound/optimization/gurobi_solver.py:193-244 | Without the requirements, the whole formulation admits a placement if and only if it is possible: valid, supported, linked, and within all limits |
| `Optimality.OptimumIsBounded` | services/controller/src/controller/adapters/outbound/optimization/gurobi_objective.py:23-121 | For every cost that grows with the response times, the placement of an optimal point costs in the queueing model at most what the bounds of any other possible placement cost that keeps the requirements with that margin |
| `Optimality.OptimumIsNearBest` | services/controller/src/controller/adapters/outbound/optimization/gurobi_objective.py:40-44 | Minimising the arrival-weighted mean response time is optimal in the queueing model up to the factor 1 + relative error |
| `Optimality.OptimumIsMostAccurate` | services/controller/src/controller/adapters/outbound/optimization/gurobi_objective.py:45-78 | Maximising the arrival-weighted accuracy gives a placement that meets every requirement and is at least as accurate as any that meets them with the margin |
| `Optimality.OptimumMissesFewest` | services/controller/src/controller/adapters/outbound/optimization/gurobi_objective.py:79-95 | Minimising the violations: no more flows miss their requirement than have bounds that miss it under any other possible placement |
| `Optimality.OptimumDelaysLeast` | services/controller/src/controller/adapters/outbound/optimization/gurobi_objective.py:97-117 | Minimising the normalized delay: the mean delay is at most that of the bounds of any other possible placement |
| `SolverAnswer.AnswerIsPlaced` | services/controller/src/controller/adapters/outbound/optimization/gurobi_solution.py:116-216 | Every point of all rows encodes the placements and priorities that are read back from it, one worker and one priority for each component |
| `SolverAnswer.AnswerIsNearBest` | services/controller/src/controller/adapters/outbound/optimization/gurobi_solver.py:193-304 | Whatever optimum of the mean response time the solver returns, the placements read from it are possible, meet the requirements, and are within the factor 1 + relative error of every alternative in the queueing model |
| `MaxCut.BuildCutProblem` | services/model_manager/src/model_manager/adapters/outbound/model_max_cut_size_computer/pulp_max_cut_size_computer.py:54-102 | Edge and tensor rows and the sum of sizes; it fails exactly when a tensor does not have one producer |
| `MaxCut.SolveCutProblem` | services/model_manager/src/model_manager/adapters/outbound/model_max_cut_size_computer/pulp_max_cut_size_computer.py:104-118 | The first optimum of the integer program, then of the relaxation, then the sum of all sizes |
| `MaxCut.IntegerOptimumIsMaximum` | services/model_manager/src/model_manager/adapters/outbound/model_max_cut_size_computer/pulp_max_cut_size_computer.py:76-101 | The optimum of the integer program is the largest cut volume over all downward-closed layer sets |
| `MaxCut.ExitCoversCut` | services/model_manager/src/model_manager/adapters/outbound/model_max_cut_size_computer/pulp_max_cut_size_computer.py:104-118 | Every exit of the fallback chain is at least the volume of every downward-closed cut |
| `MaxCut.ProfiledMaximumCovers` | services/controller/src/controller/adapters/outbound/optimization/compact_transmission.py:35-39 | The profiled size bounds the volume of every cut of every placement, as the transmission rows assume |
| `ExecutionQueue.DefineComponentUtilization` | services/controller/src/controller/adapters/outbound/optimization/gurobi_execution_queue_constraints.py:286-333 | Utilization and selection rows of one component on one worker |
| `ExecutionQueue.AddPriorityUsageConstraints` | services/controller/src/controller/adapters/outbound/optimization/gurobi_execution_queue_constraints.py:336-367 | Usage rows of one worker over all priorities |
| `ExecutionQueue.AddComputeDiscretizationConstraints` | services/controller/src/controller/adapters/outbound/optimization/gurobi_execution_queue_constraints.py:370-430 | Bin rows of one queue |
| `ExecutionQueue.AddQueueRows` | services/controller/src/controller/adapters/outbound/optimization/gurobi_execution_queue_constraints.py:94-144 | Remaining capacity, bins from priority 2 on, and the rotated cone row |
| `ExecutionQueue.AddWorkerRows` | services/controller/src/controller/adapters/outbound/optimization/gurobi_execution_queue_constraints.py:69-144 | All queue rows of one worker |
| `ExecutionQueue.AddCompactQueueBounds` | services/controller/src/controller/adapters/outbound/optimization/compact_execution_queue.py:47-79 | The tightened wait bound of every queue and bin |
| `ExecutionQueue.AddComponentWaitRows` | services/controller/src/controller/adapters/outbound/optimization/compact_execution_queue.py:80-100 | Activation rows of one component |
| `ExecutionQueue.UtilizationFollowsChoice` | services/controller/src/controller/adapters/outbound/optimization/gurobi_execution_queue_constraints.py:298-312 | The utilization of a priority is the utilization of the component if that priority is chosen, and else 0 |
| `ExecutionQueue.UsedIsBinary` | services/controller/src/controller/adapters/outbound/optimization/gurobi_execution_queue_constraints.py:336-360 | The relaxed usage variable says whether a component has the priority |
| `ExecutionQueue.UsedPrefix` | services/controller/src/controller/adapters/outbound/optimization/gurobi_execution_queue_constraints.py:361-367 | A worker uses its priorities without a gap |
| `ExecutionQueue.OneBin` | services/controller/src/controller/adapters/outbound/optimization/gurobi_execution_queue_constraints.py:381-430 | One bin holds the utilization of the higher priorities and carries the whole wait |
| `ExecutionQueue.WaitWithinRelativeError` | services/controller/src/controller/adapters/outbound/optimization/gurobi_execution_queue_constraints.py:94-144 | The least wait that the rows admit lies between H / (2 (1 - rho_lt)(1 - rho_le)) and (1 + relative error) times it |
| `WaitMeaning.ActiveWaitExact` | services/controller/src/controller/adapters/outbound/optimization/compact_execution_queue.py:80-100 | With the bounds of the waits, the rows of an active component hold exactly when its wait is at least the wait of its queue and at most the bound of that queue |
| `WaitMeaning.InactiveWaitExact` | services/controller/src/controller/adapters/outbound/optimization/gurobi_execution_queue_constraints.py:145-200 | The rows of an inactive component hold exactly when it does not wait |
| `WaitMeaning.QueueBoundsExact` | services/controller/src/controller/adapters/outbound/optimization/compact_execution_queue.py:41-79 | The bounds of a queue with a selected bin: at most the bound of the worker, for the first priority its unused share, and for the others its share for the bin |
| `WaitBounds.BoundWorker` | services/controller/src/controller/adapters/outbound/optimization/compact_bounds.py:27-45 | The loops compute the bound from the heaviest variant of each flow and the longest time |
| `WaitBounds.PrepareCompactProblem` | services/controller/src/controller/adapters/outbound/optimization/compact_bounds.py:18-53 | The bound of every worker, and of every flow the largest of its workers |
| `WaitBounds.WaitBoundIs` | services/controller/src/controller/adapters/outbound/optimization/compact_bounds.py:44-45 | The bound of a worker times 2 (1 - limit)^2 is the smaller one of the heaviest second moment and the limit times the longest time |
| `WaitBounds.SumOfSquares` | services/controller/src/controller/adapters/outbound/optimization/compact_bounds.py:35-42 | The sum of squares of the component times is at most the square of their sum |
| `WaitBounds.MomentWithinBound` | services/controller/src/controller/adapters/outbound/optimization/compact_bounds.py:33-43 | The second moment of a real placement is at most the sum over flows of the heaviest variant |
| `WaitBounds.MomentWithinLoad` | services/controller/src/controller/adapters/outbound/optimization/compact_bounds.py:39-44 | The second moment is at most the longest time times the utilization |
| `WaitBounds.RhoWithinTotal` | services/controller/src/controller/adapters/outbound/optimization/gurobi_execution_queue_constraints.py:215-247 | The utilization of the first priorities is at most the total |
| `WaitBounds.RoundedWaitFits` | services/controller/src/controller/adapters/outbound/optimization/compact_bounds.py:44-45 | The bin-rounded wait is within the worker bound and within the bound of its bin |
| `WaitBounds.RoundedQueueFeasible` | services/controller/src/controller/adapters/outbound/optimization/compact_execution_queue.py:47-79 | All rows and bounds of a queue hold at the rounded wait of a real placement |
| `WaitBounds.BoundsKeepRealPlacements` | services/controller/src/controller/adapters/outbound/optimization/compact_execution_queue.py:41-100 | At a point with physical times and bin-rounded waits, all queue and component rows hold with every bound per worker, priority, bin and flow |
| `BinLimits.BinExists` | services/controller/src/controller/adapters/outbound/optimization/gurobi_problem_builder.py:90-99 | Every utilization within the limit lies in a bin of the grid |
| `PlacementPoints.ShownIsAdmitted` | services/controller/src/controller/adapters/outbound/optimization/gurobi_structure_constraints.py:40-358 | The point that a valid placement and its priorities stand for is within all variable types and satisfies every structural row |
| `RealPlacements.TimesAgree` | services/controller/src/controller/adapters/outbound/optimization/compact_bounds.py:33-38 | For supported placements, the profiled times behind the wait bounds and the times of the execution rows are the same |
| `RealPlacements.QueueIsRounded` | services/controller/src/controller/adapters/outbound/optimization/compact_execution_queue.py:47-79 | For a real placement there is a bin for every queue, and the wait H / (2 (1 - l)(1 - rho_le)) with l the upper end of the bin |
| `RealPlacements.RealPlacementHasPoint` | services/controller/src/controller/adapters/outbound/optimization/compact_execution_queue.py:41-100 | For every valid, supported placement with gap-free priorities and no worker above the limit there is a point that encodes it and satisfies all structural, execution and queue rows, with every a-priori bound |
| `PlacedWaits.RhoAtLeast` | services/controller/src/controller/adapters/outbound/optimization/gurobi_execution_queue_constraints.py:215-283 | At a point of the rows the utilization of the first priorities is at least the rates of the chosen variants times the times of the components that run there at these priorities, and equal to it at the real times |
| `PlacedWaits.MomentAtLeast` | services/controller/src/controller/adapters/outbound/optimization/gurobi_execution_queue_constraints.py:249-283 | The second moment is at least the sum of rate times squared time over the components on the worker, and equal to it at the real times |
| `PlacedWaits.PointIsReal` | services/controller/src/controller/adapters/outbound/optimization/compact_execution_queue.py:41-100 | Whatever placement a point of the compute rows encodes is supported, has valid priorities without a gap, and keeps every worker within the utilization limit |
| `PlacedWaits.RowsAdmitExactlyReal` | services/controller/src/controller/adapters/outbound/optimization/compact_execution_queue.py:41-100 | A point of all structural, execution and queue rows that encodes a placement exists if and only if the placement is real |
| `PlacedWaits.ComponentNotFaster` | services/controller/src/controller/adapters/outbound/optimization/compact_execution_queue.py:80-100 | The wait of an active component times 2 (1 - rho_lt)(1 - rho_le) is at least the second moment, all three computed from the placements alone; an inactive component does not wait |
| `PlacedWaits.RealWaitIsTight` | services/controller/src/controller/adapters/outbound/optimization/compact_execution_queue.py:80-100 | For every real placement some point of the rows keeps each wait within 1 + relative error of that of the priority queue |
| `FlowSolutions.ExtractComponents` | services/controller/src/controller/adapters/outbound/optimization/gurobi_solution.py:136-216 | The components read from a point are those of its placement, and no check fires |
| `FlowSolutions.ExtractCuts` | services/controller/src/controller/adapters/outbound/optimization/gurobi_solution.py:220-242 | Each cut holds exactly the tensors that cross between two neighbouring components |
| `FlowSolutions.ExtractSolution` | services/controller/src/controller/adapters/outbound/optimization/gurobi_solution.py:116-255 | The flow solution of a point describes its placement, with the right endpoints |
| `FlowSolutions.ValidateFlowPlacements` | services/controller/src/controller/adapters/outbound/optimization/gurobi_solution.py:59-95 | True exactly for components that keep the fixed endpoints and leave computation away from a relay-only worker |
| `Planning.RelayOnlyRespected` | services/controller/src/controller/adapters/outbound/optimization/gurobi_solution.py:82-95 | The check for relay-only workers never fails on a point of the rows |
| `FlowRoutes.ExecutableWindow` | services/controller/src/controller/application/deployment/builder/flow_solution_routes.py:8-26 | The executable components are a contiguous window, and they exist exactly when the model has a hidden layer |
| `FlowRoutes.InputRoute` | services/controller/src/controller/application/deployment/builder/flow_solution_routes.py:29-40 | The first executable component is fed exactly what the input layers emit |
| `FlowRoutes.ResultRoute` | services/controller/src/controller/application/deployment/builder/flow_solution_routes.py:43-54 | The last executable component sends exactly what the output layers receive |
| `FlowRoutes.MiddleRoute` | services/controller/src/controller/application/deployment/builder/flow_solution_routes.py:57-92 | Neighbouring executable components exchange the tensors that cross the cut between them |
| `FlowRoutes.CutTensorsExactly` | services/controller/src/controller/application/deployment/builder/flow_solution_routes.py:79-92 | A cut between two components is found exactly if there is one and only one, and it is that one |
| `FlowRoutes.TensorsBetweenExactly` | services/controller/src/controller/application/deployment/builder/flow_solution_routes.py:57-76 | The tensors between two executable components exist exactly if all cuts on the way are found and carry the same |
| `FlowRoutes.CrossingNonEmpty` | services/controller/src/controller/application/deployment/builder/flow_solution_routes.py:79-92 | No cut of a placement is empty |
| `FlowRoutes.EndsNonEmpty` | services/controller/src/controller/application/deployment/builder/flow_solution_routes.py:29-54 | Neither what enters the first nor what leaves the last executable component is empty |
| `Inference.ComputeIsEvaluate` | services/worker/src/worker/adapters/outbound/partition_execution/onnx/onnx_partition_executor.py:51-122 | Computing a partition from correct inputs gives the values of the whole model |
| `Inference.ExecuteCorrect` | services/worker/src/worker/adapters/outbound/partition_execution/onnx/onnx_partition_executor.py:51-122 | With correct inputs the executor succeeds and returns exactly the tensors that the layers emit, with the values of the whole model |
| `Inference.ExecuteFailsExactly` | services/worker/src/worker/adapters/outbound/partition_execution/onnx/onnx_partition_executor.py:51-122 | The executor fails exactly if a tensor that enters the partition is missing |
| `WorkerRuntime.Restricted` | services/worker/src/worker/domain/tensor/tensor_bundle.py:29-34 | Filtering keeps exactly the named tensors, unchanged |
| `WorkerRuntime.Assemble` | services/worker/src/worker/application/hop_invocation/default_hop_invocation_request_assembler.py:40-103 | The accumulation loop, with the missing-input check and the filter |
| `WorkerRuntime.Route` | services/worker/src/worker/application/hop_contribution_snd/default_hop_output_router.py:31-81 | The loops that merge what is available and send the routed part to each destination |
| `RuntimeChecks.AssembledExactly` | services/worker/src/worker/application/hop_invocation/default_hop_invocation_request_assembler.py:40-103 | Assembling succeeds exactly for contributions of one hop and pass whose scheme is planned and whose inputs have arrived, and gives the named tensors with the values that arrived last |
| `RuntimeChecks.RoutedExactly` | services/worker/src/worker/application/hop_contribution_snd/default_hop_output_router.py:31-81 | Routing succeeds exactly if the hop is planned, everything to send is there, a sink sends nothing and nothing leaves the flow; then one contribution goes to each destination, with exactly its tensors, computed values first |
| `ReplicaIds.BuildPartitionReplicaIds` | services/controller/src/controller/application/deployment/builder/partition_replica_id_builder.py:20-47 | Every executable component gets one id of its partition, no two components share one, and duplicate flows are errors |
| `ReplicaIds.BuildEndpointIds` | services/controller/src/controller/application/deployment/builder/endpoint_replica_id_builder.py:23-35 | Every flow gets an ingress and a sink of its variant, shared with no other flow |
| `PlanBuilder.PlaceHop` | services/controller/src/controller/application/deployment/builder/default_worker_plan_builder.py:209-224 | One hop joins the lists of its worker; it fails exactly on empty tensors or a scheme that differs |
| `PlanBuilder.AddFlow` | services/controller/src/controller/application/deployment/builder/default_worker_plan_builder.py:75-190 | The hops of one flow join the plans: the ingress, the executable components, the sink |
| `PlanBuilder.BuildAll` | services/controller/src/controller/application/deployment/builder/default_worker_plan_builder.py:47-206 | Plans for exactly the workers that host a hop, listing their hops; errors exactly when a flow has no route or two schemes clash |
| `PlanGluing.PlanIsValid` | services/controller/src/controller/domain/plan/worker_plan.py:18-32 | No validity check of the plan classes can fire |
| `PlanGluing.HopsDistinct` | services/controller/src/controller/application/deployment/builder/default_worker_plan_builder.py:75-190 | No two hops of any flows have the same id |
| `PlanGluing.HopOnOneWorker` | services/controller/src/controller/application/deployment/builder/default_worker_plan_builder.py:191-206 | A hop is known to its own worker and to no other |
| `PlanGluing.HopFound` | services/worker/src/worker/domain/plan/hop_routing_plan.py:106-113 | The plan of its worker answers with the routings and the scheme that a hop was built with |
| `PlanGluing.OutputHasOneInput` | services/controller/src/controller/application/deployment/builder/default_worker_plan_builder.py:107-190 | Every output routing has one hop that expects it, with the same tensors |
| `PlanGluing.InputHasOneOutput` | services/controller/src/controller/application/deployment/builder/default_worker_plan_builder.py:107-190 | Every input routing inside the system has one hop that sends it, with the same tensors |
| `PlanGluing.LinksOfSolution` | services/controller/src/controller/application/deployment/builder/default_worker_plan_builder.py:104-160 | Every link of a solved flow exists, is not empty, and carries what enters, crosses or leaves at that place |
| `PlanGluing.ConsistentIsAgreement` | services/controller/src/controller/application/deployment/builder/default_worker_plan_builder.py:209-224 | The schemes of all hops are consistent exactly when components with the same layers on the same worker have the same contract |
| `PlanGluing.PlansBuild` | services/controller/src/controller/application/deployment/builder/default_worker_plan_builder.py:47-206 | For solved flows, plan building succeeds if and only if the schemes agree |
| `PlannedPriorities.PlansSchedule` | services/controller/src/controller/application/deployment/builder/default_worker_plan_builder.py:94-100 | The plan of a worker schedules exactly the replicas of the components that the solution puts there, each with the priority of its component |
| `PlannedPriorities.EndsPlaced` | services/controller/src/controller/application/deployment/builder/default_worker_plan_builder.py:107-190 | The ingress of a flow is in the plan of its ingress worker and its sink in that of its sink worker, and in no other plan |
| `SchemeConflict.SchemesCanDisagree` | services/controller/src/controller/domain/profile/model_variant_topology.py:133-171 | Two solved flows whose schemes do not agree, so that no plans can be built, and one point that satisfies all structural rows of both and encodes them |
| `Planning.PlansOfPoints` | services/controller/src/controller/application/deployment/builder/default_worker_plan_builder.py:47-206 | From any solver points to plans: no check fires, plans exist if and only if the schemes agree, every replica is planned with the priority that the point chooses on its worker, and every flow enters and leaves at the workers of its first and last component |
| `EndToEnd.StepNeedsExactInput` | services/worker/src/worker/domain/plan/hop_routing_plan.py:48-80 | A hop only goes on with exactly the tensors that its routings expect |
| `EndToEnd.ComponentStep` | services/worker/src/worker/application/hop_invocation/default_hop_invocation_request_assembler.py:62-87 | A partition hop finds its inputs and its outputs, and forwards correct values of exactly the tensors of the next link, skip tensors included |
| `EndToEnd.RunDelivers` | services/worker/src/worker/application/hop_contribution_snd/default_hop_output_router.py:48-81 | From any hop on, a correct contribution leads to the result of the whole model |
| `EndToEnd.PassPreservesMeaning` | services/controller/src/controller/application/deployment/builder/default_worker_plan_builder.py:107-190 | A run from the ingress meets no error, and the sink receives exactly the output tensors of the model, with the values of whole-model evaluation |
| `Planning.FlowDelivers` | services/controller/src/controller/application/deployment/builder/flow_solution_routes.py:8-92 | Every flow of a rolled-out solution computes its whole model |
| `ContributionPolicy.CollectArrived` | services/worker/src/worker/application/hop_contribution_rcv/default_contribution_gathering_policy.py:70-80 | The loop collects everything received from each source |
| `ContributionPolicy.ValidateAccepts` | services/worker/src/worker/application/hop_contribution_rcv/default_contribution_gathering_policy.py:82-132 | A contribution that passes the checks keeps the collection within the routing contract and without duplicates |
| `RuntimeChecks.ValidateExactly` | services/worker/src/worker/application/hop_contribution_rcv/default_contribution_gathering_policy.py:82-132 | A contribution passes exactly if it belongs to the others, comes from an expected source and brings only expected tensors, none of them twice; a missing plan is reported only then |
| `ContributionPolicy.CompleteMeansExact` | services/worker/src/worker/domain/plan/hop_routing_plan.py:48-80 | An accepted, ready collection holds exactly the expected tensors of every source, each once |
| `ContributionPolicy.MergedIgnoresOrder` | services/worker/src/worker/application/hop_invocation/default_hop_invocation_request_assembler.py:62-66 | The merged payload does not depend on the order of arrival |
| `ContributionPipeline.NextKeeps` | services/worker/src/worker/application/hop_contribution_rcv/default_contribution_pipeline.py:48-102 | Every atomic section keeps the invariant |
| `ContributionPipeline.RunKeeps` | services/worker/src/worker/application/hop_contribution_rcv/default_contribution_pipeline.py:48-134 | The invariant holds in every state of every interleaving, with new submissions and plans at any time |
| `ContributionPipeline.SlotsAlwaysExact` | services/worker/src/worker/application/hop_contribution_rcv/default_contribution_pipeline.py:115-134 | A key has a lock slot exactly while a submission is between acquire and release, users counts these, and all share the slot |
| `ContributionPipeline.MutualExclusion` | services/worker/src/worker/application/hop_contribution_rcv/default_contribution_pipeline.py:53-55 | At most one submission of a key is inside the lock |
| `ContributionPipeline.DepositedAtMostOnce` | services/worker/src/worker/application/hop_contribution_rcv/default_contribution_pipeline.py:92-97 | Every key is deposited at most once |
| `ContributionPipeline.DepositIsExact` | services/worker/src/worker/application/hop_contribution_rcv/default_contribution_pipeline.py:88-97 | A deposited collection carries exactly the expected tensors of every routed source, each once |
| `ContributionPipeline.StoredIsIncomplete` | services/worker/src/worker/application/hop_contribution_rcv/default_contribution_pipeline.py:92-102 | A complete set is never left in the store, and what is stored has a registered, unresolved handle |
| `ContributionPipeline.ResolvedIsDeposited` | services/worker/src/worker/application/hop_contribution_rcv/default_contribution_pipeline.py:96-99 | A resolved handle belongs to a deposited collection |
| `ContributionOutcomes.RefusedAtDeposit` | services/worker/src/worker/application/hop_contribution_rcv/default_contribution_pipeline.py:92-99 | A complete set of a key that was deposited before is refused as a duplicate, and the handle that its submission registered stays pending |
| `ContributionOutcomes.LoneSubmission` | services/worker/src/worker/application/hop_contribution_rcv/default_contribution_pipeline.py:48-102 | How a submission that runs alone ends, by what is stored and deposited: stored, refused or deposited and resolved |
| `LateContributions.LateCompleteIsRefused` | services/worker/src/worker/application/hop_contribution_rcv/default_contribution_pipeline.py:81-99 | A run of a one-source plan that ends with a refused late contribution and a registered handle that is pending |
| `LateContributions.LateIncompleteIsStored` | services/worker/src/worker/application/hop_contribution_rcv/default_contribution_pipeline.py:81-102 | A run of a two-source plan that ends with a late contribution in the store and a pending handle for it |
| `LateContributions.PlannedIsCompletable` | services/controller/src/controller/domain/plan/hop_routing_plan.py:14-50 | The checks of a plan leave routings that some contributions can complete |
| `LateContributions.ResolvableExactly` | services/worker/src/worker/application/hop_contribution_rcv/default_contribution_pipeline.py:81-102 | For a registered pending handle some continuation resolves it if and only if a submission is concluding for its key, or the key was not deposited and its routings are completable |
| `ContributionPipeline.LateHandlesNeverResolve` | services/worker/src/worker/application/hop_contribution_rcv/default_contribution_pipeline.py:81-102 | Once a collection is deposited and its handle settled, no further handle of its key is ever resolved, however the run goes on |
| `ContributionConservation.WaitingIsHeld` | services/worker/src/worker/application/hop_contribution_rcv/default_contribution_pipeline.py:81-102 | Whoever waits for an unresolved handle has its contribution in the store or in a deposited collection |
| `ContributionConservation.HeldForGood` | services/worker/src/worker/application/hop_contribution_rcv/default_contribution_pipeline.py:48-102 | What is stored or deposited is never dropped, whatever happens next |
| `ContributionConservation.CompleteArrivalIsDeposited` | services/worker/src/worker/application/hop_contribution_rcv/default_contribution_pipeline.py:88-97 | When everything expected of a key has been taken, in whatever portions, its collection has been deposited |
| `ContributionPipeline.RoutingNeverLost` | services/worker/src/worker/application/hop_contribution_rcv/default_contribution_gathering_policy.py:68 | The lookup of the routings in the readiness test cannot fail after validation |
| `ContributionPipeline.SomeSubmissionCanGoOn` | services/worker/src/worker/application/hop_contribution_rcv/default_contribution_pipeline.py:49-79 | As long as a submission has not finished, some submission can go on |
| `ContributionReceiver.InMemoryContributionStore.Put` | services/worker/src/worker/adapters/outbound/contribution_store/in_memory_contribution_store.py:15-18 | The contribution joins the end of the list of its key |
| `ContributionReceiver.OrderedPostbox.Deposit` | services/worker/src/worker/application/postbox/ordered_postbox.py:20-28 | A key is accepted once, and deposits keep their order |
| `ContributionReceiver.OrderedPostbox.ExtractNext` | services/worker/src/worker/application/postbox/ordered_postbox.py:30-31 | Values leave in the order of their deposits |
| `ContributionReceiver.DefaultContributionPipeline.AcquireLockSlot` | services/worker/src/worker/application/hop_contribution_rcv/default_contribution_pipeline.py:115-122 | The slot of the key, a new one if needed, has one more user |
| `ContributionReceiver.DefaultContributionPipeline.ReleaseLockSlot` | services/worker/src/worker/application/hop_contribution_rcv/default_contribution_pipeline.py:124-134 | The last user drops the slot, and the handle if its future is done |
| `ContributionReceiver.DefaultContributionPipeline.GetOrBuildHandle` | services/worker/src/worker/application/hop_contribution_rcv/default_contribution_pipeline.py:104-113 | The registered handle, or a new one that is not registered yet |
| `ContributionReceiver.DefaultContributionPipeline.Resume` | services/worker/src/worker/application/hop_contribution_rcv/default_contribution_pipeline.py:49-102 | Running a submission up to its next await is one section of the state machine |
| `Rollout.InMemoryPlanStore.Put` | services/worker/src/worker/adapters/outbound/plan_store/in_memory_plan_store.py:31-37 | A stored version is never replaced by a different plan |
| `Rollout.InMemoryPlanStore.Activate` | services/worker/src/worker/adapters/outbound/plan_store/in_memory_plan_store.py:48-53 | Only a stored version becomes active |
| `Rollout.PartitionExecutorRegistry.Register` | services/worker/src/worker/application/hop_handler/default_partition_executor_registry.py:38-54 | A version and hop are registered once |
| `Rollout.PlanVersionBuilder.BuildNextPlanVersion` | services/controller/src/controller/application/deployment/builder/plan_version_builder.py:4-10 | Versions count up by one |
| `Rollout.Registered` | packages/catalog/src/catalog/redis/hop/redis_hop_deployment_catalog.py:35-58 | Registering the hops of a plan overwrites no catalog entry of another worker |
| `Rollout.Stored` | services/worker/src/worker/application/deployment/default_worker_plan_deployer.py:60-73 | Storing a prepared plan never fails and leaves the worker ready for the version |
| `Rollout.RunKeeps` | services/controller/src/controller/application/deployment/default_actuation_manager.py:59-133 | The rollout invariant holds in every state of every run, with any failures and late preparations of abandoned versions; a version is published only when all its workers have applied it |
| `Rollout.PublishedFlowsAreServed` | services/controller/src/controller/application/deployment/default_actuation_manager.py:59-133 | Following the routes of a published flow version from its ingress reaches its sink, and every hop on the way is catalogued, planned and has its executor |
| `Rollout.CurrentIsNewest` | services/controller/src/controller/adapters/outbound/store/redis_flow_plan_publisher.py:25-51 | The current version of a flow is published, and no published version is newer |
| `Rollout.PublishedVersionsStay` | services/worker/src/worker/application/deployment/default_worker_plan_deployer.py:60-118 | No later version and no failure takes a published version away |
| `RolloutProgress.RolloutCanSucceed` | services/controller/src/controller/application/deployment/default_actuation_manager.py:59-133 | From every reachable idle state and every well-built deployment of the next version, some run leads to an idle state in which all its flows are published with their endpoints and are current, and all its workers have it active |
| `RolloutProgress.OnlyAppliedVersionsArePublished` | services/controller/src/controller/application/deployment/default_actuation_manager.py:98-110 | A step adds a flow plan only of the version at hand, only with the endpoints of its deployment, and only when all its workers have stored and applied it |
| `PublishedModels.BuiltDeploymentIsWell` | services/controller/src/controller/application/deployment/builder/default_worker_plan_builder.py:47-206 | What the plan builder makes of a solved solution meets all assumptions of the rollout |
| `PublishedModels.PublishedFlowComputesModel` | services/controller/src/controller/application/deployment/default_actuation_manager.py:59-110 | In every reachable state a pass that enters at the published ingress of a flow version delivers what evaluating the whole model delivers |
| `RollingPasses.StepStays` | services/worker/src/worker/application/deployment/default_worker_plan_deployer.py:60-118 | What a hop has answered it answers in every later state of the rollout |
| `RollingPasses.PassDuringRollout` | services/controller/src/controller/application/deployment/default_actuation_manager.py:59-133 | The same when later versions are prepared, applied, published or given up between any two hops of the pass |
| `ActivityGrants.GrantKeepsBalance` | services/worker/src/worker/adapters/outbound/activity_manager/local_activity_manager.py:55-73 | Granting keeps available plus held equal to the capacity, with nothing negative |
| `ActivityGrants.ReleaseKeepsBalance` | services/worker/src/worker/adapters/outbound/activity_manager/local_activity_manager.py:75-89 | So does releasing |
| `ActivityGrants.ExclusiveHoldsAlone` | services/worker/src/worker/domain/activity/activity_request.py:20-31 | While an exclusive requirement of a resource of positive capacity is granted, no other grant contains the resource |
| `ActivityGrants.ExclusiveKeepsOut` | services/worker/src/worker/adapters/outbound/activity_manager/local_activity_manager.py:37-54 | Nor is any other valid request that names the resource granted meanwhile |
| `ActivityGrants.FreeExactly` | services/worker/src/worker/adapters/outbound/activity_manager/local_activity_manager.py:37-61 | Two non-exclusive amounts are both granted exactly when their quantities fit together |
| `ActivityGrants.GrantsWithinCapacity` | services/worker/src/worker/adapters/outbound/activity_manager/local_activity_manager.py:32-73 | No grant, and no sum of grants, exceeds the capacity |
| `ActivityWaiting.RunKeeps` | services/worker/src/worker/adapters/outbound/activity_manager/local_activity_manager.py:55-89 | Over all runs of arrivals, looks, sleeps and releases: grants and availability balance, and no sleeper could go |
| `ActivityWaiting.NoLostWakeUp` | services/worker/src/worker/adapters/outbound/activity_manager/local_activity_manager.py:55-61 | Whoever sleeps could not be granted its request now |
| `ActivityWaiting.IdleHasNoSleeper` | services/worker/src/worker/adapters/outbound/activity_manager/local_activity_manager.py:55-89 | When nothing is held, nobody sleeps and every waiting request is free to go |
| `ActivityWaiting.GrantsAreRequests` | services/worker/src/worker/adapters/outbound/activity_manager/local_activity_manager.py:37-73 | In every reachable state a grant holds exactly what its request asks for: the whole capacity if exclusive, else the quantity |
| `ActivityWaiting.ExclusiveIsAlone` | services/worker/src/worker/adapters/outbound/activity_manager/local_activity_manager.py:37-73 | In every reachable state an exclusive grant is the only one that contains its resource |
| `ActivityWaiting.GrantedExactlyWhenItFits` | services/worker/src/worker/adapters/outbound/activity_manager/local_activity_manager.py:55-73 | In every reachable state a request is granted exactly if what it asks for is left of the capacity beside the granted requests |
| `ActivityGrants.LocalActivityManager.RequiredAllocations` | services/worker/src/worker/adapters/outbound/activity_manager/local_activity_manager.py:32-54 | The whole capacity for an exclusive requirement and the quantity for any other, or an error exactly for unknown resources and amounts beyond the capacity |
| `ActivityGrants.LocalActivityManager.TryAcquire` | services/worker/src/worker/adapters/outbound/activity_manager/local_activity_manager.py:32-73 | All that the request asks for at once, or nothing at all |
| `ActivityGrants.LocalActivityManager.Release` | services/worker/src/worker/adapters/outbound/activity_manager/local_activity_manager.py:75-89 | A grant gives back what it holds, once; an unknown grant changes nothing |
| `ActivityGrants.ActivityGrant.Release` | services/worker/src/worker/domain/activity/activity_request.py:89-99 | A grant object releases at most once with effect |
| `Contraction.BoundaryTensors` | services/model_manager/src/model_manager/domain/model_variant_topology.py:191-230 | The loops find exactly the tensors that enter and leave a set of layers |
| `Contraction.InferContractedGroup` | services/model_manager/src/model_manager/adapters/outbound/model_profiler/onnx_contraction_computer.py:112-154 | The worklist terminates, and finds the group of a fused node exactly if there is one |
| `Contraction.ExtractContractions` | services/model_manager/src/model_manager/adapters/outbound/model_profiler/onnx_contraction_computer.py:58-110 | The groups of all fused nodes, each in topological order and sorted by first layer, or an error exactly when two overlap |
| `Journal.ReadJournal` | experiments/scalability/src/scalability_benchmark/persistence.py:54-86 | The last record per run of all complete lines; a bad complete line is an error, and repair cuts off exactly an unfinished last line |
| `Journal.ReadCommitted` | experiments/scalability/src/scalability_benchmark/persistence.py:54-86 | Reading committed records and then anything is reading the rest with these records before it |
| `Journal.ReadLinesExact` | experiments/scalability/src/scalability_benchmark/persistence.py:54-86 | For an arbitrary file: all complete lines are read if each is an event, and else the result is the error of the first that is not; an unfinished last line does not count |
| `Journal.SplitIntoLines` | experiments/scalability/src/scalability_benchmark/persistence.py:59-65 | Every file is a sequence of complete lines and an unfinished rest |
| `Journal.LatestIsLast` | experiments/scalability/src/scalability_benchmark/persistence.py:85 | The latest record of a run is the last one with its id |
| `Journal.ResultStore.Enter` | experiments/scalability/src/scalability_benchmark/persistence.py:114-129 | Opening repairs what a crash left and loses no committed record; existing runs need resume |
| `Journal.ResultStore.Append` | experiments/scalability/src/scalability_benchmark/persistence.py:154-167 | An uninterrupted append commits its record |
| `Journal.ResultStore.Completed` | experiments/scalability/src/scalability_benchmark/persistence.py:144-152 | A run is complete if its last record finished, was not interrupted, and is not an error to be tried again |
| `Journal.RunKeeps` | experiments/scalability/src/scalability_benchmark/persistence.py:104-167 | The invariant holds over all appends, crashes within an append at any byte, and reopenings |
| `Journal.RunningWriterIsConsistent` | experiments/scalability/src/scalability_benchmark/persistence.py:154-167 | While the writer is up, the file is exactly the committed records, and latest sums them up; nothing acknowledged is missing |
| `Journal.ReopeningSucceeds` | experiments/scalability/src/scalability_benchmark/persistence.py:114-129 | Reopening after a crash succeeds and reads exactly the committed records |

## Left out

- Gurobi, HiGHS and ONNX Runtime: the solver is any point that satisfies the rows, an optimum is a true optimum, and a partition executor evaluates the layers of its partition.
- Floating point: times, sizes and utilizations are exact reals; the ceiling of a quotient of logarithms is the least exponent it stands for, and solver tolerances are not part of the model.
- HTTP, Arrow Flight, Redis, S3 and JSON: the catalog and the published flow plans are maps with atomic batch writes, and the record encoding is injective and free of newlines.
- Optimality.OptimumMissesFewest and Optimality.OptimumDelaysLeast: the violation and delay variables are taken at the least values that their rows allow.
- The coefficients of the accuracy objective are given numbers; the choice of the matching metric is not modelled.
- Backend and resource allocation of hops, artifacts, metrics and unit conversions: they do not influence routing or the rows.
- The outermost loops over flows in the execution, transmission and memory rows: one `FlowProblem` stands for one flow, and its rows mention no other flow; rows over several flows (queues, capacity) are modelled over all of them.
- FlowSolutions.ExtractSolution: the times and the backend that are copied into the solution are not modelled, since no later step reads them; it is stated for points of the rows, since no solver may return others.
- PlanBuilder.BuildAll: the source appends the entries of a hop to separate lists in two passes over a flow; the model appends them hop by hop, so which of several errors is raised first is not captured.
- EndToEnd.PassPreservesMeaning: the run follows the single next hop of each hop; a plan with several outputs for one hop, which the plan builder never makes, is not run.
- ContributionPipeline.RunKeeps: there is no cancellation and there are no time-outs; the order in which waiting submissions get the lock is arbitrary.
- ActivityGrants.LocalActivityManager.TryAcquire: it is one look at the condition; sleeping and waking up is the state machine of ActivityWaiting, where which waiter goes first is arbitrary, so no fairness is stated.
- Rollout.RunKeeps: there is no restart of the controller, whose version counter would begin anew, and no restart of a worker.
- Journal.ReadJournal: the errors do not carry the byte offset of the bad line.
- Journal.RunKeeps: there is one writer; the lock file is taken as held, and the summary file is not modelled.
- Profilers, probes, heartbeats, advertising, plotting and campaign enumeration: loops of I/O without an invariant of this kind.
