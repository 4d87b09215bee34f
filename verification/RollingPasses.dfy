/**
 Passes while the rollout goes on. Between two hops of one model pass, later versions may be prepared, applied,
 published or given up; the pass delivers what it would have delivered in one frozen state.
 */
module RollingPasses {
  import opened Lp
  import opened ModelTopology
  import opened FlowSolutions
  import opened FlowRoutes
  import opened Assignment
  import opened Structure
  import opened Plans
  import opened Inference
  import opened ReplicaIds
  import opened WorkerRuntime
  import opened EndToEnd
  import opened Planning
  import opened PublishedModels
  import R = Rollout

  // ----- what a later system still has

  /** Every catalog entry and every stored plan of a system is also there later. */
  ghost predicate Keeps(sys: System, sys': System)
  {
    && sys'.topologyOf == sys.topologyOf && sys'.layers == sys.layers
    && (forall key :: key in sys.catalog ==> key in sys'.catalog && sys'.catalog[key] == sys.catalog[key])
    && (forall w, v :: w in sys.stores && v in sys.stores[w] ==>
          w in sys'.stores && v in sys'.stores[w] && sys'.stores[w][v] == sys.stores[w][v])
  }

  /** What a hop has answered it would also answer later. */
  lemma StepStays(sys: System, sys': System, c: Contribution)
    requires Keeps(sys, sys') && Step(sys, c).Ok?
    ensures Step(sys', c) == Step(sys, c)
  {
    hide RoutingsFor, ValidSources, InputsReady, Handled, Executable;
    var key := (c.context.version, c.destination);
    var store, store' := sys.stores[sys.catalog[key]], sys'.stores[sys'.catalog[key]];
    SameExecutable(sys, sys');
    SameHandling(store, store', c);
  }

  lemma SameExecutable(sys: System, sys': System)
    requires sys'.topologyOf == sys.topologyOf
    ensures forall h :: Executable(sys', h) == Executable(sys, h)
  {
  }

  lemma SameHandling(store: PlanStore, store': PlanStore, c: Contribution)
    requires c.context.version in store && c.context.version in store'
    requires store'[c.context.version] == store[c.context.version]
    ensures Assembled(store', [c]) == Assembled(store, [c])
    ensures forall result :: Routed(store', c.context, c.destination, [c], result)
                          == Routed(store, c.context, c.destination, [c], result)
  {
    hide RoutingsFor, Merged, SchemeFor, RouteOutputTensors;
  }

  // ----- a pass whose hops are reached at different moments

  /** The run of one pass, whose next hop is always reached in the next of the given systems. */
  ghost function RunOver(systems: seq<System>, c: Contribution): Outcome
  {
    if systems == [] then Running else
    var step := Step(systems[0], c);
    if step.Err? then Failed(step.message) else
    match step.value
    case Deposit(bundle) => Delivered(bundle)
    case Forward(next) => if |next| != 1 then Failed("The pass forks") else RunOver(systems[1..], next[0])
  }

  lemma {:induction false} SameDelivery(sys: System, systems: seq<System>, c: Contribution, b: Bundle)
    requires Run(sys, c, |systems|) == Delivered(b)
    requires forall i :: 0 <= i < |systems| ==> Keeps(sys, systems[i])
    ensures RunOver(systems, c) == Delivered(b)
    decreases |systems|
  {
    hide Step, Keeps;
    var step := Step(sys, c);
    StepStays(sys, systems[0], c);
    if step.value.Forward? {
      SameDelivery(sys, systems[1..], step.value.contributions[0], b);
    }
  }

  // ----- the moments of a run

  /** Moments of a run, in order, from the given one on. */
  predicate Schedule(length: nat, first: nat, at: seq<nat>)
  {
    forall i :: 0 <= i < |at| ==> first <= at[i] < length && (i > 0 ==> at[i - 1] <= at[i])
  }

  ghost function SystemsAt(run: seq<R.State>, at: seq<nat>, topologyOf: ModelVariantId -> Topology,
                           layers: LayerFunction)
    : (r: seq<System>)
    requires forall i :: 0 <= i < |at| ==> at[i] < |run|
    ensures |r| == |at| && forall i :: 0 <= i < |at| ==> r[i] == SystemAt(run[at[i]], topologyOf, layers)
  {
    seq(|at|, i requires 0 <= i < |at| => SystemAt(run[at[i]], topologyOf, layers))
  }

  lemma GrownKeeps(s: R.State, s': R.State, topologyOf: ModelVariantId -> Topology, layers: LayerFunction)
    requires R.Grows(s, s')
    ensures Keeps(SystemAt(s, topologyOf, layers), SystemAt(s', topologyOf, layers))
  {
    forall w, v | w in s.stores && v in s.stores[w]
      ensures w in s'.stores && v in s'.stores[w] && s'.stores[w][v] == s.stores[w][v]
    {
      assert v in R.StoreOf(s, w);
    }
  }

  lemma {:induction false} RunGrows(run: seq<R.State>, i: nat, j: nat)
    requires R.IsRun(run) && i <= j < |run|
    ensures R.Grows(run[i], run[j])
    decreases j
  {
    hide R.Step, R.Initial;
    if i < j {
      RunGrows(run, i, j - 1);
      PrefixKeeps(run, j - 1);
      R.StepGrows(run[j - 1], run[j]);
      R.GrowsOn(run[i], run[j - 1], run[j]);
    } else {
      R.GrowsFrom(run[i]);
    }
  }

  lemma PrefixKeeps(run: seq<R.State>, i: nat)
    requires R.IsRun(run) && i < |run|
    ensures R.Inv(run[i]) && R.Reached(run[..i + 1], run[i])
  {
    hide R.Step, R.Initial, R.Inv;
    var prefix := run[..i + 1];
    assert forall k :: 0 < k < |prefix| ==> R.Step(prefix[k - 1], prefix[k]);
    R.RunKeeps(prefix);
  }

  lemma PlacementPerFlow(d: R.Deployment, solution: seq<FlowSolution>, fps: seq<FlowProblem>, pls: seq<Placement>,
                         ids: ReplicasByFlow, ends: map<FlowId, Endpoints>)
    requires BuiltFrom(d, solution, fps, pls, ids, ends)
    ensures |pls| == |solution|
  {
  }

  /**
   A pass enters at the ingress that was published at some moment of a run, and its hops are reached at any
   later moments, while the rollout takes whatever steps it takes. The sink receives exactly what evaluating
   the flow's model delivers.
   */
  lemma {:induction false} PassDuringRollout(
    run: seq<R.State>, first: nat, at: seq<nat>, version: nat, solution: seq<FlowSolution>, fps: seq<FlowProblem>,
    pls: seq<Placement>, ids: ReplicasByFlow, ends: map<FlowId, Endpoints>, i: nat,
    topologyOf: ModelVariantId -> Topology, layers: LayerFunction, context: PassContext, entry: Bundle)
    requires R.IsRun(run) && first < |run| && Schedule(|run|, first, at)
    requires i < |solution| && (solution[i].flow, version) in run[first].flowPlans
    requires version in run[first].deployments
    requires BuiltFrom(run[first].deployments[version], solution, fps, pls, ids, ends)
    requires |at| == PassLength(solution[i])
    requires context.flow == solution[i].flow && context.version == version
    requires topologyOf(pls[i].variant) == fps[i].topologyOf(pls[i].variant)
    requires entry.Keys == EntryTensors(topologyOf(pls[i].variant))
    ensures Acyclic(topologyOf(pls[i].variant)) && SingleSource(topologyOf(pls[i].variant).edges)
    ensures var ingress := run[first].flowPlans[(solution[i].flow, version)].ingress;
            RunOver(SystemsAt(run, at, topologyOf, layers), Contribution(context, External, ingress, entry))
            == Delivered(WholeModel(topologyOf(pls[i].variant), layers, entry))
  {
    hide R.Step, R.Initial, R.Inv, BuiltFrom, PassLength, Run, RunOver, WholeModel, EntryTensors, Keeps, R.Grows, R.IsRun;
    hide R.Reached, Acyclic, SingleSource;
    PrefixKeeps(run, first);
    var s := run[first];
    PlacementPerFlow(s.deployments[version], solution, fps, pls, ids, ends);
    PublishedFlowComputesModel(run[..first + 1], s, version, solution, fps, pls, ids, ends, i, topologyOf, layers,
                               context, entry);
    var sys, systems := SystemAt(s, topologyOf, layers), SystemsAt(run, at, topologyOf, layers);
    forall k | 0 <= k < |systems| ensures Keeps(sys, systems[k]) {
      RunGrows(run, first, at[k]);
      GrownKeeps(s, run[at[k]], topologyOf, layers);
    }
    SameDelivery(sys, systems, Contribution(context, External, s.flowPlans[(solution[i].flow, version)].ingress, entry),
                 WholeModel(topologyOf(pls[i].variant), layers, entry));
  }
}
