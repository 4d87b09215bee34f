/** From solver points to published flows: what clients of a published flow get is what the model computes. */
module PublishedModels {
  import opened Lp
  import opened ModelTopology
  import opened Assignment
  import opened Structure
  import opened FlowSolutions
  import opened FlowRoutes
  import opened Plans
  import opened Inference
  import opened ReplicaIds
  import opened PlanBuilder
  import opened PlanGluing
  import opened WorkerRuntime
  import opened EndToEnd
  import opened Planning
  import R = Rollout

  function EntryOf(s: FlowSolution, ids: ReplicasByFlow, ends: map<FlowId, Endpoints>): R.FlowEntry
    requires s.flow in ids && s.flow in ends && Identified(s, ids[s.flow], ends[s.flow])
  {
    R.FlowEntry(ends[s.flow], Chain(s, ids[s.flow], ends[s.flow]))
  }

  /** The flows of a solution, with their ingress, sink and chain of hops. */
  ghost predicate FlowsOf(solution: seq<FlowSolution>, ids: ReplicasByFlow, ends: map<FlowId, Endpoints>,
                          flows: map<FlowId, R.FlowEntry>)
    requires AllIdentified(solution, ids, ends)
  {
    && (forall f :: f in flows ==> exists s :: s in solution && s.flow == f)
    && (forall s :: s in solution ==> s.flow in flows && flows[s.flow] == EntryOf(s, ids, ends))
  }

  /** What the plan builder makes of a solved solution may be rolled out. */
  lemma {:induction false} BuiltDeploymentIsWell(
    version: nat, solution: seq<FlowSolution>, fps: seq<FlowProblem>, pls: seq<Placement>,
    ids: ReplicasByFlow, ends: map<FlowId, Endpoints>, d: R.Deployment)
    requires SolvedAll(solution, fps, pls) && WellNumbered(solution, ids, ends) && AllIdentified(solution, ids, ends)
    requires forall s :: s in solution ==> ExecutableComponents(s).Ok?
    requires SchemesAgree(solution) && d.hops == AllHops(solution, ids, ends) && Drafted(version, d.hops, d.plans)
    requires FlowsOf(solution, ids, ends, d.flows)
    ensures R.WellBuilt(version, d)
  {
    hide SolvedFlow, Routable, ExecutableComponents, Identified, IdsCover, IdsDistinct, EndpointsCover, EndpointsDistinct;
    hide Consistent, Chain, AllHops, DistinctHops, ProperHops, ValidPlan, PlanOf, SchemesAgree, R.ChainFor;
    PlansBuild(version, solution, fps, pls, ids, ends);
    forall f | f in d.flows ensures R.ChainFor(f, d.flows[f], d.hops) {
      var s :| s in solution && s.flow == f;
      ChainInAllHops(solution, ids, ends, s);
      ChainLeads(s, ids[s.flow], ends[s.flow], d.hops);
    }
  }

  lemma ChainLeads(s: FlowSolution, replicas: map<int, Hop>, ends: Endpoints, hops: seq<PlacedHop>)
    requires Identified(s, replicas, ends) && Routable(s)
    requires forall h :: h in Chain(s, replicas, ends) ==> h in hops
    ensures R.ChainFor(s.flow, R.FlowEntry(ends, Chain(s, replicas, ends)), hops)
  {
    hide Chain, Identified, Routable;
    var chain := Chain(s, replicas, ends);
    ChainEnds(s, replicas, ends);
    forall j | 0 <= j < |chain| - 1 ensures R.LeadsTo(chain[j], chain[j + 1]) {
      NeighboursMatch(s, replicas, ends, j);
    }
  }

  /** A deployment that the plan builder made of a solved, numbered solution. */
  ghost predicate BuiltFrom(d: R.Deployment, solution: seq<FlowSolution>, fps: seq<FlowProblem>, pls: seq<Placement>,
                            ids: ReplicasByFlow, ends: map<FlowId, Endpoints>)
  {
    && SolvedAll(solution, fps, pls) && WellNumbered(solution, ids, ends) && AllIdentified(solution, ids, ends)
    && (forall r :: r in solution ==> ExecutableComponents(r).Ok?)
    && SchemesAgree(solution) && d.hops == AllHops(solution, ids, ends) && FlowsOf(solution, ids, ends, d.flows)
  }

  ghost function SystemAt(s: R.State, topologyOf: ModelVariantId -> Topology, layers: LayerFunction): System
  {
    System(s.catalog, s.stores, topologyOf, layers)
  }

  /**
   In every state that a run of the rollout can reach, a pass that enters at the published ingress of a
   version of a flow delivers to the sink exactly what evaluating the flow's model delivers.
   */
  lemma {:induction false} PublishedFlowComputesModel(
    run: seq<R.State>, s: R.State, version: nat, solution: seq<FlowSolution>, fps: seq<FlowProblem>,
    pls: seq<Placement>, ids: ReplicasByFlow, ends: map<FlowId, Endpoints>, i: nat,
    topologyOf: ModelVariantId -> Topology, layers: LayerFunction, context: PassContext, entry: Bundle)
    requires R.Reached(run, s) && i < |solution| && (solution[i].flow, version) in s.flowPlans
    requires version in s.deployments && BuiltFrom(s.deployments[version], solution, fps, pls, ids, ends)
    requires context.flow == solution[i].flow && context.version == version
    requires topologyOf(pls[i].variant) == fps[i].topologyOf(pls[i].variant)
    requires entry.Keys == EntryTensors(topologyOf(pls[i].variant))
    ensures Acyclic(topologyOf(pls[i].variant)) && SingleSource(topologyOf(pls[i].variant).edges)
    ensures var ingress := s.flowPlans[(solution[i].flow, version)].ingress;
            Run(SystemAt(s, topologyOf, layers), Contribution(context, External, ingress, entry), PassLength(solution[i]))
            == Delivered(WholeModel(topologyOf(pls[i].variant), layers, entry))
  {
    hide SolvedFlow, ExecutableComponents, Identified, AllHops, SchemesAgree, Run, Acyclic, SingleSource, R.IsRun;
    hide WholeModel, EntryTensors, R.PreparationOk, R.StoresOk, R.CatalogOk, R.PhaseOk, WellNumbered, R.WellBuilt;
    hide PassLength;
    R.RunKeeps(run);
    var sys, d := SystemAt(s, topologyOf, layers), s.deployments[version];
    DraftedOf(version, d);
    ReadyIsRolledOut(s, version, sys);
    FlowDelivers(version, solution, fps, pls, ids, ends, d.plans, sys, i, context, entry);
  }

  lemma DraftedOf(version: nat, d: R.Deployment)
    requires R.WellBuilt(version, d)
    ensures Drafted(version, d.hops, d.plans)
  {
    hide Drafted, DistinctHops, ProperHops, Consistent, R.ChainFor;
  }

  lemma ReadyIsRolledOut(s: R.State, version: nat, sys: System)
    requires R.VersionReady(s, version) && R.WellBuilt(version, s.deployments[version])
    requires sys.catalog == s.catalog && sys.stores == s.stores
    ensures RolledOut(sys, version, s.deployments[version].hops, s.deployments[version].plans)
  {
    hide R.WellBuilt, R.HasExecutors, R.HasEntries, RoutingsFor;
    var d := s.deployments[version];
    forall h | h in d.hops ensures (version, h.address.hop) in sys.catalog && sys.catalog[(version, h.address.hop)] == h.worker {
      R.HopServed(s, version, h);
    }
    forall w | w in d.plans
      ensures w in sys.stores && version in sys.stores[w] && sys.stores[w][version] == d.plans[w]
    {
      assert R.WorkerReady(s, version, w);
    }
  }
}
