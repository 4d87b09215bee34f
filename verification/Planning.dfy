/** From points that satisfy the emitted rows to worker plans, and from deployed plans to correct passes. */
module Planning {
  import opened Lp
  import opened Sums
  import opened ModelTopology
  import opened Assignment
  import opened Structure
  import opened TensorCrossing
  import opened FlowSolutions
  import opened FlowRoutes
  import opened Plans
  import opened Inference
  import opened ReplicaIds
  import opened PlanBuilder
  import opened PlanGluing
  import opened PlannedPriorities
  import opened WorkerRuntime
  import opened EndToEnd
  import B = BigM

  /**
   A flow whose models are built as the model manager builds them, and a point that the solver may return: all
   structural rows hold, and the rows of the layers that a worker does not support.
   */
  ghost predicate Solvable(fp: FlowProblem, d: B.ExecutionData, p: Point)
  {
    && WellFormed(fp) && Domain(fp, p) && AssignmentRows(fp, p) && AllCrossingRows(fp, p) && B.UnsupportedRows(fp, d, p)
    && forall v :: v in fp.variants ==> RunnableModel(fp.topologyOf(v))
  }

  ghost predicate RunnableModel(t: Topology)
  {
    AsBuilt(t) && exists l :: l in t.order && l !in t.inputs && l !in t.outputs
  }

  ghost predicate DistinctProblems(fps: seq<FlowProblem>)
  {
    forall i, j :: 0 <= i < j < |fps| ==> fps[i].flow != fps[j].flow
  }

  method SolveFlow(fp: FlowProblem, d: B.ExecutionData, p: Point) returns (s: FlowSolution, ghost pl: Placement)
    requires Solvable(fp, d, p)
    ensures SolvedFlow(fp, pl, s) && Encodes(fp, p, pl) && s.flow == fp.flow
    ensures forall c :: c in s.components ==> HasPriority(fp, p, c)
  {
    hide AsBuilt, Domain, AssignmentRows, AllCrossingRows, WellFormed, Encodes, IsSolution, B.UnsupportedRows;
    hide RelayRespected, HasPriority;
    pl := PlacementOfPoint(fp, p);
    ModelOfPlacement(fp, d, p, pl);
    RelayOnlyRespected(fp, d, p, pl);
    var extracted := ExtractSolution(fp, p, d.relayOnly, pl);
    s := extracted.value;
    SolutionFlow(fp, pl, s);
  }

  lemma ModelOfPlacement(fp: FlowProblem, d: B.ExecutionData, p: Point, pl: Placement)
    requires Solvable(fp, d, p) && Valid(fp, pl)
    ensures RunnableModel(fp.topologyOf(pl.variant)) && SingleSource(fp.topologyOf(pl.variant).edges)
  {
    hide Domain, AssignmentRows, AllCrossingRows, WellFormed, B.UnsupportedRows;
  }

  /** The rows already keep computation away from a relay-only worker, so the check after solving never fails. */
  lemma RelayOnlyRespected(fp: FlowProblem, d: B.ExecutionData, p: Point, pl: Placement)
    requires Valid(fp, pl) && Encodes(fp, p, pl) && B.UnsupportedRows(fp, d, p)
    ensures RelayRespected(fp, pl, d.relayOnly)
  {
    hide Valid, Encodes, B.UnsupportedRows;
    B.RelayOnlyRelays(fp, d, p, pl);
    assert Order(fp, pl.variant) == fp.topologyOf(pl.variant).order;
  }

  lemma SolutionFlow(fp: FlowProblem, pl: Placement, s: FlowSolution)
    requires IsSolution(fp, pl, s)
    ensures s.flow == fp.flow
  {
  }

  /** The priority number of a component's replica is the one that the point chooses on the component's worker. */
  ghost predicate PriorityReaches(fp: FlowProblem, p: Point, plan: WorkerPlan, a: HopAddress, c: ComponentSolution)
  {
    exists r :: 1 <= r <= fp.priorityCount && Schedules(plan, a, r) && p(ComponentPriority(fp.flow, c.index, c.worker, r)) > 0.5
  }

  /** The priorities of all executable components of a flow reach the plans of their workers. */
  ghost predicate PrioritiesReach(fp: FlowProblem, p: Point, s: FlowSolution, ids: ReplicasByFlow,
                                  plans: map<WorkerId, WorkerPlan>)
    requires ExecutableComponents(s).Ok?
  {
    forall c :: c in ExecutableComponents(s).value ==>
      && s.flow in ids && c.index in ids[s.flow] && c.worker in plans
      && PriorityReaches(fp, p, plans[c.worker], ReplicaOf(s, ids, c), c)
  }

  lemma {:induction false} PrioritiesPlanned(
    version: nat, solution: seq<FlowSolution>, fps: seq<FlowProblem>, points: seq<Point>, pls: seq<Placement>,
    ids: ReplicasByFlow, ends: map<FlowId, Endpoints>, plans: map<WorkerId, WorkerPlan>, i: nat)
    requires SolvedAll(solution, fps, pls) && WellNumbered(solution, ids, ends) && AllIdentified(solution, ids, ends)
    requires forall s :: s in solution ==> Routable(s) && ExecutableComponents(s).Ok?
    requires DistinctHops(AllHops(solution, ids, ends)) && Drafted(version, AllHops(solution, ids, ends), plans)
    requires i < |solution| == |points| && solution[i].flow == fps[i].flow
    requires forall c :: c in solution[i].components ==> HasPriority(fps[i], points[i], c)
    ensures PrioritiesReach(fps[i], points[i], solution[i], ids, plans)
  {
    hide SolvedFlow, AllHops, Drafted, Routable, Identified, DistinctHops, Schedules, IdsCover, IdsDistinct;
    hide EndpointsCover, EndpointsDistinct, ExecutableComponents;
    var s := solution[i];
    forall c | c in ExecutableComponents(s).value
      ensures c.index in ids[s.flow] && c.worker in plans
      ensures PriorityReaches(fps[i], points[i], plans[c.worker], ReplicaOf(s, ids, c), c)
    {
      ComponentScheduled(version, solution, ids, ends, plans, s, c);
      ExecutablesAreComponents(s, c);
      assert HasPriority(fps[i], points[i], c);
    }
  }

  /** A flow enters at the worker of its first component and leaves at the worker of its last one, and nowhere else. */
  ghost predicate EndsAtPlacement(pl: Placement, flow: FlowId, ends: map<FlowId, Endpoints>, plans: map<WorkerId, WorkerPlan>)
  {
    && flow in ends
    && forall w ::
         && (HostsEnd(plans, w, HopAddress(flow, ends[flow].ingress)) <==> w == pl.workerOf(1))
         && (HostsEnd(plans, w, HopAddress(flow, ends[flow].sink)) <==> w == pl.workerOf(pl.last))
  }

  lemma {:induction false} EndsPlanned(
    version: nat, solution: seq<FlowSolution>, fps: seq<FlowProblem>, pls: seq<Placement>,
    ids: ReplicasByFlow, ends: map<FlowId, Endpoints>, plans: map<WorkerId, WorkerPlan>, i: nat)
    requires SolvedAll(solution, fps, pls) && AllIdentified(solution, ids, ends) && i < |solution|
    requires forall s :: s in solution ==> Routable(s)
    requires DistinctHops(AllHops(solution, ids, ends)) && Drafted(version, AllHops(solution, ids, ends), plans)
    ensures EndsAtPlacement(pls[i], solution[i].flow, ends, plans)
  {
    hide SolvedFlow, AllHops, Drafted, Routable, Identified, DistinctHops, HostsEnd;
    var s := solution[i];
    EndsOfSolution(fps[i], pls[i], s);
    forall w
      ensures s.flow in ends
      ensures HostsEnd(plans, w, HopAddress(s.flow, ends[s.flow].ingress)) <==> w == pls[i].workerOf(1)
      ensures HostsEnd(plans, w, HopAddress(s.flow, ends[s.flow].sink)) <==> w == pls[i].workerOf(pls[i].last)
    {
      EndsPlaced(version, solution, ids, ends, plans, s, w);
    }
  }

  lemma EndsOfSolution(fp: FlowProblem, pl: Placement, s: FlowSolution)
    requires SolvedFlow(fp, pl, s)
    ensures s.ingressWorker == pl.workerOf(1) && s.sinkWorker == pl.workerOf(pl.last)
  {
  }

  lemma ExecutablesAreComponents(s: FlowSolution, c: ComponentSolution)
    requires ExecutableComponents(s).Ok? && c in ExecutableComponents(s).value
    ensures c in s.components
  {
  }

  /**
   Extraction, numbering and plan building, one after the other. The only way to fail is that one worker
   would have to run one partition under two schemes.
   */
  method PlansOfPoints(version: nat, fps: seq<FlowProblem>, data: seq<B.ExecutionData>, points: seq<Point>)
    returns (solution: seq<FlowSolution>, r: Result<map<WorkerId, WorkerPlan>>,
             ghost pls: seq<Placement>, ghost ids: ReplicasByFlow, ghost ends: map<FlowId, Endpoints>)
    requires |fps| == |data| == |points| && DistinctProblems(fps)
    requires forall i :: 0 <= i < |fps| ==> Solvable(fps[i], data[i], points[i])
    ensures SolvedAll(solution, fps, pls) && WellNumbered(solution, ids, ends)
    ensures forall i :: 0 <= i < |fps| ==> Encodes(fps[i], points[i], pls[i])
    ensures forall s :: s in solution ==> ExecutableComponents(s).Ok?
    ensures r.Ok? <==> SchemesAgree(solution)
    ensures r.Ok? ==> AllIdentified(solution, ids, ends)
                      && Drafted(version, AllHops(solution, ids, ends), r.value)
    ensures r.Ok? ==> forall i :: 0 <= i < |fps| ==> PrioritiesReach(fps[i], points[i], solution[i], ids, r.value)
    ensures r.Ok? ==> forall i :: 0 <= i < |fps| ==> EndsAtPlacement(pls[i], fps[i].flow, ends, r.value)
  {
    hide EndsAtPlacement, SolvedFlow, Solvable, Encodes, IdsCover, IdsDistinct, EndpointsCover, EndpointsDistinct, ExecutableComponents;
    hide SchemesAgree, Buildable, AllHops, Drafted, Routable, AllIdentified, Distinct, HasPriority, PrioritiesReach;
    solution, pls := [], [];
    for i := 0 to |fps|
      invariant |solution| == |pls| == i
      invariant forall j :: 0 <= j < i ==> SolvedFlow(fps[j], pls[j], solution[j])
      invariant forall j :: 0 <= j < i ==> Encodes(fps[j], points[j], pls[j]) && solution[j].flow == fps[j].flow
      invariant forall j :: 0 <= j < i ==> AllHavePriority(fps[j], points[j], solution[j])
    {
      var s, pl := SolveFlow(fps[i], data[i], points[i]);
      solution, pls := solution + [s], pls + [pl];
    }
    AllExecutable(solution, fps, pls);
    var replicas := BuildPartitionReplicaIds(solution);
    var endpoints := BuildEndpointIds(solution);
    ids, ends := replicas.value, endpoints.value;
    PlansBuild(version, solution, fps, pls, ids, ends);
    r := BuildAll(version, solution, replicas.value, endpoints.value);
    if r.Ok? {
      forall i | 0 <= i < |fps| ensures PrioritiesReach(fps[i], points[i], solution[i], ids, r.value) {
        PrioritiesPlanned(version, solution, fps, points, pls, ids, ends, r.value, i);
      }
      forall i | 0 <= i < |fps| ensures EndsAtPlacement(pls[i], fps[i].flow, ends, r.value) {
        EndsPlanned(version, solution, fps, pls, ids, ends, r.value, i);
      }
    }
  }

  predicate AllHavePriority(fp: FlowProblem, p: Point, s: FlowSolution)
  {
    forall c :: c in s.components ==> HasPriority(fp, p, c)
  }

  lemma AllExecutable(solution: seq<FlowSolution>, fps: seq<FlowProblem>, pls: seq<Placement>)
    requires SolvedAll(solution, fps, pls)
    ensures forall s :: s in solution ==> ExecutableComponents(s).Ok?
  {
    hide SolvedFlow, ExecutableComponents;
    forall s | s in solution ensures ExecutableComponents(s).Ok? {
      var i :| 0 <= i < |solution| && solution[i] == s;
      LinksOfSolution(fps[i], pls[i], s);
    }
  }

  /** The built plans have reached their workers, and the catalog knows where every hop lives. */
  ghost predicate RolledOut(sys: System, version: nat, hops: seq<PlacedHop>, plans: map<WorkerId, WorkerPlan>)
  {
    && (forall w :: w in plans ==> w in sys.stores && version in sys.stores[w] && sys.stores[w][version] == plans[w])
    && (forall h :: h in hops ==>
          (version, h.address.hop) in sys.catalog && sys.catalog[(version, h.address.hop)] == h.worker)
  }

  /** The ingress, the executable components and the sink. */
  function PassLength(s: FlowSolution): nat
    requires ExecutableComponents(s).Ok?
  {
    |ExecutableComponents(s).value| + 2
  }

  /** Every flow of a rolled-out solution computes its whole model. */
  lemma {:induction false} FlowDelivers(
    version: nat, solution: seq<FlowSolution>, fps: seq<FlowProblem>, pls: seq<Placement>,
    ids: ReplicasByFlow, ends: map<FlowId, Endpoints>, plans: map<WorkerId, WorkerPlan>,
    sys: System, i: nat, context: PassContext, entry: Bundle)
    requires SolvedAll(solution, fps, pls) && WellNumbered(solution, ids, ends) && AllIdentified(solution, ids, ends)
    requires forall s :: s in solution ==> ExecutableComponents(s).Ok?
    requires SchemesAgree(solution) && Drafted(version, AllHops(solution, ids, ends), plans)
    requires RolledOut(sys, version, AllHops(solution, ids, ends), plans)
    requires i < |solution| && context.flow == solution[i].flow && context.version == version
    requires sys.topologyOf(pls[i].variant) == fps[i].topologyOf(pls[i].variant)
    requires entry.Keys == EntryTensors(sys.topologyOf(pls[i].variant))
    ensures Acyclic(sys.topologyOf(pls[i].variant)) && SingleSource(sys.topologyOf(pls[i].variant).edges)
    ensures Run(sys, Contribution(context, External, ends[solution[i].flow].ingress, entry), PassLength(solution[i]))
            == Delivered(WholeModel(sys.topologyOf(pls[i].variant), sys.layers, entry))
  {
    hide SolvedFlow, Routable, ExecutableComponents, Identified, IdsCover, IdsDistinct, EndpointsCover, EndpointsDistinct;
    hide Consistent, Chain, AllHops, DistinctHops, ProperHops, ValidPlan, PlanOf, SchemesAgree, Run, Acyclic, SingleSource;
    hide Length, WholeModel, EntryTensors;
    PlansBuild(version, solution, fps, pls, ids, ends);
    var s, hops := solution[i], AllHops(solution, ids, ends);
    ChainInAllHops(solution, ids, ends, s);
    forall h | h in hops ensures Hosted(sys, version, hops, h) {
      assert h.worker in plans;
    }
    var a := Pass(sys, version, hops, fps[i], pls[i], s, ids[s.flow], ends[s.flow], entry);
    assert ValidPass(a);
    LengthOf(a);
    PassPreservesMeaning(a, context);
  }

  lemma LengthOf(a: Pass)
    requires ValidPass(a) && ExecutableComponents(a.s).Ok?
    ensures Length(a) + 2 == PassLength(a.s)
  {
    ExecutablesOf(a.fp, a.fp.topologyOf(a.pl.variant), a.pl, a.s);
  }
}
