/**
 Two solved flows whose plans cannot be built: a worker runs the same executable layers for both, but one
 component also holds the input layer, so a tensor that skips these layers is part of one scheme only.
 */
module SchemeConflict {
  import opened Lp
  import opened Seqs
  import opened ModelTopology
  import opened Assignment
  import opened Structure
  import opened PlacementPoints
  import opened TensorCrossing
  import opened FlowSolutions
  import opened FlowRoutes
  import opened ReplicaIds
  import opened PlanGluing
  import opened Planning
  import B = BigM

  /** The solution that a placement stands for. */
  ghost function SolutionFor(fp: FlowProblem, pl: Placement): FlowSolution
    requires 1 <= pl.last
  {
    var t := fp.topologyOf(pl.variant);
    FlowSolution(fp.flow, pl.workerOf(1), pl.workerOf(pl.last), pl.variant,
                 seq(pl.last, (i: int) => ComponentFor(t, pl, i + 1)),
                 seq(pl.last - 1, (i: int) => CutSolution(i + 1, i + 2, CrossingSet(t, pl, i + 1))))
  }

  function ComponentFor(t: Topology, pl: Placement, k: int): ComponentSolution
  {
    var layers := LayersIn(t, pl, k);
    ComponentSolution(k, pl.workerOf(k), layers, Filter(layers, (l: LayerKey) => l in t.inputs),
                      Filter(layers, (l: LayerKey) => l in t.outputs), ContractOf(t, LayerSet(layers)), 1)
  }

  lemma SolutionForIsSolution(fp: FlowProblem, pl: Placement)
    requires 1 <= pl.last
    ensures IsSolution(fp, pl, SolutionFor(fp, pl))
  {
    var t := fp.topologyOf(pl.variant);
    forall k ensures IsComponent(t, pl, k, ComponentFor(t, pl, k)) { }
  }

  /** An input that feeds a hidden layer and, past it, the output. */
  function SkipModel(): Topology
  {
    Topology(["i", "a", "o"], [Edge("i", "a", {"x"}), Edge("i", "o", {"y"}), Edge("a", "o", {"z"})], {"i"}, {"o"})
  }

  function ProblemOf(flow: FlowId): FlowProblem
  {
    FlowProblem(flow, [ModelVariantId(0)], (v: ModelVariantId) => SkipModel(), [WorkerId(0), WorkerId(1)], 3, 1, None, None)
  }

  function Whole(): Placement
  {
    Placement(ModelVariantId(0), 1, (l: LayerKey) => 1, (k: int) => WorkerId(0))
  }

  function Split(): Placement
  {
    Placement(ModelVariantId(0), 3, (l: LayerKey) => if l == "i" then 1 else if l == "a" then 2 else 3,
              (k: int) => if k == 2 then WorkerId(0) else WorkerId(1))
  }

  lemma SkipModelBuilt()
    ensures AsBuilt(SkipModel())
  {
    hide Acyclic, FromInput, SingleSource;
    SkipModelAcyclic();
    assert SingleSource(SkipModel().edges) by { SkipModelSingleSource(); }
    InputItself();
    FedByInput(SkipModel().edges[0]);
    FedByInput(SkipModel().edges[1]);
  }

  lemma SkipModelSingleSource()
    ensures SingleSource(SkipModel().edges)
  {
  }

  lemma InputItself()
    ensures Acyclic(SkipModel()) && FromInput(SkipModel(), "i")
  {
    SkipModelAcyclic();
    hide Acyclic;
    assert Reachable(SkipModel(), "i", "i");
  }

  lemma FedByInput(e: Edge)
    requires e in SkipModel().edges && e.source == "i"
    ensures Acyclic(SkipModel()) && FromInput(SkipModel(), e.target)
  {
    SkipModelAcyclic();
    hide Acyclic, Index;
    assert Reachable(SkipModel(), e.target, e.target);
    assert Reachable(SkipModel(), "i", e.target);
  }

  lemma SkipModelAcyclic()
    ensures Acyclic(SkipModel())
  {
    hide Index;
    SkipModelOrder();
  }

  lemma SkipModelOrder()
    ensures var t := SkipModel(); Index(t.order, "i") == 0 && Index(t.order, "a") == 1 && Index(t.order, "o") == 2
  {
  }

  lemma ModelWellFormed(flow: FlowId)
    ensures WellFormed(ProblemOf(flow))
  {
    SkipModelAcyclic();
    var t := SkipModel();
    assert "i" in t.order && "i" in t.inputs && "o" in t.order && "o" in t.outputs;
  }

  lemma WholeValid(flow: FlowId)
    ensures Valid(ProblemOf(flow), Whole())
  {
    assert Populated(SkipModel(), Whole(), 1) by { assert "i" in SkipModel().order; }
  }

  lemma SplitValid(flow: FlowId)
    ensures Valid(ProblemOf(flow), Split())
  {
    var t := SkipModel();
    assert Populated(t, Split(), 1) by { assert "i" in t.order; }
    assert Populated(t, Split(), 2) by { assert "a" in t.order; }
    assert Populated(t, Split(), 3) by { assert "o" in t.order; }
  }

  lemma FlowSolved(flow: FlowId, pl: Placement)
    requires pl == Whole() || pl == Split()
    ensures SolvedFlow(ProblemOf(flow), pl, SolutionFor(ProblemOf(flow), pl))
  {
    SkipModelBuilt();
    ModelWellFormed(flow);
    WholeValid(flow);
    SplitValid(flow);
    SolutionForIsSolution(ProblemOf(flow), pl);
    assert "a" in SkipModel().order && "a" !in SkipModel().inputs && "a" !in SkipModel().outputs;
  }

  lemma HiddenLayer(pl: Placement, k: int)
    requires (pl == Whole() && k == 1) || (pl == Split() && k == 2)
    ensures LayerSet(ComponentFor(SkipModel(), pl, k).ExecutableLayers()) == {"a"}
    ensures IsExecutable(ComponentFor(SkipModel(), pl, k))
  {
    hide IsExecutable, Filter;
    var t, c := SkipModel(), ComponentFor(SkipModel(), pl, k);
    ComponentExecutable(t, pl, k, c);
    assert "a" in t.order;
    assert HasExecutable(t, pl, k);
  }

  lemma SkippedTensor(pl: Placement, k: int)
    requires (pl == Whole() && k == 1) || (pl == Split() && k == 2)
    ensures "y" in ComponentFor(SkipModel(), pl, k).contract.inputs <==> pl == Whole()
  {
    hide Filter;
    var t, layers := SkipModel(), LayerSet(LayersIn(SkipModel(), pl, k));
    assert forall l :: l in layers <==> l in t.order && pl.componentOf(l) == k;
    assert t.order[0] == "i" && "i" in t.order && t.order[2] == "o" && "o" in t.order;
    var skip := Edge("i", "o", {"y"});
    assert skip == t.edges[1];
    assert Incoming(t, layers, skip) <==> pl == Whole();
    OnlySkipCarries();
  }

  lemma OnlySkipCarries()
    ensures forall e :: e in SkipModel().edges && "y" in e.tensors ==> e == Edge("i", "o", {"y"})
  {
  }

  // ----- the solver may return both placements together

  function PlacementFor(f: FlowId): Placement
  {
    if f == FlowId(0) then Whole() else Split()
  }

  lemma PlacementForIs()
    ensures PlacementFor(FlowId(0)) == Whole() && PlacementFor(FlowId(1)) == Split()
  {
    hide Whole, Split;
  }

  lemma PlacementsValid(flow: FlowId)
    ensures Valid(ProblemOf(flow), PlacementFor(flow)) && ValidPriorities(ProblemOf(flow), PlacementFor(flow), (k: int) => 1)
  {
    hide Valid;
    WholeValid(flow);
    SplitValid(flow);
  }

  lemma OneSource(flow: FlowId)
    ensures SingleSources(ProblemOf(flow))
  {
    SkipModelSingleSource();
  }

  lemma Runnable(flow: FlowId)
    ensures forall v :: RunnableModel(ProblemOf(flow).topologyOf(v))
  {
    SkipModelBuilt();
    assert "a" in SkipModel().order && "a" !in SkipModel().inputs && "a" !in SkipModel().outputs;
  }

  /** The priorities are all 1. */
  function FirstPriority(f: FlowId, k: int): int { 1 }

  ghost function JointPoint(): Point
  {
    x => StructureValue(f => ProblemOf(f), f => PlacementFor(f), (f, k) => FirstPriority(f, k), x)
  }

  /** Both workers have a profile of every layer, and both may compute. */
  function Profiled(): B.ExecutionData
  {
    B.ExecutionData((v, w) => map["i" := 1.0, "a" := 1.0, "o" := 1.0], None)
  }

  lemma AllSupported(flow: FlowId)
    ensures B.Supported(ProblemOf(flow), Profiled(), PlacementFor(flow))
  {
    hide PlacementFor;
  }

  lemma JointPointAdmitted(flow: FlowId)
    ensures Solvable(ProblemOf(flow), Profiled(), JointPoint())
    ensures Encodes(ProblemOf(flow), JointPoint(), PlacementFor(flow))
  {
    hide Encodes, Valid, WellFormed, Domain, SingleSources, RunnableModel, Shows, StructureValue, PlacementFor, SkipModel;
    hide AssignmentRows, AllCrossingRows, ValidPriorities, B.UnsupportedRows, B.Supported, Profiled;
    var problemOf, placementOf := (f: FlowId) => ProblemOf(f), (f: FlowId) => PlacementFor(f);
    var priorityOf := (f: FlowId, k: int) => FirstPriority(f, k);
    ModelWellFormed(flow);
    PlacementsValid(flow);
    OneSource(flow);
    Runnable(flow);
    StructureShows(problemOf, placementOf, priorityOf, JointPoint(), flow);
    AllFirst(flow, priorityOf);
    ShownIsAdmitted(ProblemOf(flow), PlacementFor(flow), PrioritiesOf(priorityOf, flow), JointPoint());
    AllSupported(flow);
    B.UnsupportedMeaning(ProblemOf(flow), Profiled(), JointPoint(), PlacementFor(flow));
  }

  lemma AllFirst(flow: FlowId, priorityOf: (FlowId, int) -> int)
    requires forall k :: priorityOf(flow, k) == 1
    ensures ValidPriorities(ProblemOf(flow), PlacementFor(flow), PrioritiesOf(priorityOf, flow))
  {
    hide PlacementFor, SkipModel;
  }

  /**
   Solved flows with distinct ids for which building the plans must fail, and one point that encodes both
   placements and satisfies every structural row of both flows.
   */
  lemma SchemesCanDisagree()
    returns (solution: seq<FlowSolution>, fps: seq<FlowProblem>, pls: seq<Placement>, p: Point)
    ensures SolvedAll(solution, fps, pls) && DistinctFlows(solution)
    ensures forall i :: 0 <= i < |fps| ==> Solvable(fps[i], Profiled(), p) && Encodes(fps[i], p, pls[i])
    ensures forall s :: s in solution ==> ExecutableComponents(s).Ok?
    ensures !SchemesAgree(solution)
  {
    hide SolvedFlow, ExecutableComponents, ComponentFor, Solvable, Encodes, ProblemOf, Whole, Split, PlacementFor;
    hide JointPoint, SkipModel, Profiled;
    fps := [ProblemOf(FlowId(0)), ProblemOf(FlowId(1))];
    pls := [Whole(), Split()];
    p := JointPoint();
    PlacementForIs();
    JointPointAdmitted(FlowId(0));
    JointPointAdmitted(FlowId(1));
    OneComponentOrThree();
    solution := [SolutionFor(fps[0], pls[0]), SolutionFor(fps[1], pls[1])];
    FlowSolved(FlowId(0), Whole());
    FlowSolved(FlowId(1), Split());
    FlowsDiffer();
    AllExecutable(solution, fps, pls);
    assert solution[0] in solution && solution[1] in solution;
    Disagree(solution[0], solution[1]);
    var c, d := ComponentFor(SkipModel(), Whole(), 1), ComponentFor(SkipModel(), Split(), 2);
    assert !ComponentsAgree(solution[0], c, solution[1], d);
  }

  lemma OneComponentOrThree()
    ensures Whole().last == 1 && Split().last == 3
  {
  }

  lemma FlowsDiffer()
    requires Whole().last == 1 && Split().last == 3
    ensures SolutionFor(ProblemOf(FlowId(0)), Whole()).flow == FlowId(0)
    ensures SolutionFor(ProblemOf(FlowId(1)), Split()).flow == FlowId(1)
  {
  }

  lemma DifferentPlacements()
    ensures Whole() != Split() && Whole().last == 1 && Split().last == 3 && Whole().variant == Split().variant
    ensures ComponentFor(SkipModel(), Whole(), 1).worker == ComponentFor(SkipModel(), Split(), 2).worker
  {
    hide Filter, ContractOf;
    assert Whole().last != Split().last;
  }

  lemma InExecutables(s: FlowSolution, c: ComponentSolution)
    requires ExecutableComponents(s).Ok? && c in s.components && IsExecutable(c)
    ensures c in ExecutableComponents(s).value
  {
    hide IsExecutable, Filter;
  }

  lemma Disagree(s: FlowSolution, r: FlowSolution)
    requires s == SolutionFor(ProblemOf(FlowId(0)), Whole()) && r == SolutionFor(ProblemOf(FlowId(1)), Split())
    requires ExecutableComponents(s).Ok? && ExecutableComponents(r).Ok?
    ensures var c, d := ComponentFor(SkipModel(), Whole(), 1), ComponentFor(SkipModel(), Split(), 2);
            && c in ExecutableComponents(s).value && d in ExecutableComponents(r).value
            && !ComponentsAgree(s, c, r, d)
  {
    hide ComponentFor, IsExecutable, SkipModel, Whole, Split, ExecutableComponents, LayerSet, CrossingSet;
    var c, d := ComponentFor(SkipModel(), Whole(), 1), ComponentFor(SkipModel(), Split(), 2);
    HiddenLayer(Whole(), 1);
    HiddenLayer(Split(), 2);
    SkippedTensor(Whole(), 1);
    SkippedTensor(Split(), 2);
    DifferentPlacements();
    assert s.components[0] == c && r.components[1] == d;
    assert c in s.components && d in r.components;
    InExecutables(s, c);
    InExecutables(r, d);
  }
}
