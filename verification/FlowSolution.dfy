/** The solver's point read back as components and cuts: gurobi_solution.py. */
module FlowSolutions {
  import opened Lp
  import opened Sums
  import opened Seqs
  import opened ModelTopology
  import opened Assignment
  import opened Structure
  import opened TensorCrossing

  datatype TensorContract = TensorContract(inputs: set<TensorKey>, outputs: set<TensorKey>)

  datatype ComponentSolution = ComponentSolution(
    index: int,
    worker: WorkerId,
    layers: seq<LayerKey>,
    inputLayers: seq<LayerKey>,
    outputLayers: seq<LayerKey>,
    contract: TensorContract,
    priority: int)
  {
    /** The layers that are neither input nor output layers. */
    function ExecutableLayers(): seq<LayerKey>
    {
      Filter(layers, l => l !in inputLayers && l !in outputLayers)
    }
  }

  datatype CutSolution = CutSolution(source: int, destination: int, tensors: set<TensorKey>)

  datatype FlowSolution = FlowSolution(
    flow: FlowId,
    ingressWorker: WorkerId,
    sinkWorker: WorkerId,
    variant: ModelVariantId,
    components: seq<ComponentSolution>,
    cuts: seq<CutSolution>)

  // ----- the tensors at the boundary of a component

  predicate Incoming(t: Topology, layers: set<LayerKey>, e: Edge)
  {
    (e.target in layers && e.source !in layers) || (e.source in layers && e.source in t.inputs)
  }

  predicate Outgoing(t: Topology, layers: set<LayerKey>, e: Edge)
  {
    (e.source in layers && e.target !in layers) || (e.target in layers && e.target in t.outputs)
  }

  function ContractOf(t: Topology, layers: set<LayerKey>): TensorContract
  {
    TensorContract(
      set e, x | e in t.edges && Incoming(t, layers, e) && x in e.tensors :: x,
      set e, x | e in t.edges && Outgoing(t, layers, e) && x in e.tensors :: x)
  }

  /** `component_tensor_contract`: one pass over the edges. */
  method ComponentTensorContract(t: Topology, layers: set<LayerKey>) returns (r: Result<TensorContract>)
    ensures r.Ok? <==> layers != {} && forall l :: l in layers ==> l in t.order
    ensures r.Ok? ==> r.value == ContractOf(t, layers)
  {
    if layers == {} {
      return Err("A component must contain at least one layer");
    }
    if !(forall l :: l in layers ==> l in t.order) {
      return Err("Unknown component layers");
    }
    var inputs: set<TensorKey>, outputs: set<TensorKey> := {}, {};
    for i := 0 to |t.edges|
      invariant inputs == set e, x | e in t.edges[..i] && Incoming(t, layers, e) && x in e.tensors :: x
      invariant outputs == set e, x | e in t.edges[..i] && Outgoing(t, layers, e) && x in e.tensors :: x
    {
      var e := t.edges[i];
      assert t.edges[..i + 1] == t.edges[..i] + [e];
      if e.target in layers && e.source !in layers {
        inputs := inputs + e.tensors;
      }
      if e.source in layers && e.target !in layers {
        outputs := outputs + e.tensors;
      }
      if e.source in layers && e.source in t.inputs {
        inputs := inputs + e.tensors;
      }
      if e.target in layers && e.target in t.outputs {
        outputs := outputs + e.tensors;
      }
    }
    assert t.edges[..|t.edges|] == t.edges;
    r := Ok(TensorContract(inputs, outputs));
  }

  // ----- the solution that a placement stands for

  function LayersIn(t: Topology, pl: Placement, k: int): seq<LayerKey>
  {
    Filter(t.order, l => pl.componentOf(l) == k)
  }

  function LayerSet(layers: seq<LayerKey>): set<LayerKey>
  {
    set l | l in layers
  }

  ghost function CrossingSet(t: Topology, pl: Placement, cut: int): set<TensorKey>
  {
    set x | x in RoutedTensors(t.edges) && Crosses(t, pl, x, cut)
  }

  ghost predicate IsComponent(t: Topology, pl: Placement, k: int, c: ComponentSolution)
  {
    && c.index == k && c.worker == pl.workerOf(k) && c.layers == LayersIn(t, pl, k)
    && c.inputLayers == Filter(c.layers, l => l in t.inputs)
    && c.outputLayers == Filter(c.layers, l => l in t.outputs)
    && c.contract == ContractOf(t, LayerSet(c.layers))
    && c.priority >= 1
  }

  ghost predicate IsSolution(fp: FlowProblem, pl: Placement, s: FlowSolution)
  {
    var t := fp.topologyOf(pl.variant);
    && s.flow == fp.flow && s.variant == pl.variant
    && |s.components| == pl.last
    && (forall i :: 0 <= i < |s.components| ==> IsComponent(t, pl, i + 1, s.components[i]))
    && s.ingressWorker == pl.workerOf(1) && s.sinkWorker == pl.workerOf(pl.last)
    && |s.cuts| == pl.last - 1
    && (forall i :: 0 <= i < |s.cuts| ==> s.cuts[i] == CutSolution(i + 1, i + 2, CrossingSet(t, pl, i + 1)))
  }

  // ----- extraction

  /** The point is a solution of all structural rows, and the ghost placement is what it stands for. */
  ghost predicate Solved(fp: FlowProblem, p: Point, pl: Placement)
  {
    WellFormed(fp) && Domain(fp, p) && Valid(fp, pl) && Encodes(fp, p, pl) && AllCrossingRows(fp, p)
  }

  /** The priority that the point chooses for the component on its worker. */
  predicate HasPriority(fp: FlowProblem, p: Point, c: ComponentSolution)
  {
    1 <= c.priority <= fp.priorityCount && p(ComponentPriority(fp.flow, c.index, c.worker, c.priority)) > 0.5
  }

  method ExtractComponent(fp: FlowProblem, p: Point, variant: ModelVariantId, k: int, ghost pl: Placement)
    returns (r: Result<ComponentSolution>)
    requires Solved(fp, p, pl) && variant == pl.variant && 1 <= k <= pl.last
    ensures r.Ok? && IsComponent(fp.topologyOf(variant), pl, k, r.value) && HasPriority(fp, p, r.value)
  {
    var t := fp.topologyOf(variant);
    var workers := Filter(fp.workers, w => p(ComponentWorker(fp.flow, k, w)) > 0.5);
    var layers := Filter(t.order, l => p(LayerComponent(fp.flow, variant, l, k)) > 0.5);
    ComponentRead(fp, p, pl, k);
    if |workers| != 1 {
      return Err("Expected one worker");
    }
    var priorities := Filter(Range(1, fp.priorityCount + 1), r => p(ComponentPriority(fp.flow, k, workers[0], r)) > 0.5);
    if |priorities| != 1 {
      return Err("Expected one priority");
    }
    var contract := ComponentTensorContract(t, LayerSet(layers));
    if contract.Err? {
      return Err("The component has no tensor contract");
    }
    assert priorities[0] in priorities;
    r := Ok(ComponentSolution(
      k, workers[0], layers, Filter(layers, l => l in t.inputs), Filter(layers, l => l in t.outputs),
      contract.value, priorities[0]));
  }

  ghost predicate SelectedPriorities(fp: FlowProblem, p: Point, k: int, w: WorkerId)
  {
    |Filter(Range(1, fp.priorityCount + 1), (r: int) => p(ComponentPriority(fp.flow, k, w, r)) > 0.5)| == 1
  }

  lemma ComponentRead(fp: FlowProblem, p: Point, pl: Placement, k: int)
    requires WellFormed(fp) && Domain(fp, p) && Valid(fp, pl) && Encodes(fp, p, pl) && 1 <= k <= pl.last
    ensures Filter(fp.workers, (w: WorkerId) => p(ComponentWorker(fp.flow, k, w)) > 0.5) == [pl.workerOf(k)]
    ensures Filter(Order(fp, pl.variant), (l: LayerKey) => p(LayerComponent(fp.flow, pl.variant, l, k)) > 0.5)
         == LayersIn(fp.topologyOf(pl.variant), pl, k)
    ensures LayerSet(LayersIn(fp.topologyOf(pl.variant), pl, k)) != {}
    ensures SelectedPriorities(fp, p, k, pl.workerOf(k))
  {
    assert EncodesWorkers(fp, p, pl, k) && EncodesVariant(fp, p, pl, pl.variant);
    assert Populated(fp.topologyOf(pl.variant), pl, k);
    assert ComponentDomain(fp, p, k) && WorkerDomain(fp, p, k, pl.workerOf(k));
    assert p(ComponentWorker(fp.flow, k, pl.workerOf(k))) == 1.0;
    hide WellFormed, Domain, Valid, Encodes;
    WorkersRead(fp, p, pl, k);
    LayersRead(fp, p, pl, k);
    PrioritiesRead(fp, p, k, pl.workerOf(k));
  }

  lemma WorkersRead(fp: FlowProblem, p: Point, pl: Placement, k: int)
    requires Distinct(fp.workers) && pl.workerOf(k) in fp.workers && k <= pl.last && EncodesWorkers(fp, p, pl, k)
    ensures Filter(fp.workers, (w: WorkerId) => p(ComponentWorker(fp.flow, k, w)) > 0.5) == [pl.workerOf(k)]
  {
    FilterSingle(fp.workers, (w: WorkerId) => p(ComponentWorker(fp.flow, k, w)) > 0.5, pl.workerOf(k));
  }

  lemma LayersRead(fp: FlowProblem, p: Point, pl: Placement, k: int)
    requires EncodesVariant(fp, p, pl, pl.variant) && 1 <= k <= fp.maxComponents
    requires Populated(fp.topologyOf(pl.variant), pl, k)
    ensures Filter(Order(fp, pl.variant), (l: LayerKey) => p(LayerComponent(fp.flow, pl.variant, l, k)) > 0.5)
         == LayersIn(fp.topologyOf(pl.variant), pl, k)
    ensures LayerSet(LayersIn(fp.topologyOf(pl.variant), pl, k)) != {}
  {
    var t := fp.topologyOf(pl.variant);
    FilterCongruent(t.order, (l: LayerKey) => p(LayerComponent(fp.flow, pl.variant, l, k)) > 0.5,
                    (l: LayerKey) => pl.componentOf(l) == k);
    var l :| l in t.order && pl.componentOf(l) == k;
    assert l in LayerSet(LayersIn(t, pl, k));
  }

  lemma PrioritiesRead(fp: FlowProblem, p: Point, k: int, w: WorkerId)
    requires WorkerDomain(fp, p, k, w) && p(ComponentWorker(fp.flow, k, w)) == 1.0
    ensures SelectedPriorities(fp, p, k, w)
  {
    var keys, f := Range(1, fp.priorityCount + 1), PriorityAt(fp, k, w, p);
    BinarySum(keys, f);
    var a :| a in keys && f(a) == 1.0 && forall r :: r in keys && r != a ==> f(r) == 0.0;
    forall r | r in keys ensures (p(ComponentPriority(fp.flow, k, w, r)) > 0.5) == (r == a) {
      assert f(r) == p(ComponentPriority(fp.flow, k, w, r));
    }
    FilterSingle(keys, (r: int) => p(ComponentPriority(fp.flow, k, w, r)) > 0.5, a);
  }

  lemma VariantRead(fp: FlowProblem, p: Point, pl: Placement)
    requires WellFormed(fp) && Valid(fp, pl) && Encodes(fp, p, pl)
    ensures Filter(fp.variants, (v: ModelVariantId) => p(ModelSelected(fp.flow, v)) > 0.5) == [pl.variant]
    ensures 1 <= pl.last <= fp.maxComponents
    ensures forall k :: 1 <= k <= fp.maxComponents ==> (p(ComponentActive(fp.flow, k)) > 0.5 <==> k <= pl.last)
  {
    FilterSingle(fp.variants, (v: ModelVariantId) => p(ModelSelected(fp.flow, v)) > 0.5, pl.variant);
  }

  function CutOf(
    fp: FlowProblem, p: Point, variant: ModelVariantId, source: ComponentSolution, destination: ComponentSolution)
    : CutSolution
    requires Acyclic(fp.topologyOf(variant))
  {
    var crossing := set x | x in RoutedTensors(fp.topologyOf(variant).edges)
                            && CrossingTerm(fp, variant, x, source.index, p) > 0.5;
    CutSolution(source.index, destination.index, crossing)
  }

  ghost predicate AreComponents(t: Topology, pl: Placement, components: seq<ComponentSolution>, n: int)
  {
    |components| == n && forall i :: 0 <= i < |components| ==> IsComponent(t, pl, i + 1, components[i])
  }

  /** The loop of `extract_solution` over the active components. */
  method ExtractComponents(fp: FlowProblem, p: Point, variant: ModelVariantId, ghost pl: Placement)
    returns (r: Result<seq<ComponentSolution>>)
    requires Solved(fp, p, pl) && variant == pl.variant
    ensures r.Ok? && AreComponents(fp.topologyOf(variant), pl, r.value, pl.last)
    ensures forall c :: c in r.value ==> HasPriority(fp, p, c)
  {
    hide HasPriority, IsComponent, WellFormed, Domain, Valid, Encodes, AllCrossingRows;
    VariantRead(fp, p, pl);
    var components: seq<ComponentSolution> := [];
    for k := 1 to fp.maxComponents + 1
      invariant AreComponents(fp.topologyOf(variant), pl, components, if k <= pl.last then k - 1 else pl.last)
      invariant forall c :: c in components ==> HasPriority(fp, p, c)
    {
      if p(ComponentActive(fp.flow, k)) > 0.5 {
        var component := ExtractComponent(fp, p, variant, k, pl);
        if component.Err? {
          return Err("The component could not be read");
        }
        components := components + [component.value];
      }
    }
    r := Ok(components);
  }

  lemma ComponentIndexes(fp: FlowProblem, p: Point, pl: Placement, components: seq<ComponentSolution>)
    requires Solved(fp, p, pl) && AreComponents(fp.topologyOf(pl.variant), pl, components, pl.last)
    ensures Acyclic(fp.topologyOf(pl.variant)) && 1 <= pl.last == |components|
    ensures forall i :: 0 <= i < |components| ==> components[i].index == i + 1 && components[i].worker == pl.workerOf(i + 1)
    ensures fp.ingress.Some? ==> pl.workerOf(1) == fp.ingress.value
    ensures fp.sink.Some? ==> pl.workerOf(pl.last) == fp.sink.value
  {
    assert WellFormedTopology(fp.topologyOf(pl.variant));
  }

  /** The cuts between consecutive components. */
  method ExtractCuts(
    fp: FlowProblem, p: Point, variant: ModelVariantId, components: seq<ComponentSolution>, ghost pl: Placement)
    returns (cuts: seq<CutSolution>)
    requires Solved(fp, p, pl) && SingleSource(fp.topologyOf(pl.variant).edges) && variant == pl.variant
    requires AreComponents(fp.topologyOf(variant), pl, components, pl.last)
    ensures |cuts| == pl.last - 1
    ensures forall j :: 0 <= j < |cuts| ==>
              cuts[j] == CutSolution(j + 1, j + 2, CrossingSet(fp.topologyOf(variant), pl, j + 1))
  {
    hide Solved, IsComponent, AreComponents, CrossingSet, SingleSource, Acyclic;
    ComponentIndexes(fp, p, pl, components);
    cuts := [];
    for i := 0 to |components| - 1
      invariant |cuts| == i
      invariant forall j :: 0 <= j < i ==>
                  cuts[j] == CutSolution(j + 1, j + 2, CrossingSet(fp.topologyOf(variant), pl, j + 1))
    {
      CutRead(fp, p, pl, components[i], components[i + 1]);
      cuts := cuts + [CutOf(fp, p, variant, components[i], components[i + 1])];
    }
  }

  predicate EndpointsKept(fp: FlowProblem, components: seq<ComponentSolution>)
    requires components != []
  {
    && (fp.ingress.Some? ==> components[0].worker == fp.ingress.value)
    && (fp.sink.Some? ==> components[|components| - 1].worker == fp.sink.value)
  }

  predicate ComputesAt(relayOnly: Option<WorkerId>, c: ComponentSolution)
  {
    relayOnly == Some(c.worker) && c.ExecutableLayers() != []
  }

  /** `_validate_flow_placements`, true when it raises nothing. */
  method ValidateFlowPlacements(fp: FlowProblem, relayOnly: Option<WorkerId>, components: seq<ComponentSolution>)
    returns (ok: bool)
    ensures ok <==> components != [] && EndpointsKept(fp, components) && forall c :: c in components ==> !ComputesAt(relayOnly, c)
  {
    if components == [] {
      return false;
    }
    if (fp.ingress.Some? && components[0].worker != fp.ingress.value)
       || (fp.sink.Some? && components[|components| - 1].worker != fp.sink.value)
    {
      return false;
    }
    ok := !(exists c :: c in components && ComputesAt(relayOnly, c));
  }

  /** The relay-only worker has input and output layers only. */
  ghost predicate RelayRespected(fp: FlowProblem, pl: Placement, relayOnly: Option<WorkerId>)
  {
    var t := fp.topologyOf(pl.variant);
    forall l :: l in t.order && relayOnly == Some(pl.workerOf(pl.componentOf(l))) ==> l in t.inputs || l in t.outputs
  }

  lemma RelayCheck(fp: FlowProblem, pl: Placement, relayOnly: Option<WorkerId>, components: seq<ComponentSolution>)
    requires Valid(fp, pl) && AreComponents(fp.topologyOf(pl.variant), pl, components, pl.last)
    ensures (forall c :: c in components ==> !ComputesAt(relayOnly, c)) <==> RelayRespected(fp, pl, relayOnly)
  {
    hide Filter, Populated;
    var t := fp.topologyOf(pl.variant);
    if forall c :: c in components ==> !ComputesAt(relayOnly, c) {
      forall l | l in t.order && relayOnly == Some(pl.workerOf(pl.componentOf(l))) ensures l in t.inputs || l in t.outputs {
        var c := components[pl.componentOf(l) - 1];
        assert c in components && IsComponent(t, pl, pl.componentOf(l), c);
        assert l in c.ExecutableLayers() <==> l !in t.inputs && l !in t.outputs;
      }
    }
    if RelayRespected(fp, pl, relayOnly) {
      forall i | 0 <= i < |components| ensures !ComputesAt(relayOnly, components[i]) {
        var layers := components[i].ExecutableLayers();
        assert IsComponent(t, pl, i + 1, components[i]);
        if layers != [] {
          assert layers[0] in layers;
        }
      }
    }
  }

  /** `extract_solution` for one flow. It fails only when a relay-only worker would compute. */
  method ExtractSolution(fp: FlowProblem, p: Point, relayOnly: Option<WorkerId>, ghost pl: Placement)
    returns (r: Result<FlowSolution>)
    requires Solved(fp, p, pl) && SingleSource(fp.topologyOf(pl.variant).edges)
    ensures r.Ok? <==> RelayRespected(fp, pl, relayOnly)
    ensures r.Ok? ==> IsSolution(fp, pl, r.value) && forall c :: c in r.value.components ==> HasPriority(fp, p, c)
  {
    hide WellFormed, Domain, Encodes, AllCrossingRows, SingleSource, Filter, IsComponent, CrossingSet, Populated;
    hide RelayRespected, ComputesAt, HasPriority;
    var selected := Filter(fp.variants, v => p(ModelSelected(fp.flow, v)) > 0.5);
    VariantRead(fp, p, pl);
    if |selected| != 1 {
      return Err("Expected one selected model");
    }
    var variant := selected[0];
    var extracted := ExtractComponents(fp, p, variant, pl);
    if extracted.Err? {
      return Err("A component could not be read");
    }
    var components := extracted.value;
    ComponentIndexes(fp, p, pl, components);
    RelayCheck(fp, pl, relayOnly, components);
    var valid := ValidateFlowPlacements(fp, relayOnly, components);
    if !valid {
      return Err("The extracted placement is not valid");
    }
    var cuts := ExtractCuts(fp, p, variant, components, pl);
    r := Ok(FlowSolution(
      fp.flow, components[0].worker, components[|components| - 1].worker, variant, components, cuts));
  }

  lemma CutRead(fp: FlowProblem, p: Point, pl: Placement, source: ComponentSolution, destination: ComponentSolution)
    requires Solved(fp, p, pl) && SingleSource(fp.topologyOf(pl.variant).edges) && 1 <= source.index < pl.last
    ensures WellFormedTopology(fp.topologyOf(pl.variant))
    ensures CutOf(fp, p, pl.variant, source, destination).tensors
         == CrossingSet(fp.topologyOf(pl.variant), pl, source.index)
  {
    var t := fp.topologyOf(pl.variant);
    assert WellFormedTopology(t);
    forall x | x in RoutedTensors(t.edges)
      ensures CrossingTerm(fp, pl.variant, x, source.index, p) > 0.5 <==> Crosses(t, pl, x, source.index)
    {
      CrossingExact(fp, p, pl, pl.variant, x, source.index);
    }
  }
}
