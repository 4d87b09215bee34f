/**
 The assignment rows of gurobi_structure_constraints.py and compact_structure.py for one flow, and the
 placements that they admit.
 */
module Assignment {
  import opened Lp
  import opened Sums
  import opened ModelTopology

  datatype Option<T> = None | Some(value: T)

  datatype FlowProblem = FlowProblem(
    flow: FlowId,
    variants: seq<ModelVariantId>,
    topologyOf: ModelVariantId -> Topology,
    workers: seq<WorkerId>,
    maxComponents: int,
    priorityCount: int,
    ingress: Option<WorkerId>,
    sink: Option<WorkerId>)

  function Order(fp: FlowProblem, v: ModelVariantId): seq<LayerKey> { fp.topologyOf(v).order }

  /** What the problem builder and the configuration guarantee. */
  ghost predicate WellFormed(fp: FlowProblem)
  {
    && Distinct(fp.variants) && Distinct(fp.workers) && fp.maxComponents >= 1
    && (forall v :: v in fp.variants ==> WellFormedTopology(fp.topologyOf(v)))
    && (fp.ingress.Some? ==> fp.ingress.value in fp.workers)
    && (fp.sink.Some? ==> fp.sink.value in fp.workers)
  }

  ghost predicate WellFormedTopology(t: Topology)
  {
    && Acyclic(t)
    && (exists l :: l in t.order && l in t.inputs)
    && (exists l :: l in t.order && l in t.outputs)
  }

  // ----- the expressions of the rows

  function X(fp: FlowProblem, v: ModelVariantId, l: LayerKey, p: Point): int -> real
  {
    k => p(LayerComponent(fp.flow, v, l, k))
  }

  function LayerAt(fp: FlowProblem, v: ModelVariantId, k: int, p: Point): LayerKey -> real
  {
    l => p(LayerComponent(fp.flow, v, l, k))
  }

  function PlacementAt(fp: FlowProblem, k: int, p: Point): WorkerId -> real
  {
    w => p(ComponentWorker(fp.flow, k, w))
  }

  function Selected(fp: FlowProblem, p: Point): ModelVariantId -> real
  {
    v => p(ModelSelected(fp.flow, v))
  }

  function PriorityAt(fp: FlowProblem, k: int, w: WorkerId, p: Point): int -> real
  {
    r => p(ComponentPriority(fp.flow, k, w, r))
  }

  /** The sum of a layer's assignments to the components 1, ..., k. */
  function UpTo(fp: FlowProblem, v: ModelVariantId, l: LayerKey, k: int, p: Point): real
  {
    SumOver(Range(1, k + 1), X(fp, v, l, p))
  }

  function VariantLayersAt(fp: FlowProblem, k: int, p: Point): ModelVariantId -> real
  {
    v => SumOver(Order(fp, v), LayerAt(fp, v, k, p))
  }

  function LayersAt(fp: FlowProblem, k: int, p: Point): real
  {
    SumOver(fp.variants, VariantLayersAt(fp, k, p))
  }

  /** `component_active_at`: zero for the sentinel after the last component. */
  function ActiveAt(fp: FlowProblem, k: int, p: Point): real
  {
    if k == fp.maxComponents + 1 then 0.0 else p(ComponentActive(fp.flow, k))
  }

  // ----- the rows

  ghost predicate ComponentRows(fp: FlowProblem, k: int, p: Point)
  {
    && p(ComponentActive(fp.flow, k)) == SumOver(fp.workers, PlacementAt(fp, k, p))
    && ActiveIfLayer(fp, k, p)
    && p(ComponentActive(fp.flow, k)) <= LayersAt(fp, k, p)
    && p(ComponentLast(fp.flow, k)) == ActiveAt(fp, k, p) - ActiveAt(fp, k + 1, p)
    && ActiveAt(fp, k + 1, p) <= ActiveAt(fp, k, p)
  }

  ghost predicate ActiveIfLayer(fp: FlowProblem, k: int, p: Point)
  {
    forall v :: v in fp.variants ==> ActiveIfVariantLayer(fp, v, k, p)
  }

  ghost predicate ActiveIfVariantLayer(fp: FlowProblem, v: ModelVariantId, k: int, p: Point)
  {
    forall l :: l in Order(fp, v) ==> p(ComponentActive(fp.flow, k)) >= p(LayerComponent(fp.flow, v, l, k))
  }

  ghost predicate EndpointRows(fp: FlowProblem, p: Point)
  {
    && (fp.ingress.Some? ==> p(ComponentWorker(fp.flow, 1, fp.ingress.value)) == 1.0)
    && (fp.sink.Some? ==> forall k :: 1 <= k <= fp.maxComponents ==> SinkRow(fp, k, p))
  }

  predicate SinkRow(fp: FlowProblem, k: int, p: Point)
    requires fp.sink.Some?
  {
    p(ComponentWorker(fp.flow, k, fp.sink.value)) >= p(ComponentLast(fp.flow, k))
  }

  ghost predicate DifferentWorkers(fp: FlowProblem, cut: int, p: Point)
  {
    forall w :: w in fp.workers ==>
      p(ComponentWorker(fp.flow, cut, w)) + p(ComponentWorker(fp.flow, cut + 1, w)) <= 1.0
  }

  ghost predicate VariantRows(fp: FlowProblem, v: ModelVariantId, p: Point)
  {
    var t := fp.topologyOf(v);
    && (forall l :: l in t.order ==> AssignedRow(fp, v, l, p))
    && (forall l :: l in t.order && l in t.inputs ==> InputRow(fp, v, l, p))
    && (forall l :: l in t.order && l in t.outputs ==> OutputRows(fp, v, l, p))
    && (forall e :: e in t.edges ==> PrecedenceRows(fp, v, e, p))
  }

  predicate AssignedRow(fp: FlowProblem, v: ModelVariantId, l: LayerKey, p: Point)
  {
    UpTo(fp, v, l, fp.maxComponents, p) == p(ModelSelected(fp.flow, v))
  }

  predicate InputRow(fp: FlowProblem, v: ModelVariantId, l: LayerKey, p: Point)
  {
    p(LayerComponent(fp.flow, v, l, 1)) == p(ModelSelected(fp.flow, v))
  }

  ghost predicate OutputRows(fp: FlowProblem, v: ModelVariantId, l: LayerKey, p: Point)
  {
    forall k :: 1 <= k <= fp.maxComponents ==> OutputRow(fp, v, l, k, p)
  }

  predicate OutputRow(fp: FlowProblem, v: ModelVariantId, l: LayerKey, k: int, p: Point)
  {
    p(LayerComponent(fp.flow, v, l, k)) >= p(ModelSelected(fp.flow, v)) + p(ComponentLast(fp.flow, k)) - 1.0
  }

  ghost predicate PrecedenceRows(fp: FlowProblem, v: ModelVariantId, e: Edge, p: Point)
  {
    forall k :: 1 <= k <= fp.maxComponents ==> PrecedenceRow(fp, v, e, k, p)
  }

  predicate PrecedenceRow(fp: FlowProblem, v: ModelVariantId, e: Edge, k: int, p: Point)
  {
    UpTo(fp, v, e.target, k, p) <= UpTo(fp, v, e.source, k, p)
  }

  ghost predicate AssignmentRows(fp: FlowProblem, p: Point)
  {
    && SumOver(fp.variants, Selected(fp, p)) == 1.0
    && (forall k :: 1 <= k <= fp.maxComponents ==> ComponentRows(fp, k, p))
    && EndpointRows(fp, p)
    && (forall cut :: 1 <= cut < fp.maxComponents ==> DifferentWorkers(fp, cut, p))
    && (forall v :: v in fp.variants ==> VariantRows(fp, v, p))
  }

  // ----- emission of the rows

  method ComponentIsActiveIfHasAtLeastOneLayer(m: Model, fp: FlowProblem, k: int, ghost p: Point)
    modifies m
    ensures m.Sat(p) <==> (
              old(m.Sat(p)) && ActiveIfLayer(fp, k, p) && p(ComponentActive(fp.flow, k)) <= LayersAt(fp, k, p))
  {
    for i := 0 to |fp.variants|
      invariant m.Sat(p) <==> (
                  old(m.Sat(p)) && forall v :: v in fp.variants[..i] ==> ActiveIfVariantLayer(fp, v, k, p))
    {
      label VariantStart:
      var v := fp.variants[i];
      var order := Order(fp, v);
      for j := 0 to |order|
        invariant m.Sat(p) <==> (
                    && old@VariantStart(m.Sat(p))
                    && forall l :: l in order[..j] ==>
                         p(ComponentActive(fp.flow, k)) >= p(LayerComponent(fp.flow, v, l, k)))
      {
        var l := order[j];
        m.AddConstr((q: Point) => q(ComponentActive(fp.flow, k)) >= q(LayerComponent(fp.flow, v, l, k)), p);
        assert order[..j + 1] == order[..j] + [l];
      }
      assert order[..|order|] == order;
      assert m.Sat(p) <==> (old@VariantStart(m.Sat(p)) && ActiveIfVariantLayer(fp, v, k, p));
      assert fp.variants[..i + 1] == fp.variants[..i] + [v];
    }
    assert fp.variants[..|fp.variants|] == fp.variants;
    m.AddConstr((q: Point) => q(ComponentActive(fp.flow, k)) <= LayersAt(fp, k, q), p);
  }

  method AddComponentConstraints(m: Model, fp: FlowProblem, k: int, ghost p: Point)
    modifies m
    ensures m.Sat(p) <==> (old(m.Sat(p)) && ComponentRows(fp, k, p))
  {
    m.AddConstr(
      (q: Point) => q(ComponentActive(fp.flow, k)) == SumOver(fp.workers, PlacementAt(fp, k, q)), p);
    ComponentIsActiveIfHasAtLeastOneLayer(m, fp, k, p);
    m.AddConstr(
      (q: Point) => q(ComponentLast(fp.flow, k)) == ActiveAt(fp, k, q) - ActiveAt(fp, k + 1, q), p);
    m.AddConstr((q: Point) => ActiveAt(fp, k + 1, q) <= ActiveAt(fp, k, q), p);
  }

  method EndpointPlacementConstraints(m: Model, fp: FlowProblem, ghost p: Point)
    requires fp.maxComponents >= 1
    modifies m
    ensures m.Sat(p) <==> (old(m.Sat(p)) && EndpointRows(fp, p))
  {
    if fp.ingress.Some? {
      m.AddConstr((q: Point) => q(ComponentWorker(fp.flow, 1, fp.ingress.value)) == 1.0, p);
    }
    label Ingress:
    if fp.sink.Some? {
      for k := 1 to fp.maxComponents + 1
        invariant m.Sat(p) <==> (old@Ingress(m.Sat(p)) && forall j :: 1 <= j < k ==> SinkRow(fp, j, p))
      {
        m.AddConstr((q: Point) => SinkRow(fp, k, q), p);
      }
    }
  }

  method SuccessiveComponentsUseDifferentWorkers(m: Model, fp: FlowProblem, cut: int, ghost p: Point)
    modifies m
    ensures m.Sat(p) <==> (old(m.Sat(p)) && DifferentWorkers(fp, cut, p))
  {
    for i := 0 to |fp.workers|
      invariant m.Sat(p) <==> (
                  && old(m.Sat(p))
                  && forall w :: w in fp.workers[..i] ==>
                       p(ComponentWorker(fp.flow, cut, w)) + p(ComponentWorker(fp.flow, cut + 1, w)) <= 1.0)
    {
      var w := fp.workers[i];
      m.AddConstr(
        (q: Point) => q(ComponentWorker(fp.flow, cut, w)) + q(ComponentWorker(fp.flow, cut + 1, w)) <= 1.0, p);
      assert fp.workers[..i + 1] == fp.workers[..i] + [w];
    }
    assert fp.workers[..|fp.workers|] == fp.workers;
  }

  method AddLayerConstraints(m: Model, fp: FlowProblem, v: ModelVariantId, l: LayerKey, ghost p: Point)
    requires fp.maxComponents >= 1
    modifies m
    ensures m.Sat(p) <==> (
              && old(m.Sat(p))
              && AssignedRow(fp, v, l, p)
              && (l in fp.topologyOf(v).inputs ==> InputRow(fp, v, l, p))
              && (l in fp.topologyOf(v).outputs ==> OutputRows(fp, v, l, p)))
  {
    m.AddConstr((q: Point) => AssignedRow(fp, v, l, q), p);
    if l in fp.topologyOf(v).inputs {
      m.AddConstr((q: Point) => InputRow(fp, v, l, q), p);
    }
    if l in fp.topologyOf(v).outputs {
      label Outputs:
      for k := 1 to fp.maxComponents + 1
        invariant m.Sat(p) <==> (old@Outputs(m.Sat(p)) && forall j :: 1 <= j < k ==> OutputRow(fp, v, l, j, p))
      {
        m.AddConstr((q: Point) => OutputRow(fp, v, l, k, q), p);
      }
    }
  }

  method LayerAssignmentsRespectPrecedence(m: Model, fp: FlowProblem, v: ModelVariantId, e: Edge, ghost p: Point)
    requires fp.maxComponents >= 1
    modifies m
    ensures m.Sat(p) <==> (old(m.Sat(p)) && PrecedenceRows(fp, v, e, p))
  {
    for k := 1 to fp.maxComponents + 1
      invariant m.Sat(p) <==> (old(m.Sat(p)) && forall j :: 1 <= j < k ==> PrecedenceRow(fp, v, e, j, p))
    {
      m.AddConstr((q: Point) => PrecedenceRow(fp, v, e, k, q), p);
    }
  }

  method AddModelAssignmentConstraints(m: Model, fp: FlowProblem, v: ModelVariantId, ghost p: Point)
    requires fp.maxComponents >= 1
    modifies m
    ensures m.Sat(p) <==> (old(m.Sat(p)) && VariantRows(fp, v, p))
  {
    var t := fp.topologyOf(v);
    for i := 0 to |t.order|
      invariant m.Sat(p) <==> (
                  && old(m.Sat(p))
                  && (forall l :: l in t.order[..i] ==> AssignedRow(fp, v, l, p))
                  && (forall l :: l in t.order[..i] && l in t.inputs ==> InputRow(fp, v, l, p))
                  && (forall l :: l in t.order[..i] && l in t.outputs ==> OutputRows(fp, v, l, p)))
    {
      AddLayerConstraints(m, fp, v, t.order[i], p);
      assert t.order[..i + 1] == t.order[..i] + [t.order[i]];
    }
    assert t.order[..|t.order|] == t.order;
    label Layers:
    for i := 0 to |t.edges|
      invariant m.Sat(p) <==> (
                  old@Layers(m.Sat(p)) && forall e :: e in t.edges[..i] ==> PrecedenceRows(fp, v, e, p))
    {
      LayerAssignmentsRespectPrecedence(m, fp, v, t.edges[i], p);
      assert t.edges[..i + 1] == t.edges[..i] + [t.edges[i]];
    }
    assert t.edges[..|t.edges|] == t.edges;
  }

  /** `add_assignment_constraints` for one flow, without the crossing rows of module TensorCrossing. */
  method AddAssignmentConstraints(m: Model, fp: FlowProblem, ghost p: Point)
    requires fp.maxComponents >= 1
    modifies m
    ensures m.Sat(p) <==> (old(m.Sat(p)) && AssignmentRows(fp, p))
  {
    m.AddConstr((q: Point) => SumOver(fp.variants, Selected(fp, q)) == 1.0, p);
    label Chosen:
    for k := 1 to fp.maxComponents + 1
      invariant m.Sat(p) <==> (old@Chosen(m.Sat(p)) && forall j :: 1 <= j < k ==> ComponentRows(fp, j, p))
    {
      AddComponentConstraints(m, fp, k, p);
    }
    EndpointPlacementConstraints(m, fp, p);
    label Endpoints:
    for cut := 1 to fp.maxComponents
      invariant m.Sat(p) <==> (old@Endpoints(m.Sat(p)) && forall j :: 1 <= j < cut ==> DifferentWorkers(fp, j, p))
    {
      SuccessiveComponentsUseDifferentWorkers(m, fp, cut, p);
    }
    label Cuts:
    for i := 0 to |fp.variants|
      invariant m.Sat(p) <==> (
                  old@Cuts(m.Sat(p)) && forall v :: v in fp.variants[..i] ==> VariantRows(fp, v, p))
    {
      AddModelAssignmentConstraints(m, fp, fp.variants[i], p);
      assert fp.variants[..i + 1] == fp.variants[..i] + [fp.variants[i]];
    }
    assert fp.variants[..|fp.variants|] == fp.variants;
  }
}
