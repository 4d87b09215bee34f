/**
 Which tensors cross a cut: gurobi_expressions.py and the crossing rows of gurobi_structure_constraints.py
 test the maximal destinations only, and use a continuous auxiliary variable.
 */
module TensorCrossing {
  import opened Lp
  import opened Sums
  import opened ModelTopology
  import opened Assignment
  import opened Structure

  /** The elements of a set in the order of a sequence that contains them. */
  function InOrder(order: seq<LayerKey>, s: set<LayerKey>): (r: seq<LayerKey>)
    ensures forall l :: l in r <==> l in order && l in s
    ensures |r| <= |order|
  {
    if order == [] then []
    else (if order[0] in s then [order[0]] else []) + InOrder(order[1..], s)
  }

  function MaximalDestinations(t: Topology, tensor: TensorKey): (r: seq<LayerKey>)
    requires Acyclic(t)
    ensures forall d :: d in r <==> IsMaximal(t, Consumers(t.edges, tensor), d)
  {
    var destinations := Consumers(t.edges, tensor);
    InOrder(t.order, set d | d in destinations && IsMaximal(t, destinations, d))
  }

  function CrossingStep(fp: FlowProblem, v: ModelVariantId, source: LayerKey, d: LayerKey, p: Point): int -> real
  {
    k => p(LayerComponent(fp.flow, v, source, k)) - p(LayerComponent(fp.flow, v, d, k))
  }

  /** `destination_crossing_expression`. */
  function DestinationCrossing(
    fp: FlowProblem, v: ModelVariantId, source: LayerKey, d: LayerKey, cut: int, p: Point): real
  {
    SumOver(Range(1, cut + 1), CrossingStep(fp, v, source, d, p))
  }

  function CrossingOf(fp: FlowProblem, v: ModelVariantId, source: LayerKey, cut: int, p: Point): LayerKey -> real
  {
    d => DestinationCrossing(fp, v, source, d, cut, p)
  }

  /** `tensor_crossing_term`. */
  function CrossingTerm(fp: FlowProblem, v: ModelVariantId, tensor: TensorKey, cut: int, p: Point): real
    requires Acyclic(fp.topologyOf(v)) && tensor in RoutedTensors(fp.topologyOf(v).edges)
  {
    var t := fp.topologyOf(v);
    var maximal := MaximalDestinations(t, tensor);
    if maximal == [] then 0.0
    else if |maximal| == 1 then DestinationCrossing(fp, v, Producer(t.edges, tensor), maximal[0], cut, p)
    else p(TensorCrossing(fp.flow, v, tensor, cut))
  }

  ghost predicate CrossingRows(fp: FlowProblem, v: ModelVariantId, tensor: TensorKey, cut: int, p: Point)
    requires Acyclic(fp.topologyOf(v)) && tensor in RoutedTensors(fp.topologyOf(v).edges)
  {
    var t := fp.topologyOf(v);
    var maximal := MaximalDestinations(t, tensor);
    var f := CrossingOf(fp, v, Producer(t.edges, tensor), cut, p);
    var c := p(TensorCrossing(fp.flow, v, tensor, cut));
    |maximal| > 1 ==> 0.0 <= c <= 1.0 && (forall d :: d in maximal ==> c >= f(d)) && c <= SumOver(maximal, f)
  }

  ghost predicate AllCrossingRows(fp: FlowProblem, p: Point)
    requires WellFormed(fp)
  {
    forall v :: v in fp.variants ==> VariantCrossingRows(fp, v, p)
  }

  ghost predicate VariantCrossingRows(fp: FlowProblem, v: ModelVariantId, p: Point)
    requires Acyclic(fp.topologyOf(v))
  {
    var tensors := RoutedTensors(fp.topologyOf(v).edges);
    forall tensor, cut :: tensor in tensors && 1 <= cut < fp.maxComponents ==> CrossingRows(fp, v, tensor, cut, p)
  }

  /** `_tensor_crossing_cut` for one tensor and one cut; the bounds come with the variable. */
  method AddTensorCrossingCut(
    m: Model, fp: FlowProblem, v: ModelVariantId, tensor: TensorKey, cut: int, ghost p: Point)
    requires Acyclic(fp.topologyOf(v)) && tensor in RoutedTensors(fp.topologyOf(v).edges)
    modifies m
    ensures m.Sat(p) <==> (old(m.Sat(p)) && CrossingRows(fp, v, tensor, cut, p))
  {
    hide Acyclic, MaximalDestinations, Producer, CrossingOf, RoutedTensors, SumOver;
    var source := Producer(fp.topologyOf(v).edges, tensor);
    var maximal := MaximalDestinations(fp.topologyOf(v), tensor);
    if |maximal| > 1 {
      AddAuxiliaryRows(m, fp, v, source, maximal, TensorCrossing(fp.flow, v, tensor, cut), cut, p);
    }
  }

  method AddAuxiliaryRows(m: Model, fp: FlowProblem, v: ModelVariantId, source: LayerKey, maximal: seq<LayerKey>,
                          crosses: Var, cut: int, ghost p: Point)
    modifies m
    ensures m.Sat(p) <==> (
              && old(m.Sat(p)) && 0.0 <= p(crosses) <= 1.0
              && (forall d :: d in maximal ==> p(crosses) >= CrossingOf(fp, v, source, cut, p)(d))
              && p(crosses) <= SumOver(maximal, CrossingOf(fp, v, source, cut, p)))
  {
    m.AddConstr((q: Point) => 0.0 <= q(crosses) <= 1.0, p);
    for i := 0 to |maximal|
      invariant m.Sat(p) <==> (
                  && old(m.Sat(p)) && 0.0 <= p(crosses) <= 1.0
                  && forall d :: d in maximal[..i] ==> p(crosses) >= CrossingOf(fp, v, source, cut, p)(d))
    {
      var d := maximal[i];
      m.AddConstr((q: Point) => q(crosses) >= CrossingOf(fp, v, source, cut, q)(d), p);
      assert maximal[..i + 1] == maximal[..i] + [d];
    }
    assert maximal[..|maximal|] == maximal;
    m.AddConstr((q: Point) => q(crosses) <= SumOver(maximal, CrossingOf(fp, v, source, cut, q)), p);
  }

  ghost predicate TensorRowsUpTo(fp: FlowProblem, v: ModelVariantId, tensor: TensorKey, last: int, p: Point)
    requires Acyclic(fp.topologyOf(v)) && tensor in RoutedTensors(fp.topologyOf(v).edges)
  {
    forall cut :: 1 <= cut < last ==> CrossingRows(fp, v, tensor, cut, p)
  }

  /** `_tensor_crossing_cut`: all tensors of a variant and all cuts. */
  method AddTensorCrossingCuts(m: Model, fp: FlowProblem, v: ModelVariantId, ghost p: Point)
    requires Acyclic(fp.topologyOf(v)) && fp.maxComponents >= 1
    modifies m
    ensures m.Sat(p) <==> (old(m.Sat(p)) && VariantCrossingRows(fp, v, p))
  {
    hide Acyclic, CrossingRows, RoutedTensors;
    var tensors := RoutedTensors(fp.topologyOf(v).edges);
    var open := tensors;
    while open != {}
      invariant open <= tensors
      invariant m.Sat(p) <==> (
                  old(m.Sat(p)) && forall x :: x in tensors - open ==> TensorRowsUpTo(fp, v, x, fp.maxComponents, p))
      decreases open
    {
      var tensor :| tensor in open;
      label Tensor:
      for cut := 1 to fp.maxComponents
        invariant m.Sat(p) <==> (old@Tensor(m.Sat(p)) && TensorRowsUpTo(fp, v, tensor, cut, p))
      {
        AddTensorCrossingCut(m, fp, v, tensor, cut, p);
      }
      assert tensors - (open - {tensor}) == tensors - open + {tensor};
      open := open - {tensor};
    }
    assert tensors - {} == tensors;
    RowsByTensor(fp, v, p);
  }

  lemma RowsByTensor(fp: FlowProblem, v: ModelVariantId, p: Point)
    requires Acyclic(fp.topologyOf(v))
    ensures VariantCrossingRows(fp, v, p)
       <==> forall x :: x in RoutedTensors(fp.topologyOf(v).edges) ==> TensorRowsUpTo(fp, v, x, fp.maxComponents, p)
  {
    hide Acyclic, CrossingRows, RoutedTensors;
    var tensors := RoutedTensors(fp.topologyOf(v).edges);
    if forall x :: x in tensors ==> TensorRowsUpTo(fp, v, x, fp.maxComponents, p) {
      forall x, cut | x in tensors && 1 <= cut < fp.maxComponents ensures CrossingRows(fp, v, x, cut, p) {
        assert TensorRowsUpTo(fp, v, x, fp.maxComponents, p);
      }
    }
  }

  /** All structural rows of one flow. */
  ghost predicate StructureRows(fp: FlowProblem, p: Point)
    requires WellFormed(fp)
  {
    AssignmentRows(fp, p) && AllCrossingRows(fp, p)
  }

  method AddFlowStructure(m: Model, fp: FlowProblem, ghost p: Point)
    requires WellFormed(fp)
    modifies m
    ensures m.Sat(p) <==> (old(m.Sat(p)) && StructureRows(fp, p))
  {
    hide AssignmentRows, VariantCrossingRows, Acyclic, Distinct;
    AddAssignmentConstraints(m, fp, p);
    label Assigned:
    for i := 0 to |fp.variants|
      invariant m.Sat(p) <==> (
                  old@Assigned(m.Sat(p)) && forall v :: v in fp.variants[..i] ==> VariantCrossingRows(fp, v, p))
    {
      AddTensorCrossingCuts(m, fp, fp.variants[i], p);
      assert fp.variants[..i + 1] == fp.variants[..i] + [fp.variants[i]];
    }
    assert fp.variants[..|fp.variants|] == fp.variants;
  }

  /** `add_assignment_constraints`: all flows, with the crossing rows that the loops emit on the way. */
  method AddStructure(m: Model, fps: seq<FlowProblem>, ghost p: Point)
    requires forall fp :: fp in fps ==> WellFormed(fp)
    modifies m
    ensures m.Sat(p) <==> (old(m.Sat(p)) && forall fp :: fp in fps ==> StructureRows(fp, p))
  {
    hide StructureRows, WellFormed;
    for i := 0 to |fps|
      invariant m.Sat(p) <==> (old(m.Sat(p)) && forall fp :: fp in fps[..i] ==> StructureRows(fp, p))
    {
      AddFlowStructure(m, fps[i], p);
      assert fps[..i + 1] == fps[..i] + [fps[i]];
    }
    assert fps[..|fps|] == fps;
  }

  // ----- exactness

  /** What the variable is meant to say: produced at or before the cut, still needed after it. */
  ghost predicate Crosses(t: Topology, pl: Placement, tensor: TensorKey, cut: int)
    requires tensor in RoutedTensors(t.edges)
  {
    && pl.componentOf(Producer(t.edges, tensor)) <= cut
    && exists d :: d in Consumers(t.edges, tensor) && pl.componentOf(d) > cut
  }

  lemma {:induction false} ComponentsFollowPaths(t: Topology, componentOf: LayerKey -> int, a: LayerKey, b: LayerKey)
    requires Acyclic(t) && Reachable(t, a, b)
    requires forall e :: e in t.edges ==> componentOf(e.source) <= componentOf(e.target)
    ensures componentOf(a) <= componentOf(b)
    decreases |t.order| - Index(t.order, a)
  {
    if a != b {
      var e :| e in t.edges && e.source == a && Reachable(t, e.target, b);
      ComponentsFollowPaths(t, componentOf, e.target, b);
    }
  }

  /** Some destination lies after the cut exactly when some maximal destination does. */
  lemma MaximalSuffices(t: Topology, componentOf: LayerKey -> int, tensor: TensorKey, cut: int)
    requires Acyclic(t)
    requires forall e :: e in t.edges ==> componentOf(e.source) <= componentOf(e.target)
    ensures (exists d :: d in Consumers(t.edges, tensor) && componentOf(d) > cut)
       <==> (exists d :: d in MaximalDestinations(t, tensor) && componentOf(d) > cut)
  {
    if exists d :: d in Consumers(t.edges, tensor) && componentOf(d) > cut {
      var d :| d in Consumers(t.edges, tensor) && componentOf(d) > cut;
      var top := MaximalAbove(t, Consumers(t.edges, tensor), d);
      ComponentsFollowPaths(t, componentOf, d, top);
      assert top in MaximalDestinations(t, tensor);
    }
  }

  lemma {:induction false} ConsumerEdge(t: Topology, tensor: TensorKey, d: LayerKey)
    requires Acyclic(t) && SingleSource(t.edges) && tensor in RoutedTensors(t.edges) && d in Consumers(t.edges, tensor)
    ensures exists e :: e in t.edges && tensor in e.tensors
                        && e.source == Producer(t.edges, tensor) && e.target == d
    ensures d in t.order && Producer(t.edges, tensor) in t.order
  {
    var e :| e in t.edges && tensor in e.tensors && e.target == d;
    var f :| f in t.edges && tensor in f.tensors && f.source == Producer(t.edges, tensor);
  }

  /** At a placement the expression of one destination is 1 when the tensor must cross to it and else 0. */
  lemma {:induction false} DestinationCrossingValue(
    fp: FlowProblem, p: Point, pl: Placement, v: ModelVariantId, tensor: TensorKey, d: LayerKey, cut: int)
    requires WellFormed(fp) && Valid(fp, pl) && Encodes(fp, p, pl) && v in fp.variants
    requires SingleSource(fp.topologyOf(v).edges) && tensor in RoutedTensors(fp.topologyOf(v).edges)
    requires d in Consumers(fp.topologyOf(v).edges, tensor) && 1 <= cut < fp.maxComponents
    ensures DestinationCrossing(fp, v, Producer(fp.topologyOf(v).edges, tensor), d, cut, p)
         == Indicator(v == pl.variant && pl.componentOf(Producer(fp.topologyOf(v).edges, tensor)) <= cut < pl.componentOf(d))
  {
    var t := fp.topologyOf(v);
    assert WellFormedTopology(t);
    hide Acyclic, Encodes, Consumers, RoutedTensors;
    var source := Producer(t.edges, tensor);
    ConsumerEdge(t, tensor, d);
    CrossingDifference(fp, v, source, d, cut, p);
    LayerEncodedIn(fp, p, pl, v, source, cut);
    LayerEncodedIn(fp, p, pl, v, d, cut);
    if v == pl.variant {
      ConsumerAfterProducer(t, pl.componentOf, tensor, d);
    }
  }

  lemma {:induction false} ConsumerAfterProducer(t: Topology, componentOf: LayerKey -> int, tensor: TensorKey,
                                                 d: LayerKey)
    requires Acyclic(t) && SingleSource(t.edges) && tensor in RoutedTensors(t.edges) && d in Consumers(t.edges, tensor)
    requires forall e :: e in t.edges ==> componentOf(e.source) <= componentOf(e.target)
    ensures componentOf(Producer(t.edges, tensor)) <= componentOf(d)
  {
    ConsumerEdge(t, tensor, d);
  }

  lemma CrossingDifference(fp: FlowProblem, v: ModelVariantId, source: LayerKey, d: LayerKey, cut: int, p: Point)
    ensures DestinationCrossing(fp, v, source, d, cut, p) == UpTo(fp, v, source, cut, p) - UpTo(fp, v, d, cut, p)
  {
    SumAffine(Range(1, cut + 1), 1.0, X(fp, v, source, p), -1.0, X(fp, v, d, p), CrossingStep(fp, v, source, d, p));
  }

  /** The crossing term of every tensor is exactly 1 or 0, as the tensor crosses the cut or not. */
  lemma CrossingExact(
    fp: FlowProblem, p: Point, pl: Placement, v: ModelVariantId, tensor: TensorKey, cut: int)
    requires WellFormed(fp) && Valid(fp, pl) && Encodes(fp, p, pl) && AllCrossingRows(fp, p)
    requires v in fp.variants && SingleSource(fp.topologyOf(v).edges)
    requires tensor in RoutedTensors(fp.topologyOf(v).edges) && 1 <= cut < fp.maxComponents
    ensures WellFormedTopology(fp.topologyOf(v))
    ensures CrossingTerm(fp, v, tensor, cut, p)
         == Indicator(v == pl.variant && Crosses(fp.topologyOf(v), pl, tensor, cut))
  {
    hide Acyclic, Reachable, IsMaximal, Encodes, Valid, WellFormed, AllCrossingRows;
    hide WellFormedTopology, MaximalDestinations, Consumers, Producer, RoutedTensors, Crosses;
    CrossingRowsHold(fp, v, tensor, cut, p);
    MaximalCrossings(fp, p, pl, v, tensor, cut);
    var t := fp.topologyOf(v);
    var maximal, f := MaximalDestinations(t, tensor), CrossingOf(fp, v, Producer(t.edges, tensor), cut, p);
    if v == pl.variant && Crosses(t, pl, tensor, cut) {
      var d :| d in maximal && f(d) == 1.0;
      if |maximal| == 1 {
        assert d == maximal[0];
      }
    } else {
      SumZero(maximal, f);
    }
  }

  lemma CrossingRowsHold(fp: FlowProblem, v: ModelVariantId, tensor: TensorKey, cut: int, p: Point)
    requires WellFormed(fp) && AllCrossingRows(fp, p) && v in fp.variants
    requires tensor in RoutedTensors(fp.topologyOf(v).edges) && 1 <= cut < fp.maxComponents
    ensures WellFormedTopology(fp.topologyOf(v)) && Acyclic(fp.topologyOf(v)) && CrossingRows(fp, v, tensor, cut, p)
  {
    assert WellFormedTopology(fp.topologyOf(v)) && VariantCrossingRows(fp, v, p);
  }

  /** Every maximal destination has value 0, except that a crossing tensor has one with value 1. */
  lemma {:induction false} MaximalCrossings(
    fp: FlowProblem, p: Point, pl: Placement, v: ModelVariantId, tensor: TensorKey, cut: int)
    requires WellFormed(fp) && Valid(fp, pl) && Encodes(fp, p, pl)
    requires v in fp.variants && SingleSource(fp.topologyOf(v).edges) && WellFormedTopology(fp.topologyOf(v))
    requires tensor in RoutedTensors(fp.topologyOf(v).edges) && 1 <= cut < fp.maxComponents
    ensures forall d :: d in MaximalDestinations(fp.topologyOf(v), tensor) ==>
              IsBinary(CrossingOf(fp, v, Producer(fp.topologyOf(v).edges, tensor), cut, p)(d))
    ensures (v == pl.variant && Crosses(fp.topologyOf(v), pl, tensor, cut))
       <==> (exists d :: d in MaximalDestinations(fp.topologyOf(v), tensor)
                         && CrossingOf(fp, v, Producer(fp.topologyOf(v).edges, tensor), cut, p)(d) == 1.0)
  {
    hide Acyclic, Encodes, WellFormed, Valid, Producer, RoutedTensors, IsMaximal, Crosses, MaximalDestinations, CrossingOf;
    var t := fp.topologyOf(v);
    var maximal := MaximalDestinations(t, tensor);
    forall d | d in maximal
      ensures CrossingOf(fp, v, Producer(t.edges, tensor), cut, p)(d)
           == Indicator(v == pl.variant && pl.componentOf(Producer(t.edges, tensor)) <= cut < pl.componentOf(d))
    {
      MaximalCrossingValue(fp, p, pl, v, tensor, d, cut);
    }
    if v == pl.variant {
      CrossesAtMaximal(fp, pl, tensor, cut);
    }
  }

  lemma {:induction false} MaximalCrossingValue(
    fp: FlowProblem, p: Point, pl: Placement, v: ModelVariantId, tensor: TensorKey, d: LayerKey, cut: int)
    requires WellFormed(fp) && Valid(fp, pl) && Encodes(fp, p, pl)
    requires v in fp.variants && SingleSource(fp.topologyOf(v).edges) && WellFormedTopology(fp.topologyOf(v))
    requires tensor in RoutedTensors(fp.topologyOf(v).edges) && 1 <= cut < fp.maxComponents
    requires d in MaximalDestinations(fp.topologyOf(v), tensor)
    ensures CrossingOf(fp, v, Producer(fp.topologyOf(v).edges, tensor), cut, p)(d)
         == Indicator(v == pl.variant && pl.componentOf(Producer(fp.topologyOf(v).edges, tensor)) <= cut < pl.componentOf(d))
  {
    hide Acyclic, Encodes, WellFormed, Valid, Producer, RoutedTensors;
    assert IsMaximal(fp.topologyOf(v), Consumers(fp.topologyOf(v).edges, tensor), d);
    DestinationCrossingValue(fp, p, pl, v, tensor, d, cut);
  }

  lemma {:induction false} CrossesAtMaximal(fp: FlowProblem, pl: Placement, tensor: TensorKey, cut: int)
    requires WellFormed(fp) && Valid(fp, pl) && WellFormedTopology(fp.topologyOf(pl.variant))
    requires tensor in RoutedTensors(fp.topologyOf(pl.variant).edges)
    ensures var t := fp.topologyOf(pl.variant);
            Crosses(t, pl, tensor, cut) <==>
            (&& pl.componentOf(Producer(t.edges, tensor)) <= cut
             && exists d :: d in MaximalDestinations(t, tensor) && pl.componentOf(d) > cut)
  {
    hide Acyclic, WellFormed, Producer, RoutedTensors, MaximalDestinations, Consumers, Populated;
    MaximalSuffices(fp.topologyOf(pl.variant), pl.componentOf, tensor, cut);
  }

  // ----- transitions between the workers of adjacent components

  function TransitionsFrom(fp: FlowProblem, links: set<(WorkerId, WorkerId)>, cut: int, s: WorkerId, p: Point)
    : WorkerId -> real
  {
    w => if Arc(links, s, w) then p(AdjacentWorkers(fp.flow, cut, s, w)) else 0.0
  }

  function TransitionsTo(fp: FlowProblem, links: set<(WorkerId, WorkerId)>, cut: int, w: WorkerId, p: Point)
    : WorkerId -> real
  {
    s => if Arc(links, s, w) then p(AdjacentWorkers(fp.flow, cut, s, w)) else 0.0
  }

  predicate Arc(links: set<(WorkerId, WorkerId)>, s: WorkerId, w: WorkerId)
  {
    s == w || (s, w) in links
  }

  /** `_add_transition_marginal_constraints`, with the continuous variables of the compact formulation. */
  ghost predicate TransitionRows(fp: FlowProblem, links: set<(WorkerId, WorkerId)>, cut: int, p: Point)
  {
    && (forall s, w :: s in fp.workers && w in fp.workers && Arc(links, s, w) ==>
          0.0 <= p(AdjacentWorkers(fp.flow, cut, s, w)) <= 1.0)
    && (forall s :: s in fp.workers ==>
          SumOver(fp.workers, TransitionsFrom(fp, links, cut, s, p)) <= p(ComponentWorker(fp.flow, cut, s)))
    && (forall w :: w in fp.workers ==>
          SumOver(fp.workers, TransitionsTo(fp, links, cut, w, p)) == p(ComponentWorker(fp.flow, cut + 1, w)))
  }

  method AddTransitionMarginalConstraints(
    m: Model, fp: FlowProblem, links: set<(WorkerId, WorkerId)>, cut: int, ghost p: Point)
    modifies m
    ensures m.Sat(p) && (forall s, w :: s in fp.workers && w in fp.workers && Arc(links, s, w) ==>
                           0.0 <= p(AdjacentWorkers(fp.flow, cut, s, w)) <= 1.0)
       <==> (old(m.Sat(p)) && TransitionRows(fp, links, cut, p))
  {
    for i := 0 to |fp.workers|
      invariant m.Sat(p) <==> (
                  && old(m.Sat(p))
                  && forall s :: s in fp.workers[..i] ==>
                       SumOver(fp.workers, TransitionsFrom(fp, links, cut, s, p)) <= p(ComponentWorker(fp.flow, cut, s)))
    {
      var s := fp.workers[i];
      m.AddConstr(
        (q: Point) => SumOver(fp.workers, TransitionsFrom(fp, links, cut, s, q)) <= q(ComponentWorker(fp.flow, cut, s)), p);
      assert fp.workers[..i + 1] == fp.workers[..i] + [s];
    }
    assert fp.workers[..|fp.workers|] == fp.workers;
    label Sources:
    for i := 0 to |fp.workers|
      invariant m.Sat(p) <==> (
                  && old@Sources(m.Sat(p))
                  && forall w :: w in fp.workers[..i] ==>
                       SumOver(fp.workers, TransitionsTo(fp, links, cut, w, p)) == p(ComponentWorker(fp.flow, cut + 1, w)))
    {
      var w := fp.workers[i];
      m.AddConstr(
        (q: Point) =>
          SumOver(fp.workers, TransitionsTo(fp, links, cut, w, q)) == q(ComponentWorker(fp.flow, cut + 1, w)), p);
      assert fp.workers[..i + 1] == fp.workers[..i] + [w];
    }
    assert fp.workers[..|fp.workers|] == fp.workers;
  }

  /** Each transition variable is the product of the two placements. */
  ghost predicate TransitionIsProduct(
    fp: FlowProblem, links: set<(WorkerId, WorkerId)>, cut: int, pl: Placement, p: Point)
  {
    forall s, w :: s in fp.workers && w in fp.workers && Arc(links, s, w) ==>
      p(AdjacentWorkers(fp.flow, cut, s, w))
      == Indicator(cut < pl.last && s == pl.workerOf(cut) && w == pl.workerOf(cut + 1))
  }

  /** The marginals hold exactly when the used link exists and the variables are the products. */
  lemma TransitionsExact(fp: FlowProblem, links: set<(WorkerId, WorkerId)>, cut: int, pl: Placement, p: Point)
    requires WellFormed(fp) && Valid(fp, pl) && Encodes(fp, p, pl) && 1 <= cut < fp.maxComponents
    ensures TransitionRows(fp, links, cut, p)
       <==> (&& TransitionIsProduct(fp, links, cut, pl, p)
             && (cut < pl.last ==> (pl.workerOf(cut), pl.workerOf(cut + 1)) in links))
  {
    assert EncodesWorkers(fp, p, pl, cut) && EncodesWorkers(fp, p, pl, cut + 1);
    if TransitionRows(fp, links, cut, p) {
      MarginalsForceProduct(fp, links, cut, pl, p);
    }
    if TransitionIsProduct(fp, links, cut, pl, p)
       && (cut < pl.last ==> (pl.workerOf(cut), pl.workerOf(cut + 1)) in links)
    {
      ProductHasMarginals(fp, links, cut, pl, p);
    }
  }

  lemma MarginalsForceProduct(fp: FlowProblem, links: set<(WorkerId, WorkerId)>, cut: int, pl: Placement, p: Point)
    requires WellFormed(fp) && Valid(fp, pl) && 1 <= cut < fp.maxComponents
    requires EncodesWorkers(fp, p, pl, cut) && EncodesWorkers(fp, p, pl, cut + 1)
    requires TransitionRows(fp, links, cut, p)
    ensures TransitionIsProduct(fp, links, cut, pl, p)
    ensures cut < pl.last ==> (pl.workerOf(cut), pl.workerOf(cut + 1)) in links
  {
    var a, b := pl.workerOf(cut), pl.workerOf(cut + 1);
    forall s, w | s in fp.workers && w in fp.workers && Arc(links, s, w)
                  && !(cut < pl.last && s == a && w == b)
      ensures p(AdjacentWorkers(fp.flow, cut, s, w)) == 0.0
    {
      forall x | x in fp.workers ensures 0.0 <= TransitionsFrom(fp, links, cut, s, p)(x) { }
      forall x | x in fp.workers ensures 0.0 <= TransitionsTo(fp, links, cut, w, p)(x) { }
      TermAtMostSum(fp.workers, TransitionsFrom(fp, links, cut, s, p), w);
      TermAtMostSum(fp.workers, TransitionsTo(fp, links, cut, w, p), s);
    }
    if cut < pl.last {
      forall s | s in fp.workers && s != a ensures TransitionsTo(fp, links, cut, b, p)(s) == 0.0 { }
      SumSingle(fp.workers, TransitionsTo(fp, links, cut, b, p), a);
      assert Arc(links, a, b);
    }
  }

  lemma ProductHasMarginals(fp: FlowProblem, links: set<(WorkerId, WorkerId)>, cut: int, pl: Placement, p: Point)
    requires WellFormed(fp) && Valid(fp, pl) && 1 <= cut < fp.maxComponents
    requires EncodesWorkers(fp, p, pl, cut) && EncodesWorkers(fp, p, pl, cut + 1)
    requires TransitionIsProduct(fp, links, cut, pl, p)
    requires cut < pl.last ==> (pl.workerOf(cut), pl.workerOf(cut + 1)) in links
    ensures TransitionRows(fp, links, cut, p)
  {
    var a, b := pl.workerOf(cut), pl.workerOf(cut + 1);
    forall s | s in fp.workers
      ensures SumOver(fp.workers, TransitionsFrom(fp, links, cut, s, p)) <= p(ComponentWorker(fp.flow, cut, s))
    {
      var f := TransitionsFrom(fp, links, cut, s, p);
      if cut < pl.last && s == a {
        SumSingle(fp.workers, f, b);
      } else {
        SumZero(fp.workers, f);
      }
    }
    forall w | w in fp.workers
      ensures SumOver(fp.workers, TransitionsTo(fp, links, cut, w, p)) == p(ComponentWorker(fp.flow, cut + 1, w))
    {
      var f := TransitionsTo(fp, links, cut, w, p);
      if cut < pl.last && w == b {
        SumSingle(fp.workers, f, a);
      } else {
        SumZero(fp.workers, f);
      }
    }
  }
}
