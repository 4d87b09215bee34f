/** The largest cut of a model: pulp_max_cut_size_computer.py. */
module MaxCut {
  import opened Lp
  import opened Sums
  import opened ModelTopology
  import opened Assignment
  import opened Structure
  import TensorCrossing
  import T = Transmission

  // ----- the rows

  function Producers(t: Topology, x: TensorKey): set<LayerKey>
  {
    set e | e in t.edges && x in e.tensors :: e.source
  }

  function ConsumerList(t: Topology, x: TensorKey): seq<LayerKey>
  {
    TensorCrossing.InOrder(t.order, Consumers(t.edges, x))
  }

  function After(p: Point): LayerKey -> real
  {
    l => 1.0 - p(LayerBefore(l))
  }

  predicate EdgeRow(e: Edge, p: Point)
  {
    p(LayerBefore(e.target)) <= p(LayerBefore(e.source))
  }

  predicate TensorRows(t: Topology, x: TensorKey, p: Point)
    requires x in RoutedTensors(t.edges)
  {
    && p(TensorCut(x)) <= p(LayerBefore(Producer(t.edges, x)))
    && p(TensorCut(x)) <= SumOver(ConsumerList(t, x), After(p))
  }

  predicate OneProducer(t: Topology, x: TensorKey)
  {
    exists l :: l in Producers(t, x) && Producers(t, x) == {l}
  }

  lemma {:induction false} OneProducerIs(t: Topology, x: TensorKey)
    requires OneProducer(t, x)
    ensures x in RoutedTensors(t.edges) && Producers(t, x) == {Producer(t.edges, x)}
  {
    var l :| l in Producers(t, x) && Producers(t, x) == {l};
    assert x in RoutedTensors(t.edges);
    assert Producer(t.edges, x) in Producers(t, x);
  }

  ghost predicate CutRows(t: Topology, tensors: seq<TensorKey>, p: Point)
  {
    && (forall e :: e in t.edges ==> EdgeRow(e, p))
    && (forall x :: x in tensors ==> x in RoutedTensors(t.edges) && TensorRows(t, x, p))
  }

  /** Variable bounds; the layer variables are binary in the integer program and continuous in its relaxation. */
  ghost predicate Bounds(t: Topology, tensors: seq<TensorKey>, integral: bool, p: Point)
  {
    && (forall l :: l in t.order ==> 0.0 <= p(LayerBefore(l)) <= 1.0)
    && (integral ==> forall l :: l in t.order ==> IsBinary(p(LayerBefore(l))))
    && (forall x :: x in tensors ==> 0.0 <= p(TensorCut(x)) <= 1.0)
  }

  ghost predicate Feasible(t: Topology, tensors: seq<TensorKey>, integral: bool, p: Point)
  {
    CutRows(t, tensors, p) && Bounds(t, tensors, integral, p)
  }

  function CutTerm(size: TensorKey -> real, p: Point): TensorKey -> real
  {
    x => size(x) * p(TensorCut(x))
  }

  function Objective(tensors: seq<TensorKey>, size: TensorKey -> real, p: Point): real
  {
    SumOver(tensors, CutTerm(size, p))
  }

  /** `_build_cut_problem`; it fails when a tensor does not have exactly one producer. */
  method BuildCutProblem(m: Model, t: Topology, tensors: seq<TensorKey>, size: TensorKey -> real, ghost p: Point)
    returns (r: Result<real>)
    modifies m
    ensures r.Ok? <==> forall x :: x in tensors ==> OneProducer(t, x)
    ensures r.Ok? ==> r.value == SumOver(tensors, size) && (m.Sat(p) <==> (old(m.Sat(p)) && CutRows(t, tensors, p)))
  {
    hide TensorRows, OneProducer;
    for i := 0 to |t.edges|
      invariant m.Sat(p) <==> (old(m.Sat(p)) && forall e :: e in t.edges[..i] ==> EdgeRow(e, p))
    {
      var e := t.edges[i];
      m.AddConstr((q: Point) => EdgeRow(e, q), p);
      assert t.edges[..i + 1] == t.edges[..i] + [e];
    }
    assert t.edges[..|t.edges|] == t.edges;
    label Edges:
    for i := 0 to |tensors|
      invariant forall x :: x in tensors[..i] ==> OneProducer(t, x) && x in RoutedTensors(t.edges)
      invariant m.Sat(p) <==> (old@Edges(m.Sat(p)) && forall x :: x in tensors[..i] ==> TensorRows(t, x, p))
    {
      var x := tensors[i];
      if !OneProducer(t, x) {
        return Err("The tensor does not have one producer");
      }
      OneProducerIs(t, x);
      m.AddConstr((q: Point) => x in RoutedTensors(t.edges) && TensorRows(t, x, q), p);
      assert tensors[..i + 1] == tensors[..i] + [x];
    }
    assert tensors[..|tensors|] == tensors;
    r := Ok(SumOver(tensors, size));
  }

  // ----- the solver and the chain of fallbacks

  /** What one call of the solver gives: an exception, a status other than optimal, or an optimum. */
  datatype SolverOutcome = Raised | NotOptimal | Optimum(objective: real)

  /** The first optimum of the integer program, then of its relaxation, then the total of all sizes. */
  method SolveCutProblem(integerOutcome: SolverOutcome, relaxedOutcome: SolverOutcome, fallback: real)
    returns (value: real)
    ensures value == if integerOutcome.Optimum? then integerOutcome.objective
                     else if relaxedOutcome.Optimum? then relaxedOutcome.objective else fallback
  {
    for i := 0 to 2
      invariant i >= 1 ==> !integerOutcome.Optimum?
      invariant i >= 2 ==> !relaxedOutcome.Optimum?
    {
      var solved := if i == 0 then integerOutcome else relaxedOutcome;
      if solved.Optimum? {
        return solved.objective;
      }
    }
    value := fallback;
  }

  /** The assumption on the solver: an optimum is attained and not exceeded. */
  ghost predicate IsOptimum(t: Topology, tensors: seq<TensorKey>, size: TensorKey -> real, integral: bool, value: real)
  {
    && (exists p :: Feasible(t, tensors, integral, p) && Objective(tensors, size, p) == value)
    && (forall p :: Feasible(t, tensors, integral, p) ==> Objective(tensors, size, p) <= value)
  }

  ghost predicate TrueOutcome(
    t: Topology, tensors: seq<TensorKey>, size: TensorKey -> real, integral: bool, outcome: SolverOutcome)
  {
    outcome.Optimum? ==> IsOptimum(t, tensors, size, integral, outcome.objective)
  }

  // ----- cuts as sets of layers

  ghost predicate DownwardClosed(t: Topology, before: set<LayerKey>)
  {
    forall e :: e in t.edges && e.target in before ==> e.source in before
  }

  /** The tensor is produced before the cut and still needed after it. */
  ghost predicate CutBy(t: Topology, before: set<LayerKey>, x: TensorKey)
    requires x in RoutedTensors(t.edges)
  {
    Producer(t.edges, x) in before && exists c :: c in Consumers(t.edges, x) && c !in before
  }

  ghost function CutSize(t: Topology, size: TensorKey -> real, before: set<LayerKey>): TensorKey -> real
  {
    x => if x in RoutedTensors(t.edges) && CutBy(t, before, x) then size(x) else 0.0
  }

  ghost function Volume(t: Topology, tensors: seq<TensorKey>, size: TensorKey -> real, before: set<LayerKey>): real
  {
    SumOver(tensors, CutSize(t, size, before))
  }

  ghost predicate Instance(t: Topology, tensors: seq<TensorKey>, size: TensorKey -> real)
  {
    && Acyclic(t) && SingleSource(t.edges) && (forall x :: size(x) >= 0.0)
    && (forall x :: x in tensors ==> x in RoutedTensors(t.edges))
  }

  /** The point that a set of layers stands for. */
  ghost function PointOf(t: Topology, before: set<LayerKey>): Point
  {
    (v: Var) => match v
         case LayerBefore(l) => Indicator(l in before)
         case TensorCut(x) => Indicator(x in RoutedTensors(t.edges) && CutBy(t, before, x))
         case _ => 0.0
  }

  /** Every downward-closed set of layers is a feasible point, in both programs, with its volume as objective. */
  lemma ClosedSetFeasible(t: Topology, tensors: seq<TensorKey>, size: TensorKey -> real, integral: bool,
                          before: set<LayerKey>)
    requires Instance(t, tensors, size) && DownwardClosed(t, before)
    ensures Feasible(t, tensors, integral, PointOf(t, before))
    ensures Objective(tensors, size, PointOf(t, before)) == Volume(t, tensors, size, before)
  {
    hide Acyclic, SingleSource, RoutedTensors, TensorRows, PointOf, EdgeRow;
    var p := PointOf(t, before);
    PointWithinBounds(t, before);
    forall e | e in t.edges ensures EdgeRow(e, p) {
      ClosedEdge(t, before, e);
    }
    forall x | x in tensors ensures TensorRows(t, x, p) {
      CutTensorFeasible(t, before, x);
    }
    forall x | x in tensors ensures CutTerm(size, p)(x) == CutSize(t, size, before)(x) {
      CutSizeOfPoint(t, size, before, x);
    }
    SumCongruent(tensors, CutTerm(size, p), CutSize(t, size, before));
  }

  lemma PointWithinBounds(t: Topology, before: set<LayerKey>)
    ensures forall l :: IsBinary(PointOf(t, before)(LayerBefore(l)))
    ensures forall x :: IsBinary(PointOf(t, before)(TensorCut(x)))
  {
    hide CutBy, RoutedTensors;
  }

  lemma ClosedEdge(t: Topology, before: set<LayerKey>, e: Edge)
    requires DownwardClosed(t, before) && e in t.edges
    ensures EdgeRow(e, PointOf(t, before))
  {
    hide CutBy, RoutedTensors;
  }

  lemma CutSizeOfPoint(t: Topology, size: TensorKey -> real, before: set<LayerKey>, x: TensorKey)
    requires x in RoutedTensors(t.edges)
    ensures CutTerm(size, PointOf(t, before))(x) == CutSize(t, size, before)(x)
  {
    hide CutBy, RoutedTensors;
    T.SizeOfIndicator(size(x), PointOf(t, before)(TensorCut(x)), CutBy(t, before, x));
  }

  lemma CutTensorFeasible(t: Topology, before: set<LayerKey>, x: TensorKey)
    requires Acyclic(t) && SingleSource(t.edges) && x in RoutedTensors(t.edges)
    ensures TensorRows(t, x, PointOf(t, before))
  {
    hide Acyclic, SingleSource, RoutedTensors, Producer, Consumers, ConsumerList, SumOver, After;
    ConsumersAfter(t, before, x);
  }

  lemma ConsumersAfter(t: Topology, before: set<LayerKey>, x: TensorKey)
    requires Acyclic(t) && SingleSource(t.edges) && x in RoutedTensors(t.edges)
    ensures SumOver(ConsumerList(t, x), After(PointOf(t, before))) >= Indicator(CutBy(t, before, x))
  {
    hide Acyclic, SingleSource, RoutedTensors, Producer, Consumers, SumOver;
    var p, consumers := PointOf(t, before), ConsumerList(t, x);
    forall c | c in consumers ensures After(p)(c) >= 0.0 { }
    SumNonNegative(consumers, After(p));
    if CutBy(t, before, x) {
      var c :| c in Consumers(t.edges, x) && c !in before;
      TensorCrossing.ConsumerEdge(t, x, c);
      TermAtMostSum(consumers, After(p), c);
    }
  }

  ghost function BeforeOf(t: Topology, p: Point): set<LayerKey>
  {
    set l | l in t.order && p(LayerBefore(l)) == 1.0
  }

  /** An integral point is a downward-closed set whose volume is at least the objective. */
  lemma IntegralPointIsClosedSet(t: Topology, tensors: seq<TensorKey>, size: TensorKey -> real, p: Point)
    requires Instance(t, tensors, size) && Feasible(t, tensors, true, p)
    ensures DownwardClosed(t, BeforeOf(t, p))
    ensures Objective(tensors, size, p) <= Volume(t, tensors, size, BeforeOf(t, p))
  {
    hide SingleSource, CutBy, Consumers, RoutedTensors, Producer, TensorRows;
    var before := BeforeOf(t, p);
    forall e | e in t.edges && e.target in before ensures e.source in before {
      assert EdgeRow(e, p);
    }
    hide Acyclic;
    forall x | x in tensors ensures CutTerm(size, p)(x) <= CutSize(t, size, before)(x) {
      CutTermBound(t, tensors, size, p, x);
    }
    SumMonotone(tensors, CutTerm(size, p), CutSize(t, size, before));
  }

  lemma WeightBelow(size: real, cut: real)
    requires size >= 0.0 && cut <= 1.0
    ensures size * cut <= size
  {
  }

  lemma CutTermBound(t: Topology, tensors: seq<TensorKey>, size: TensorKey -> real, p: Point, x: TensorKey)
    requires Instance(t, tensors, size) && Feasible(t, tensors, true, p) && x in tensors
    ensures CutTerm(size, p)(x) <= CutSize(t, size, BeforeOf(t, p))(x)
  {
    hide Acyclic, SingleSource, Consumers, RoutedTensors, Producer, CutBy, BeforeOf, Instance, Feasible;
    TensorDomain(t, tensors, size, p, x);
    if CutBy(t, BeforeOf(t, p), x) {
      WeightBelow(size(x), p(TensorCut(x)));
    } else {
      UncutIsZero(t, tensors, size, p, x);
    }
  }

  lemma TensorDomain(t: Topology, tensors: seq<TensorKey>, size: TensorKey -> real, p: Point, x: TensorKey)
    requires Instance(t, tensors, size) && Feasible(t, tensors, true, p) && x in tensors
    ensures x in RoutedTensors(t.edges) && size(x) >= 0.0 && p(TensorCut(x)) <= 1.0
  {
    hide Acyclic, SingleSource, RoutedTensors, TensorRows, EdgeRow;
  }

  lemma UncutIsZero(t: Topology, tensors: seq<TensorKey>, size: TensorKey -> real, p: Point, x: TensorKey)
    requires Instance(t, tensors, size) && Feasible(t, tensors, true, p) && x in tensors
    requires x in RoutedTensors(t.edges) && !CutBy(t, BeforeOf(t, p), x)
    ensures p(TensorCut(x)) == 0.0
  {
    hide Acyclic, SingleSource, Consumers, RoutedTensors, Producer;
    var before, producer := BeforeOf(t, p), Producer(t.edges, x);
    assert TensorRows(t, x, p);
    ProducerKnown(t, x);
    if producer in before {
      forall c | c in ConsumerList(t, x) ensures After(p)(c) == 0.0 {
        assert c in before;
      }
      SumZero(ConsumerList(t, x), After(p));
    }
  }

  lemma {:induction false} ProducerKnown(t: Topology, x: TensorKey)
    requires Acyclic(t) && x in RoutedTensors(t.edges)
    ensures Producer(t.edges, x) in t.order
  {
  }

  /** The optimum of the integer program is the largest volume over all downward-closed sets of layers. */
  lemma IntegerOptimumIsMaximum(t: Topology, tensors: seq<TensorKey>, size: TensorKey -> real, value: real)
    requires Instance(t, tensors, size) && IsOptimum(t, tensors, size, true, value)
    ensures exists before :: DownwardClosed(t, before) && Volume(t, tensors, size, before) == value
    ensures forall before :: DownwardClosed(t, before) ==> Volume(t, tensors, size, before) <= value
  {
    hide Instance, Feasible, DownwardClosed, Volume, Objective;
    forall before | DownwardClosed(t, before) ensures Volume(t, tensors, size, before) <= value {
      ClosedSetFeasible(t, tensors, size, true, before);
    }
    var p :| Feasible(t, tensors, true, p) && Objective(tensors, size, p) == value;
    IntegralPointIsClosedSet(t, tensors, size, p);
  }

  /** Every exit of the fallback chain is at least the volume of every downward-closed cut. */
  lemma {:induction false} ExitCoversCut(
    t: Topology, tensors: seq<TensorKey>, size: TensorKey -> real, integerOutcome: SolverOutcome,
    relaxedOutcome: SolverOutcome, value: real, before: set<LayerKey>)
    requires Instance(t, tensors, size) && DownwardClosed(t, before)
    requires TrueOutcome(t, tensors, size, true, integerOutcome) && TrueOutcome(t, tensors, size, false, relaxedOutcome)
    requires value == if integerOutcome.Optimum? then integerOutcome.objective
                      else if relaxedOutcome.Optimum? then relaxedOutcome.objective else SumOver(tensors, size)
    ensures Volume(t, tensors, size, before) <= value
  {
    hide Feasible, DownwardClosed, Objective, Acyclic, SingleSource;
    ClosedSetFeasible(t, tensors, size, true, before);
    ClosedSetFeasible(t, tensors, size, false, before);
    SumMonotone(tensors, CutSize(t, size, before), size);
  }

  // ----- cuts of placements

  ghost function UpTo(t: Topology, pl: Placement, cut: int): set<LayerKey>
  {
    set l | l in t.order && pl.componentOf(l) <= cut
  }

  /**
   The bound that the optimisation model takes from the profile: whichever way the computation ends, no cut
   of any placement that respects precedence moves more than the computed value.
   */
  lemma ProfiledMaximumCovers(
    fp: FlowProblem, d: T.LinkData, pl: Placement, v: ModelVariantId, cut: int, size: TensorKey -> real,
    integerOutcome: SolverOutcome, relaxedOutcome: SolverOutcome, value: real)
    requires WellFormed(fp) && Valid(fp, pl) && v == pl.variant && T.TensorsListed(fp, d, v)
    requires forall x :: size(x) == d.size(v, x) && size(x) >= 0.0
    requires var t, tensors := fp.topologyOf(v), d.tensorsOf(v);
             TrueOutcome(t, tensors, size, true, integerOutcome) && TrueOutcome(t, tensors, size, false, relaxedOutcome)
    requires value == if integerOutcome.Optimum? then integerOutcome.objective
                      else if relaxedOutcome.Optimum? then relaxedOutcome.objective else SumOver(d.tensorsOf(v), size)
    ensures T.CutVolume(fp, d, pl, v, cut) <= value
  {
    hide Acyclic, SingleSource, RoutedTensors, Producer, TrueOutcome, Populated;
    var t, tensors := fp.topologyOf(v), d.tensorsOf(v);
    var before := UpTo(t, pl, cut);
    assert DownwardClosed(t, before) by { PlacementCutClosed(fp, pl, cut); }
    ExitCoversCut(t, tensors, size, integerOutcome, relaxedOutcome, value, before);
    forall x | x in tensors ensures T.CrossingSize(fp, d, pl, v, cut)(x) == CutSize(t, size, before)(x) {
      CrossingIsCut(fp, pl, x, cut);
    }
    SumCongruent(tensors, T.CrossingSize(fp, d, pl, v, cut), CutSize(t, size, before));
  }

  lemma PlacementCutClosed(fp: FlowProblem, pl: Placement, cut: int)
    requires WellFormed(fp) && Valid(fp, pl)
    ensures DownwardClosed(fp.topologyOf(pl.variant), UpTo(fp.topologyOf(pl.variant), pl, cut))
  {
    assert WellFormedTopology(fp.topologyOf(pl.variant));
  }

  lemma CrossingIsCut(fp: FlowProblem, pl: Placement, x: TensorKey, cut: int)
    requires Valid(fp, pl) && Acyclic(fp.topologyOf(pl.variant)) && SingleSource(fp.topologyOf(pl.variant).edges)
    requires x in RoutedTensors(fp.topologyOf(pl.variant).edges)
    ensures var t := fp.topologyOf(pl.variant);
            TensorCrossing.Crosses(t, pl, x, cut) <==> CutBy(t, UpTo(t, pl, cut), x)
  {
    hide Acyclic, SingleSource, RoutedTensors, Producer, Consumers;
    var t := fp.topologyOf(pl.variant);
    ProducerKnown(t, x);
    forall c | c in Consumers(t.edges, x) ensures c in t.order {
      TensorCrossing.ConsumerEdge(t, x, c);
    }
  }
}
