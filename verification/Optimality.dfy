/**
 What the solver's answer is worth: the rows admit exactly the possible placements, and a placement that is optimal for
 the rows is, in the queueing model, within the relative error of the best one.
 */
module Optimality {
  import opened Lp
  import opened Sums
  import opened BinLimits
  import opened Assignment
  import opened Structure
  import opened TensorCrossing
  import opened ExecutionQueue
  import opened ResponseTime
  import opened ResponseMeaning
  import opened ResponseOptimal
  import B = BigM
  import H = Memory
  import N = NetworkQueue
  import NB = NetworkBounds
  import P = PlacedWaits
  import R = RealPlacements
  import T = Transmission
  import X = NetworkMeaning
  import Y = NetworkPoints
  import Z = PlacementPoints

  // ----- the response time at the point of a possible placement

  lemma {:induction false} SumAtMostTimes(keys: seq<int>, e: real, g: int -> real, h: int -> real)
    requires forall k :: k in keys ==> AtMostTimes(g(k), e, h(k))
    ensures AtMostTimes(SumOver(keys, g), e, SumOver(keys, h))
  {
    forall k | k in keys ensures g(k) <= Scaled(1.0 + e, h)(k) { }
    SumMonotone(keys, g, Scaled(1.0 + e, h));
    SumScaled(keys, 1.0 + e, h);
  }

  /** The fixed part, and 1 + e times the part that queueing adds. */
  ghost function Bound(u: Setup, e: real, f: FlowId): real
  {
    FixedPart(u, f) + (1.0 + e) * QueueingPart(u, f)
  }

  lemma AddTimes(a: real, b: real, e: real, x: real, y: real)
    requires AtMostTimes(a, e, x) && AtMostTimes(b, e, y)
    ensures a + b <= (1.0 + e) * (x + y)
  {
  }

  lemma ResponseShown(u: Setup, e: real, f: FlowId, p: Point)
    requires Shown(u, e, p) && f in u.s.cp.flows
    ensures Response(R.ProblemOf(u.s, f), u.q, LinksOf(u))(p) <= Bound(u, e, f)
  {
    hide Shown, BatchTerm, VariantTime, WaitTerm, SendTerm, DelayTerm, StageTime, StageWait, StageSending, StageDelay;
    hide SumOver, AtMostTimes;
    var fp := R.ProblemOf(u.s, f);
    BatchShown(u, e, f, p);
    ExecutionShown(u, e, f, p);
    forall k | k in Components(u) ensures AtMostTimes(WaitTerm(fp, p)(k), e, StageWait(u, f)(k)) { WaitShown(u, e, f, k, p); }
    SumAtMostTimes(Components(u), e, WaitTerm(fp, p), StageWait(u, f));
    forall cut | cut in Cuts(u) ensures AtMostTimes(SendTerm(fp, p)(cut), e, StageSending(u, f)(cut)) {
      SendShown(u, e, f, cut, p);
    }
    SumAtMostTimes(Cuts(u), e, SendTerm(fp, p), StageSending(u, f));
    AddTimes(SumOver(Components(u), WaitTerm(fp, p)), SumOver(Cuts(u), SendTerm(fp, p)), e,
             SumOver(Components(u), StageWait(u, f)), SumOver(Cuts(u), StageSending(u, f)));
    forall cut | cut in Cuts(u) ensures DelayTerm(fp, u.q, LinksOf(u), p)(cut) == StageDelay(u, f)(cut) {
      DelayShown(u, e, f, cut, p);
    }
    SumCongruent(Cuts(u), DelayTerm(fp, u.q, LinksOf(u), p), StageDelay(u, f));
  }

  lemma BatchShown(u: Setup, e: real, f: FlowId, p: Point)
    requires Shown(u, e, p) && f in u.s.cp.flows
    ensures SumOver(u.s.cp.modelsByFlow(f), BatchTerm(R.ProblemOf(u.s, f), u.q, p))
         == u.q.batchFill(f, u.s.placementOf(f).variant)
  {
    hide Built, Possible, OtherValue, P.ComputeRows, P.FlowPlaced, R.WorkerAdmitted, P.AllTimesAre, R.WaitsInItsQueue;
    assert P.FlowPlaced(u.s, f, p);
    FlowFacts(u, f, p);
    BatchAt(u, f, p);
  }

  lemma DelayShown(u: Setup, e: real, f: FlowId, cut: int, p: Point)
    requires Shown(u, e, p) && f in u.s.cp.flows && 1 <= cut < u.s.cp.maxComponents
    ensures DelayTerm(R.ProblemOf(u.s, f), u.q, LinksOf(u), p)(cut) == StageDelay(u, f)(cut)
  {
    hide Built, Possible, OtherValue, P.ComputeRows, P.FlowPlaced, R.WorkerAdmitted, P.AllTimesAre, R.WaitsInItsQueue;
    hide DelayTerm, StageDelay;
    assert P.FlowPlaced(u.s, f, p);
    FlowFacts(u, f, p);
    TransitionsShown(u, e, f, cut, p);
    DelayAt(u, f, cut, p);
  }

  // ----- a point with its own response times

  ghost predicate SameButResponse(p: Point, q: Point)
  {
    forall x: Var :: !x.ResponseTime? ==> p(x) == q(x)
  }

  lemma SameTimes(fp: FlowProblem, v: ModelVariantId, k: int, p: Point, q: Point)
    requires SameButResponse(p, q)
    ensures ComponentTime(fp, v, p)(k) == ComponentTime(fp, v, q)(k)
  {
    SumCongruent(fp.workers, B.TimeVar(fp, v, k, p), B.TimeVar(fp, v, k, q));
  }

  lemma SameDelay(fp: FlowProblem, d: QosData, links: Links, cut: int, p: Point, q: Point)
    requires SameButResponse(p, q)
    ensures DelayTerm(fp, d, links, p)(cut) == DelayTerm(fp, d, links, q)(cut)
  {
    hide Delay;
    forall s | s in fp.workers ensures SourceDelay(fp, d, links, cut, p)(s) == SourceDelay(fp, d, links, cut, q)(s) {
      SumCongruent(fp.workers, LinkDelay(fp, d, links, cut, s, p), LinkDelay(fp, d, links, cut, s, q));
    }
    SumCongruent(fp.workers, SourceDelay(fp, d, links, cut, p), SourceDelay(fp, d, links, cut, q));
  }

  /** The response is a function of the other variables. */
  lemma SameResponse(fp: FlowProblem, d: QosData, links: Links, p: Point, q: Point)
    requires SameButResponse(p, q)
    ensures Response(fp, d, links)(p) == Response(fp, d, links)(q)
  {
    hide ComponentTime, DelayTerm, SumOver;
    var components, cuts := Range(1, fp.maxComponents + 1), Range(1, fp.maxComponents);
    SumCongruent(fp.variants, BatchTerm(fp, d, p), BatchTerm(fp, d, q));
    forall v ensures VariantTime(fp, p)(v) == VariantTime(fp, q)(v) {
      forall k ensures ComponentTime(fp, v, p)(k) == ComponentTime(fp, v, q)(k) { SameTimes(fp, v, k, p, q); }
      SumCongruent(components, ComponentTime(fp, v, p), ComponentTime(fp, v, q));
    }
    SumCongruent(fp.variants, VariantTime(fp, p), VariantTime(fp, q));
    SumCongruent(components, WaitTerm(fp, p), WaitTerm(fp, q));
    SumCongruent(cuts, SendTerm(fp, p), SendTerm(fp, q));
    forall cut ensures DelayTerm(fp, d, links, p)(cut) == DelayTerm(fp, d, links, q)(cut) { SameDelay(fp, d, links, cut, p, q); }
    SumCongruent(cuts, DelayTerm(fp, d, links, p), DelayTerm(fp, d, links, q));
  }

  ghost function Others(u: Setup): Point
  {
    x => OtherValue(u, x)
  }

  /** The other variables, with the response times of the point p. */
  ghost function WithResponses(u: Setup, p: Point): Point
  {
    (x: Var) => if x.ResponseTime? then Response(R.ProblemOf(u.s, x.flow), u.q, LinksOf(u))(p) else OtherValue(u, x)
  }

  lemma PointWithOthers(u: Setup, e: real, z: Point) returns (p: Point)
    requires Built(u, e) && Possible(u) && forall x: Var :: !x.ResponseTime? ==> z(x) == OtherValue(u, x)
    ensures Shown(u, e, p) && p == R.RealPoint(u.s, z)
  {
    hide R.WellPosed, X.WellBuilt, R.Real, Linked, Y.AllUplinksFit, FitsMemory, FlowMatches, OtherValue, R.RealPoint, P.IsReal;
    p := P.RealIsPlaced(u.s, e, z);
    forall x | R.IsOther(x) ensures p(x) == z(x) { R.OthersKept(u.s, x, z); }
  }

  lemma PointsDiffer(u: Setup, y: Point, z: Point)
    requires forall x: Var :: !x.ResponseTime? ==> y(x) == z(x)
    ensures SameButResponse(R.RealPoint(u.s, y), R.RealPoint(u.s, z))
  {
    hide R.RealValue;
  }

  lemma ResponsesSet(u: Setup, p: Point, f: FlowId)
    ensures R.RealPoint(u.s, WithResponses(u, p))(Var.ResponseTime(f)) == Response(R.ProblemOf(u.s, f), u.q, LinksOf(u))(p)
  {
    hide R.RealValue, OtherValue, Response;
    R.OthersKept(u.s, Var.ResponseTime(f), WithResponses(u, p));
  }

  /** A possible placement has a point whose response times are what the response rows say. */
  lemma PossibleIsShown(u: Setup, e: real) returns (p: Point)
    requires Built(u, e) && Possible(u)
    ensures Shown(u, e, p) && forall f :: ResponseRow(R.ProblemOf(u.s, f), u.q, LinksOf(u), p)
  {
    hide Built, Possible, OtherValue, R.RealPoint, Response, Shown, SameButResponse;
    var start := PointWithOthers(u, e, Others(u));
    p := PointWithOthers(u, e, WithResponses(u, start));
    PointsDiffer(u, Others(u), WithResponses(u, start));
    forall f ensures ResponseRow(R.ProblemOf(u.s, f), u.q, LinksOf(u), p) {
      SameResponse(R.ProblemOf(u.s, f), u.q, LinksOf(u), start, p);
      ResponsesSet(u, start, f);
    }
  }

  // ----- the points of the formulation

  lemma ShownNetwork(u: Setup, e: real, p: Point)
    requires Shown(u, e, p)
    ensures N.UsableLimits(u.n.problem.binLimits) && Y.NetworkAdmitted(u.n, p)
  {
    hide R.WellPosed, R.Real, Linked, FitsMemory, OtherValue, P.IsReal, FlowMatches, Y.NetworkAdmitted, Y.RespondsTightly;
    hide X.FlowMatches, GeometricGrid;
    RealNetwork(u, e, p);
    Y.FittingHolds(u.n, e, p, p);
  }

  /**
   Every possible placement whose bounds meet the requirements has a point of the formulation, and there the response
   time of each flow is within its bound.
   */
  lemma PossibleHasPoint(u: Setup, e: real, required: bool) returns (p: Point)
    requires Built(u, e) && Possible(u)
    requires required ==> forall f :: f in u.s.cp.flows ==> Bound(u, e, f) <= u.q.required(f)
    ensures AtRows(u, e, required, p)
    ensures forall f :: f in u.s.cp.flows ==> p(Var.ResponseTime(f)) <= Bound(u, e, f)
  {
    hide Built, Possible, OtherValue, R.RealPoint, Response, Bound, P.ComputeRows, P.Placed, Y.NetworkAdmitted, MemoryRows;
    hide SendingRows, R.WorkerAdmitted, P.AllTimesAre, R.WaitsInItsQueue;
    p := PossibleIsShown(u, e);
    ShownNetwork(u, e, p);
    MemoryShown(u, e, p);
    forall f | f in u.s.cp.flows
      ensures SendingRows(u, f, p) && p(Var.ResponseTime(f)) <= Bound(u, e, f)
    {
      SendingShown(u, e, f, p);
      ResponseShown(u, e, f, p);
      assert ResponseRow(R.ProblemOf(u.s, f), u.q, LinksOf(u), p);
    }
    forall fp | fp in Problems(u) ensures FlowResponseRows(fp, u.q, LinksOf(u), required, p) {
      ProblemsAre(u, fp);
    }
  }

  /** The rows admit a placement if and only if it is possible; a requirement on the response time is not among them here. */
  lemma RowsAdmitExactlyPossible(u: Setup, e: real)
    requires Built(u, e)
    ensures (exists p :: AllRows(u, false, p) && P.Placed(u.s, p)) <==> Possible(u)
  {
    hide Built, AllRows, P.Placed, Possible, Bound;
    if exists p :: AllRows(u, false, p) && P.Placed(u.s, p) {
      var p :| AllRows(u, false, p) && P.Placed(u.s, p);
      PointIsPossible(u, e, false, p);
    }
    if Possible(u) {
      var p := PossibleHasPoint(u, e, false);
    }
  }

  // ----- the rows do not mention the placements

  /** The same problem with other placements and priorities. */
  ghost predicate SameProblem(u: Setup, v: Setup)
  {
    v == u.(s := u.s.(placementOf := v.s.placementOf, priorityOf := v.s.priorityOf),
            n := u.n.(placementOf := v.n.placementOf))
  }

  lemma SameRows(u: Setup, v: Setup, required: bool, p: Point)
    requires SameProblem(u, v) && AllRows(v, required, p)
    ensures AllRows(u, required, p)
  {
    hide P.ComputeRows, Y.NetworkAdmitted, MemoryRows, SendingRows, FlowResponseRows;
    SameComputeRows(u, v, p);
    SameNetworkRows(u, v, p);
    assert Problems(u) == Problems(v);
    SameMemoryRows(u, v, p);
    forall f | f in u.s.cp.flows ensures SendingRows(u, f, p) { SameSendingRows(u, v, f, p); }
  }

  lemma SameComputeRows(u: Setup, v: Setup, p: Point)
    requires SameProblem(u, v) && P.ComputeRows(v.s, p)
    ensures P.ComputeRows(u.s, p)
  {
    hide P.FlowRows, WorkerRows, CompactQueueRows, R.QueueBounds, ComponentWaitRows, R.ComponentBounds, ClassRows;
    forall f | f in u.s.cp.flows ensures P.FlowRows(u.s, f, p) { SameFlowRows(u, v, f, p); }
    forall w | w in u.s.cp.workers ensures P.WorkerQueueRows(u.s, w, p) { assert P.WorkerQueueRows(v.s, w, p); }
    forall f, k | f in u.s.cp.flows && 1 <= k <= u.s.cp.maxComponents ensures R.ComponentAdmitted(u.s, f, k, p) {
      assert R.ComponentAdmitted(v.s, f, k, p);
    }
  }

  lemma SameFlowRows(u: Setup, v: Setup, f: FlowId, p: Point)
    requires SameProblem(u, v) && f in u.s.cp.flows && P.FlowRows(v.s, f, p)
    ensures P.FlowRows(u.s, f, p)
  {
    hide WellFormed, Domain, StructureRows, B.AllExecutionRows;
    assert R.ProblemOf(u.s, f) == R.ProblemOf(v.s, f) && R.DataOf(u.s, f) == R.DataOf(v.s, f);
  }

  lemma SameNetworkRows(u: Setup, v: Setup, p: Point)
    requires SameProblem(u, v) && N.UsableLimits(v.n.problem.binLimits) && Y.NetworkAdmitted(v.n, p)
    ensures N.UsableLimits(u.n.problem.binLimits) && Y.NetworkAdmitted(u.n, p)
  {
    hide N.NetworkQueueRows, N.WorkerRows;
    forall w | w in u.n.problem.workers ensures X.UplinkRows(u.n, w, p) { assert X.UplinkRows(v.n, w, p); }
    forall f, cut | f in u.n.problem.flows && 1 <= cut < u.n.problem.maxComponents ensures X.ResponsesTyped(u.n, f, cut, p) {
      assert X.ResponsesTyped(v.n, f, cut, p);
    }
  }

  lemma SameMemoryRows(u: Setup, v: Setup, p: Point)
    requires SameProblem(u, v) && MemoryRows(v, p) && Problems(u) == Problems(v)
    ensures MemoryRows(u, p)
  {
    hide H.FlowRows, H.NonNegative, H.CapacityRow, Problems;
  }

  lemma SameSendingRows(u: Setup, v: Setup, f: FlowId, p: Point)
    requires SameProblem(u, v) && SendingRows(v, f, p)
    ensures SendingRows(u, f, p)
  {
    hide TransitionRows, T.TransmissionRows;
    var fp := R.ProblemOf(u.s, f);
    assert fp == R.ProblemOf(v.s, f) && LinksOf(u) == LinksOf(v);
    forall cut | 1 <= cut < fp.maxComponents ensures TransitionRows(fp, LinksOf(u), cut, p) { }
    forall m, cut | m in fp.variants && 1 <= cut < fp.maxComponents ensures T.TransmissionRows(fp, u.n.links, m, cut, p) { }
    forall m, cut, w | X.Indexes(u.n, f, m, cut, w) ensures p(TransmissionTime(f, m, cut, w)) >= 0.0 {
      assert X.Indexes(v.n, f, m, cut, w);
    }
  }

  // ----- the objectives

  /** The rows and the objective do not mention the placements: an optimum is one among the points of all placements. */
  ghost predicate Minimal(u: Setup, required: bool, objective: LinExpr, p: Point)
  {
    AllRows(u, required, p) && forall q :: AllRows(u, required, q) ==> objective(p) <= objective(q)
  }

  ghost predicate Maximal(u: Setup, required: bool, objective: LinExpr, p: Point)
  {
    AllRows(u, required, p) && forall q :: AllRows(u, required, q) ==> objective(q) <= objective(p)
  }

  /** Total over the flows of the arrival rate, which both weighted objectives divide by. */
  function TotalRate(u: Setup, rate: FlowId -> real): real { SumOver(u.s.cp.flows, rate) }

  function Weight(u: Setup, rate: FlowId -> real, f: FlowId): real
  {
    if TotalRate(u, rate) == 0.0 then 0.0 else rate(f) / TotalRate(u, rate)
  }

  function WeightedTerm(u: Setup, rate: FlowId -> real, value: FlowId -> real): FlowId -> real
  {
    f => Weight(u, rate, f) * value(f)
  }

  /** The mean of a quantity over the flows, weighted by their arrival rates. */
  function WeightedMean(u: Setup, rate: FlowId -> real, value: FlowId -> real): real
  {
    SumOver(u.s.cp.flows, WeightedTerm(u, rate, value))
  }

  function ResponseAt(p: Point): FlowId -> real
  {
    f => p(Var.ResponseTime(f))
  }

  function AccuracyTerm(u: Setup, f: FlowId, accuracy: (FlowId, ModelVariantId) -> real, p: Point): ModelVariantId -> real
  {
    m => accuracy(f, m) * p(ModelSelected(f, m))
  }

  function AccuracyAt(u: Setup, accuracy: (FlowId, ModelVariantId) -> real, p: Point): FlowId -> real
  {
    f => SumOver(u.s.cp.modelsByFlow(f), AccuracyTerm(u, f, accuracy, p))
  }

  /** The arrival-weighted accuracy. */
  function AccuracyObjective(u: Setup, rate: FlowId -> real, accuracy: (FlowId, ModelVariantId) -> real): LinExpr
  {
    (p: Point) => WeightedMean(u, rate, AccuracyAt(u, accuracy, p))
  }

  ghost predicate Rates(u: Setup, rate: FlowId -> real)
  {
    TotalRate(u, rate) > 0.0 && forall f :: rate(f) >= 0.0
  }

  lemma WeightNotNegative(u: Setup, rate: FlowId -> real, f: FlowId)
    requires Rates(u, rate)
    ensures Weight(u, rate, f) >= 0.0
  {
    hide TotalRate;
    var t := TotalRate(u, rate);
    var q := rate(f) / t;
    assert q * t == rate(f);
    if q < 0.0 { ScaleStrict(t, q, 0.0); }
  }

  lemma MeanMonotone(u: Setup, rate: FlowId -> real, g: FlowId -> real, h: FlowId -> real)
    requires Rates(u, rate) && forall f :: f in u.s.cp.flows ==> g(f) <= h(f)
    ensures WeightedMean(u, rate, g) <= WeightedMean(u, rate, h)
  {
    hide Weight, TotalRate;
    forall f | f in u.s.cp.flows ensures WeightedTerm(u, rate, g)(f) <= WeightedTerm(u, rate, h)(f) {
      WeightNotNegative(u, rate, f);
      Scale(Weight(u, rate, f), g(f), h(f));
    }
    SumMonotone(u.s.cp.flows, WeightedTerm(u, rate, g), WeightedTerm(u, rate, h));
  }

  lemma MeanScaled(u: Setup, rate: FlowId -> real, a: real, g: FlowId -> real)
    ensures WeightedMean(u, rate, Scaled(a, g)) == a * WeightedMean(u, rate, g)
  {
    hide Weight;
    forall f | f in u.s.cp.flows
      ensures WeightedTerm(u, rate, Scaled(a, g))(f) == a * WeightedTerm(u, rate, g)(f)
    {
      assert Weight(u, rate, f) * (a * g(f)) == a * (Weight(u, rate, f) * g(f));
    }
    SumScale(u.s.cp.flows, a, WeightedTerm(u, rate, g), WeightedTerm(u, rate, Scaled(a, g)));
  }

  ghost function Placed(u: Setup): FlowId -> real
  {
    f => PlacedResponse(u, f)
  }

  lemma StagesNotNegative(u: Setup, e: real, f: FlowId)
    requires Built(u, e) && f in u.s.cp.flows
    ensures FixedPart(u, f) >= 0.0
  {
    hide R.WellPosed, X.WellBuilt, FlowMatches, R.TimeOf;
    forall k | k in Components(u) ensures StageTime(u, f)(k) >= 0.0 {
      if 1 <= k <= u.s.placementOf(f).last { TimeNotNegative(u, e, f, k, u.s.placementOf(f).workerOf(k)); }
    }
    SumNonNegative(Components(u), StageTime(u, f));
    forall cut | cut in Cuts(u) ensures StageDelay(u, f)(cut) >= 0.0 {
      var a, b := u.s.placementOf(f).workerOf(cut), u.s.placementOf(f).workerOf(cut + 1);
      assert u.q.roundTrip(a, b) >= 0.0;
    }
    SumNonNegative(Cuts(u), StageDelay(u, f));
  }

  lemma TimeNotNegative(u: Setup, e: real, f: FlowId, k: int, w: WorkerId)
    requires Built(u, e)
    ensures R.TimeOf(u.s, f, k, w) >= 0.0
  {
    hide R.WellPosed, X.WellBuilt, FlowMatches;
    P.RatesAndTimes(u.s, e, f, u.s.placementOf(f).variant, k, w);
  }

  /** The bound is within the factor 1 + e of the response time of the placement. */
  lemma BoundWithin(u: Setup, e: real, f: FlowId)
    requires Built(u, e) && f in u.s.cp.flows
    ensures Bound(u, e, f) <= Scaled(1.0 + e, Placed(u))(f)
  {
    hide Built, FixedPart, QueueingPart;
    ErrorPositive(u, e);
    StagesNotNegative(u, e, f);
    Scale(e, 0.0, FixedPart(u, f));
  }

  lemma ErrorPositive(u: Setup, e: real)
    requires Built(u, e)
    ensures e > 0.0
  {
    hide R.WellPosed, FlowMatches;
  }

  ghost function Bounds(u: Setup, e: real): FlowId -> real
  {
    f => Bound(u, e, f)
  }

  /** Longer response times are never better. */
  ghost predicate Monotone(u: Setup, cost: (FlowId -> real) -> real)
  {
    forall g: FlowId -> real, h: FlowId -> real {:trigger cost(g), cost(h)} ::
      (forall f :: f in u.s.cp.flows ==> g(f) <= h(f)) ==> cost(g) <= cost(h)
  }

  function CostAt(cost: (FlowId -> real) -> real): LinExpr
  {
    (p: Point) => cost(ResponseAt(p))
  }

  /**
   A placement that minimises a monotone cost of the response times over the rows costs, in the queueing model, at most
   what the bounds of any other possible placement cost that keeps the requirements with that margin.
   */
  lemma OptimumIsBounded(
    u: Setup, v: Setup, e: real, required: bool, cost: (FlowId -> real) -> real, p: Point)
    requires Built(u, e) && Built(v, e) && SameProblem(u, v) && Monotone(u, cost)
    requires Minimal(u, required, CostAt(cost), p) && P.Placed(u.s, p)
    requires Possible(v) && (required ==> forall f :: f in v.s.cp.flows ==> Bound(v, e, f) <= v.q.required(f))
    ensures cost(Placed(u)) <= cost(Bounds(v, e))
  {
    hide Built, Possible, AllRows, P.Placed, PlacedResponse, Bound;
    var q := PossibleHasPoint(v, e, required);
    SameRows(u, v, required, q);
    forall f | f in u.s.cp.flows ensures Placed(u)(f) <= ResponseAt(p)(f) { ResponseNotFaster(u, e, required, f, p); }
    assert cost(Placed(u)) <= cost(ResponseAt(p));
    assert CostAt(cost)(p) <= CostAt(cost)(q);
    assert cost(ResponseAt(q)) <= cost(Bounds(v, e));
  }

  /** The arrival-weighted mean of the response times. */
  function MeanResponse(u: Setup, rate: FlowId -> real): (FlowId -> real) -> real
  {
    (g: FlowId -> real) => WeightedMean(u, rate, g)
  }

  /** Minimising the mean response time is optimal in the queueing model up to the factor 1 + e. */
  lemma OptimumIsNearBest(u: Setup, v: Setup, e: real, required: bool, rate: FlowId -> real, p: Point)
    requires Built(u, e) && Built(v, e) && SameProblem(u, v) && Rates(u, rate)
    requires Minimal(u, required, CostAt(MeanResponse(u, rate)), p) && P.Placed(u.s, p)
    requires Possible(v) && (required ==> forall f :: f in v.s.cp.flows ==> Bound(v, e, f) <= v.q.required(f))
    ensures WeightedMean(u, rate, Placed(u)) <= (1.0 + e) * WeightedMean(u, rate, Placed(v))
  {
    hide Built, Possible, AllRows, P.Placed, Bound, WeightedMean, Rates, Minimal, CostAt, Placed, Bounds, Monotone;
    MeanIsMonotone(u, rate);
    OptimumIsBounded(u, v, e, required, MeanResponse(u, rate), p);
    MeanOfBounds(u, v, e, rate);
  }

  lemma MeanIsMonotone(u: Setup, rate: FlowId -> real)
    requires Rates(u, rate)
    ensures Monotone(u, MeanResponse(u, rate))
  {
    hide WeightedMean, Rates;
    var cost := MeanResponse(u, rate);
    forall g: FlowId -> real, h: FlowId -> real | forall f :: f in u.s.cp.flows ==> g(f) <= h(f) ensures cost(g) <= cost(h) {
      MeanMonotone(u, rate, g, h);
    }
  }

  lemma MeanOfBounds(u: Setup, v: Setup, e: real, rate: FlowId -> real)
    requires Built(v, e) && SameProblem(u, v) && Rates(u, rate)
    ensures WeightedMean(u, rate, Bounds(v, e)) <= (1.0 + e) * WeightedMean(u, rate, Placed(v))
  {
    hide Built, Bound, WeightedMean, Rates, Placed;
    forall f | f in u.s.cp.flows ensures Bounds(v, e)(f) <= Scaled(1.0 + e, Placed(v))(f) { BoundWithin(v, e, f); }
    MeanMonotone(u, rate, Bounds(v, e), Scaled(1.0 + e, Placed(v)));
    MeanScaled(u, rate, 1.0 + e, Placed(v));
  }

  // ----- the objectives about deadlines

  /** 1 for a flow that misses its requirement: the least value of the indicator variable. */
  function Misses(u: Setup, g: FlowId -> real): FlowId -> real
  {
    f => if g(f) <= u.q.required(f) then 0.0 else 1.0
  }

  function Violations(u: Setup): (FlowId -> real) -> real
  {
    (g: FlowId -> real) => SumOver(u.s.cp.flows, Misses(u, g))
  }

  /** The number of flows that miss their requirement is at most the number of flows whose bounds miss it elsewhere. */
  lemma OptimumMissesFewest(u: Setup, v: Setup, e: real, p: Point)
    requires Built(u, e) && Built(v, e) && SameProblem(u, v)
    requires Minimal(u, false, CostAt(Violations(u)), p) && P.Placed(u.s, p) && Possible(v)
    ensures SumOver(u.s.cp.flows, Misses(u, Placed(u))) <= SumOver(u.s.cp.flows, Misses(u, Bounds(v, e)))
  {
    hide Built, Possible, AllRows, P.Placed, PlacedResponse, Bound;
    forall g: FlowId -> real, h: FlowId -> real | forall f :: f in u.s.cp.flows ==> g(f) <= h(f)
      ensures Violations(u)(g) <= Violations(u)(h)
    {
      SumMonotone(u.s.cp.flows, Misses(u, g), Misses(u, h));
    }
    OptimumIsBounded(u, v, e, false, Violations(u), p);
  }

  function Excess(x: real, y: real): real { if x <= y then 0.0 else x - y }

  /** The delay beyond the requirement, relative to it: the least value of the delay variable. */
  function Delays(u: Setup, g: FlowId -> real): FlowId -> real
  {
    f => if u.q.required(f) == 0.0 then 0.0 else Excess(g(f), u.q.required(f)) / u.q.required(f)
  }

  function MeanDelay(u: Setup, rate: FlowId -> real): (FlowId -> real) -> real
  {
    (g: FlowId -> real) => WeightedMean(u, rate, Delays(u, g))
  }

  lemma DelayMonotone(x: real, y: real, required: real)
    requires x <= y && required > 0.0
    ensures Excess(x, required) / required <= Excess(y, required) / required
  {
    NB.QuotientMonotone(Excess(x, required), Excess(y, required), required);
  }

  /** The mean relative delay is at most that of the bounds of any other possible placement. */
  lemma OptimumDelaysLeast(u: Setup, v: Setup, e: real, rate: FlowId -> real, p: Point)
    requires Built(u, e) && Built(v, e) && SameProblem(u, v) && Rates(u, rate)
    requires forall f :: f in u.s.cp.flows ==> u.q.required(f) > 0.0
    requires Minimal(u, false, CostAt(MeanDelay(u, rate)), p) && P.Placed(u.s, p) && Possible(v)
    ensures WeightedMean(u, rate, Delays(u, Placed(u))) <= WeightedMean(u, rate, Delays(u, Bounds(v, e)))
  {
    hide Built, Possible, AllRows, P.Placed, PlacedResponse, Bound, WeightedMean, Rates, Excess;
    var cost := MeanDelay(u, rate);
    forall g: FlowId -> real, h: FlowId -> real | forall f :: f in u.s.cp.flows ==> g(f) <= h(f) ensures cost(g) <= cost(h) {
      forall f | f in u.s.cp.flows ensures Delays(u, g)(f) <= Delays(u, h)(f) {
        DelayMonotone(g(f), h(f), u.q.required(f));
      }
      MeanMonotone(u, rate, Delays(u, g), Delays(u, h));
    }
    OptimumIsBounded(u, v, e, false, cost, p);
  }

  // ----- the accuracy

  function ChosenAccuracy(u: Setup, accuracy: (FlowId, ModelVariantId) -> real): FlowId -> real
  {
    f => accuracy(f, u.s.placementOf(f).variant)
  }

  lemma AccuracyIsChosen(u: Setup, e: real, required: bool, accuracy: (FlowId, ModelVariantId) -> real, f: FlowId, p: Point)
    requires AtRows(u, e, required, p) && f in u.s.cp.flows
    ensures AccuracyAt(u, accuracy, p)(f) == ChosenAccuracy(u, accuracy)(f)
  {
    hide Built, AllRows, Populated, EncodesVariant, EncodesWorkers, Z.ShowsPriorities, WellFormedTopology;
    TimesAreHeld(u, e, required, f, p);
    SumSingle(u.s.cp.modelsByFlow(f), AccuracyTerm(u, f, accuracy, p), u.s.placementOf(f).variant);
  }

  /**
   A placement that maximises the arrival-weighted accuracy over the rows meets every requirement and is at least as
   accurate as any possible placement that keeps the requirements with the margin of the bounds.
   */
  lemma OptimumIsMostAccurate(u: Setup, v: Setup, e: real, rate: FlowId -> real,
                              accuracy: (FlowId, ModelVariantId) -> real, p: Point)
    requires Built(u, e) && Built(v, e) && SameProblem(u, v) && Rates(u, rate)
    requires Maximal(u, true, AccuracyObjective(u, rate, accuracy), p) && P.Placed(u.s, p)
    requires Possible(v) && forall f :: f in v.s.cp.flows ==> Bound(v, e, f) <= v.q.required(f)
    ensures forall f :: f in u.s.cp.flows ==> PlacedResponse(u, f) <= u.q.required(f)
    ensures WeightedMean(u, rate, ChosenAccuracy(v, accuracy)) <= WeightedMean(u, rate, ChosenAccuracy(u, accuracy))
  {
    hide Built, Possible, AllRows, P.Placed, PlacedResponse, Bound, WeightedMean, Rates, AccuracyAt;
    var q := PossibleHasPoint(v, e, true);
    SameRows(u, v, true, q);
    forall f | f in u.s.cp.flows
      ensures PlacedResponse(u, f) <= u.q.required(f)
      ensures ChosenAccuracy(u, accuracy)(f) == AccuracyAt(u, accuracy, p)(f)
      ensures ChosenAccuracy(v, accuracy)(f) == AccuracyAt(u, accuracy, q)(f)
    {
      ResponseNotFaster(u, e, true, f, p);
      AccuracyIsChosen(u, e, true, accuracy, f, p);
      AccuracyIsChosen(v, e, true, accuracy, f, q);
      SameAccuracy(u, v, accuracy, f, q);
    }
    MeanMonotone(u, rate, ChosenAccuracy(v, accuracy), AccuracyAt(u, accuracy, q));
    MeanMonotone(u, rate, AccuracyAt(u, accuracy, p), ChosenAccuracy(u, accuracy));
  }

  lemma SameAccuracy(u: Setup, v: Setup, accuracy: (FlowId, ModelVariantId) -> real, f: FlowId, q: Point)
    requires SameProblem(u, v)
    ensures AccuracyAt(u, accuracy, q)(f) == AccuracyAt(v, accuracy, q)(f)
  {
    SumCongruent(u.s.cp.modelsByFlow(f), AccuracyTerm(u, f, accuracy, q), AccuracyTerm(v, f, accuracy, q));
  }
}
