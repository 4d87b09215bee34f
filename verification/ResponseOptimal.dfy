/**
 The whole formulation against the placements: its points are those of the possible placements, a point is within the
 relative error of the queueing model, and so the optimum is within the relative error of the best placement.
 */
module ResponseOptimal {
  import opened Lp
  import opened Sums
  import opened BinLimits
  import opened Assignment
  import opened Structure
  import opened TensorCrossing
  import opened ResponseTime
  import opened ResponseMeaning
  import B = BigM
  import E = ExecutionQueue
  import H = Memory
  import NB = NetworkBounds
  import P = PlacedWaits
  import R = RealPlacements
  import T = Transmission
  import W = WaitBounds
  import X = NetworkMeaning
  import Y = NetworkPoints
  import Z = PlacementPoints

  // ----- possible placements

  /** Every used link exists. */
  ghost predicate Linked(u: Setup)
  {
    forall f :: f in u.s.cp.flows ==> FlowLinked(u, f)
  }

  ghost predicate FlowLinked(u: Setup, f: FlowId)
  {
    var pl := u.s.placementOf(f);
    forall cut :: 1 <= cut < pl.last ==> (pl.workerOf(cut), pl.workerOf(cut + 1)) in LinksOf(u)
  }

  function PlacementsOf(u: Setup): FlowProblem -> Placement
  {
    (fp: FlowProblem) => u.s.placementOf(fp.flow)
  }

  ghost function Buffer(u: Setup, w: WorkerId): FlowId -> real
  {
    f => if H.Hosts(R.ProblemOf(u.s, f), u.s.placementOf(f), w) then u.memory.activation(u.s.placementOf(f).variant) else 0.0
  }

  /** The largest activation buffer of the models that run on the worker. */
  ghost function LargestBuffer(u: Setup, w: WorkerId): real
  {
    W.MaxOver(u.s.cp.flows, Buffer(u, w))
  }

  ghost predicate FitsMemory(u: Setup)
  {
    forall w :: w in u.s.cp.workers ==>
      SumOver(Problems(u), H.HeldWeight(u.memory, PlacementsOf(u), w)) + LargestBuffer(u, w) <= u.memory.capacity(w)
  }

  /** Real placements over links that exist, with no uplink and no memory above its limit. No row is mentioned. */
  ghost predicate Possible(u: Setup)
  {
    R.Real(u.s) && Linked(u) && Y.AllUplinksFit(u.n) && FitsMemory(u)
  }

  // ----- every point of the rows encodes a possible placement

  lemma PointIsLinked(u: Setup, e: real, required: bool, p: Point)
    requires AtRows(u, e, required, p)
    ensures Linked(u)
  {
    hide AtRows, TransitionRows, FlowResponseRows, P.FlowPlaced, WellFormed;
    forall f | f in u.s.cp.flows ensures FlowLinked(u, f) {
      TimesAreHeld(u, e, required, f, p);
      TransitionsOf(u, e, required, f, p);
      LinkedAt(u, f, p);
    }
  }

  lemma LinkedAt(u: Setup, f: FlowId, p: Point)
    requires P.FlowPlaced(u.s, f, p) && WellFormed(R.ProblemOf(u.s, f))
    requires forall cut :: 1 <= cut < u.s.cp.maxComponents ==> TransitionRows(R.ProblemOf(u.s, f), LinksOf(u), cut, p)
    ensures FlowLinked(u, f)
  {
    hide TransitionRows, TransitionIsProduct, Encodes, Z.ShowsPriorities, Populated, WellFormedTopology;
    var pl := u.s.placementOf(f);
    forall cut | 1 <= cut < pl.last ensures (pl.workerOf(cut), pl.workerOf(cut + 1)) in LinksOf(u) {
      TransitionsExact(R.ProblemOf(u.s, f), LinksOf(u), cut, pl, p);
    }
  }

  lemma PointUplinksFit(u: Setup, e: real, required: bool, p: Point)
    requires AtRows(u, e, required, p)
    ensures Y.AllUplinksFit(u.n)
  {
    hide AtRows, X.AtPoint, X.SentLoad;
    NetworkReady(u, e, required, p);
    forall w | w in u.n.problem.workers ensures X.SentLoad(u.n, w) <= u.n.problem.utilizationLimit {
      X.LoadBelowOne(u.n, e, w, p);
    }
  }

  lemma ProblemIn(u: Setup, f: FlowId)
    requires f in u.s.cp.flows
    ensures R.ProblemOf(u.s, f) in Problems(u)
  {
    var i :| 0 <= i < |u.s.cp.flows| && u.s.cp.flows[i] == f;
    assert Problems(u)[i] in Problems(u);
  }

  lemma ProblemsAre(u: Setup, fp: FlowProblem)
    requires fp in Problems(u)
    ensures fp.flow in u.s.cp.flows && fp == R.ProblemOf(u.s, fp.flow)
  {
    var i :| 0 <= i < |Problems(u)| && Problems(u)[i] == fp;
    assert u.s.cp.flows[i] in u.s.cp.flows;
  }

  lemma MemoryAtLeast(u: Setup, e: real, fp: FlowProblem, p: Point)
    requires Built(u, e) && P.Placed(u.s, p) && MemoryRows(u, p) && fp in Problems(u)
    ensures H.AtLeastPhysical(fp, u.memory, PlacementsOf(u)(fp), p)
  {
    hide R.WellPosed, X.WellBuilt, FlowMatches, Valid, Encodes, H.FlowRows, H.AtLeastPhysical, Z.ShowsPriorities;
    ProblemsAre(u, fp);
    assert P.FlowPlaced(u.s, fp.flow, p);
    H.FlowRowsExact(fp, u.memory, p, u.s.placementOf(fp.flow));
  }

  lemma {:induction false} MaxOverAtMost<A>(keys: seq<A>, g: A -> real, bound: real)
    requires 0.0 <= bound && forall k :: k in keys ==> g(k) <= bound
    ensures W.MaxOver(keys, g) <= bound
  {
    if keys != [] { MaxOverAtMost(keys[..|keys| - 1], g, bound); }
  }

  lemma BufferAtMost(u: Setup, e: real, f: FlowId, w: WorkerId, p: Point)
    requires Built(u, e) && P.Placed(u.s, p) && MemoryRows(u, p) && f in u.s.cp.flows && w in u.s.cp.workers
    ensures Buffer(u, w)(f) <= p(MaxActivation(w))
  {
    hide R.WellPosed, X.WellBuilt, FlowMatches, H.FlowRows, H.CapacityRow, H.NonNegative;
    if H.Hosts(R.ProblemOf(u.s, f), u.s.placementOf(f), w) {
      ProblemIn(u, f);
      MemoryAtLeast(u, e, R.ProblemOf(u.s, f), p);
      HostIsWorker(u, f, w, p);
    }
  }

  lemma HostIsWorker(u: Setup, f: FlowId, w: WorkerId, p: Point)
    requires P.FlowPlaced(u.s, f, p) && H.Hosts(R.ProblemOf(u.s, f), u.s.placementOf(f), w)
    ensures w in u.s.cp.workersByFlow(f)
  {
    hide Encodes, Z.ShowsPriorities, Populated;
  }

  lemma PointFitsMemory(u: Setup, e: real, p: Point)
    requires Built(u, e) && P.Placed(u.s, p) && MemoryRows(u, p)
    ensures FitsMemory(u)
  {
    hide Built, P.Placed, H.FlowRows, H.CapacityRow, H.NonNegative, H.AtLeastPhysical, H.HeldWeight, Buffer;
    forall fp | fp in Problems(u) ensures H.AtLeastPhysical(fp, u.memory, PlacementsOf(u)(fp), p) { MemoryAtLeast(u, e, fp, p); }
    forall w | w in u.s.cp.workers
      ensures SumOver(Problems(u), H.HeldWeight(u.memory, PlacementsOf(u), w)) + LargestBuffer(u, w) <= u.memory.capacity(w)
    {
      H.CapacityExact(Problems(u), u.memory, PlacementsOf(u), w, p);
      forall f | f in u.s.cp.flows ensures Buffer(u, w)(f) <= p(MaxActivation(w)) { BufferAtMost(u, e, f, w, p); }
      MaxOverAtMost(u.s.cp.flows, Buffer(u, w), p(MaxActivation(w)));
    }
  }

  lemma PointIsPossible(u: Setup, e: real, required: bool, p: Point)
    requires AtRows(u, e, required, p)
    ensures Possible(u)
  {
    hide R.WellPosed, R.Real, P.ComputeRows, P.Placed, Y.NetworkAdmitted, MemoryRows, SendingRows, FlowResponseRows, Linked;
    hide Y.AllUplinksFit, FitsMemory, X.WellBuilt, FlowMatches, P.WorkerLoaded, H.Sensible;
    PointIsLinked(u, e, required, p);
    PointUplinksFit(u, e, required, p);
    PointFitsMemory(u, e, p);
    P.PointIsReal(u.s, e, p);
  }

  // ----- the point of a possible placement

  ghost function OtherValue(u: Setup, x: Var): real
  {
    match x
    case AdjacentWorkers(f, cut, a, b) =>
      Indicator(cut < u.s.placementOf(f).last && a == u.s.placementOf(f).workerOf(cut) && b == u.s.placementOf(f).workerOf(cut + 1))
    case TransmissionTime(f, v, cut, w) => X.SendingTime(u.n, f, v, w)(cut)
    case ComponentWeight(f, v, k, w) => H.PhysicalWeight(R.ProblemOf(u.s, f), u.memory, u.s.placementOf(f), v, k, w)
    case MaxActivation(w) => LargestBuffer(u, w)
    case _ => Y.QueueValue(u.n, x)
  }

  /** A point of the compute rows whose other variables, too, have the values of the placements. */
  ghost predicate Shown(u: Setup, e: real, p: Point)
  {
    && Built(u, e) && Possible(u) && P.IsReal(u.s, p)
    && forall x :: R.IsOther(x) && !x.ResponseTime? ==> p(x) == OtherValue(u, x)
  }

  lemma ShownValues(u: Setup, e: real, p: Point)
    requires Shown(u, e, p)
    ensures forall f, cut, a, b ::
              p(AdjacentWorkers(f, cut, a, b))
              == Indicator(cut < u.s.placementOf(f).last && a == u.s.placementOf(f).workerOf(cut)
                           && b == u.s.placementOf(f).workerOf(cut + 1))
    ensures forall f, v, cut, w :: p(TransmissionTime(f, v, cut, w)) == X.SendingTime(u.n, f, v, w)(cut)
    ensures forall f, v, k, w ::
              p(ComponentWeight(f, v, k, w)) == H.PhysicalWeight(R.ProblemOf(u.s, f), u.memory, u.s.placementOf(f), v, k, w)
    ensures forall w :: p(MaxActivation(w)) == LargestBuffer(u, w)
    ensures forall x :: Y.IsQueueVariable(x) ==> p(x) == Y.QueueValue(u.n, x)
  {
    hide Built, Possible, P.IsReal, X.SendingTime, H.PhysicalWeight, LargestBuffer, Y.QueueValue;
  }

  lemma TransitionsShown(u: Setup, e: real, f: FlowId, cut: int, p: Point)
    requires Shown(u, e, p) && f in u.s.cp.flows && 1 <= cut < u.s.cp.maxComponents
    ensures TransitionRows(R.ProblemOf(u.s, f), LinksOf(u), cut, p)
  {
    hide Built, R.Real, Y.AllUplinksFit, FitsMemory, P.ComputeRows, P.FlowPlaced, OtherValue, TransitionRows, R.WorkerAdmitted;
    hide P.AllTimesAre, R.WaitsInItsQueue;
    ShownValues(u, e, p);
    assert FlowLinked(u, f) && P.FlowPlaced(u.s, f, p);
    FlowFacts(u, f, p);
    TransitionsExact(R.ProblemOf(u.s, f), LinksOf(u), cut, u.s.placementOf(f), p);
  }

  lemma FlowFacts(u: Setup, f: FlowId, p: Point)
    requires P.ComputeRows(u.s, p) && P.FlowPlaced(u.s, f, p) && f in u.s.cp.flows
    ensures var fp := R.ProblemOf(u.s, f);
            WellFormed(fp) && Valid(fp, u.s.placementOf(f)) && Encodes(fp, p, u.s.placementOf(f)) && AllCrossingRows(fp, p)
  {
    hide Valid, Encodes, WellFormed, AllCrossingRows, AssignmentRows, Domain, B.AllExecutionRows, Z.ShowsPriorities;
    hide P.WorkerQueueRows, R.ComponentAdmitted;
    assert P.FlowRows(u.s, f, p);
  }

  lemma NetworkShown(u: Setup, e: real, f: FlowId, p: Point)
    requires Shown(u, e, p) && f in u.s.cp.flows
    ensures X.FlowPlaced(u.n, f, p) && X.TimesAre(u.n, f, p)
  {
    hide R.WellPosed, Possible, P.ComputeRows, P.FlowPlaced, OtherValue, TransitionRows, R.WorkerAdmitted, X.SendingTime;
    hide P.AllTimesAre, R.WaitsInItsQueue, Valid, Encodes, WellFormed, AllCrossingRows, T.Sensible, NB.Profiled, GeometricGrid;
    assert FlowMatches(u, f) && X.FlowMatches(u.n, f) && P.FlowPlaced(u.s, f, p);
    ShownValues(u, e, p);
    FlowFacts(u, f, p);
    forall cut | 1 <= cut < u.n.problem.maxComponents ensures NB.Placed(u.n.flowOf(f), u.n.links, p, u.n.placementOf(f), cut) {
      TransitionsShown(u, e, f, cut, p);
    }
  }

  lemma RealNetwork(u: Setup, e: real, p: Point)
    requires Shown(u, e, p)
    ensures Y.RealAt(u.n, e, p) && Y.Completed(u.n, p, p)
  {
    hide R.WellPosed, X.WellBuilt, Possible, P.IsReal, FlowMatches, X.FlowPlaced, X.TimesAre, OtherValue, Y.QueueValue;
    ShownValues(u, e, p);
    forall f | f in u.n.problem.flows ensures X.FlowPlaced(u.n, f, p) && X.TimesAre(u.n, f, p) { NetworkShown(u, e, f, p); }
  }

  lemma SendingShown(u: Setup, e: real, f: FlowId, p: Point)
    requires Shown(u, e, p) && f in u.s.cp.flows
    ensures SendingRows(u, f, p)
  {
    hide R.WellPosed, Possible, P.IsReal, OtherValue, TransitionRows, T.TransmissionRows, NB.Placed, X.SendingTime;
    hide T.Sensible, NB.Profiled, GeometricGrid, T.PhysicalTime;
    assert FlowMatches(u, f) && X.FlowMatches(u.n, f);
    NetworkShown(u, e, f, p);
    forall cut | 1 <= cut < u.s.cp.maxComponents ensures TransitionRows(R.ProblemOf(u.s, f), LinksOf(u), cut, p) {
      TransitionsShown(u, e, f, cut, p);
    }
    forall v, cut | v in u.s.cp.modelsByFlow(f) && 1 <= cut < u.s.cp.maxComponents
      ensures T.TransmissionRows(R.ProblemOf(u.s, f), u.n.links, v, cut, p)
    {
      CutIsPhysical(u, e, f, cut, p);
      assert NB.Placed(R.ProblemOf(u.s, f), u.n.links, p, u.s.placementOf(f), cut);
      NB.PhysicalTimesAdmitted(R.ProblemOf(u.s, f), u.n.links, p, u.s.placementOf(f), cut);
    }
    forall v, cut, w | X.Indexes(u.n, f, v, cut, w) ensures p(TransmissionTime(f, v, cut, w)) >= 0.0 {
      X.SendingNotNegative(u.n, e, f, v, cut, w, p);
    }
  }

  lemma CutIsPhysical(u: Setup, e: real, f: FlowId, cut: int, p: Point)
    requires Shown(u, e, p) && f in u.s.cp.flows && 1 <= cut < u.s.cp.maxComponents
    ensures NB.AllPhysical(R.ProblemOf(u.s, f), u.n.links, u.s.placementOf(f), cut, p)
  {
    hide R.WellPosed, Possible, P.IsReal, OtherValue, NB.Placed, T.Sensible, NB.Profiled, GeometricGrid, T.PhysicalTime;
    assert FlowMatches(u, f);
    ShownValues(u, e, p);
  }

  // ----- memory of that point

  lemma WeightsShown(u: Setup, e: real, fp: FlowProblem, p: Point)
    requires Shown(u, e, p) && fp in Problems(u)
    ensures H.WeightsArePhysical(fp, u.memory, PlacementsOf(u)(fp), p)
    ensures H.FlowRows(fp, u.memory, p) && H.NonNegative(fp, p)
  {
    hide R.WellPosed, X.WellBuilt, FlowMatches, R.Real, Linked, Y.AllUplinksFit, FitsMemory, P.ComputeRows, R.WorkerAdmitted;
    hide P.AllTimesAre, R.WaitsInItsQueue, OtherValue, H.PhysicalWeight, H.FlowRows, Valid, Encodes, WellFormed, AllCrossingRows;
    hide LargestBuffer, Z.ShowsPriorities;
    ProblemsAre(u, fp);
    ShownValues(u, e, p);
    var pl := u.s.placementOf(fp.flow);
    assert P.FlowPlaced(u.s, fp.flow, p);
    WeightsTyped(u, e, fp, p);
    forall w | w in fp.workers && H.Hosts(fp, pl, w) ensures p(MaxActivation(w)) >= u.memory.activation(pl.variant) {
      BufferCovered(u, fp.flow, w);
    }
    H.FlowRowsExact(fp, u.memory, p, pl);
  }

  lemma WeightsTyped(u: Setup, e: real, fp: FlowProblem, p: Point)
    requires Shown(u, e, p) && fp in Problems(u)
    ensures H.NonNegative(fp, p)
  {
    hide R.WellPosed, X.WellBuilt, FlowMatches, Possible, P.IsReal, OtherValue, Order, Buffer;
    ProblemsAre(u, fp);
    ShownValues(u, e, p);
    forall v, k, w | v in fp.variants && 1 <= k <= fp.maxComponents && w in fp.workers
      ensures p(ComponentWeight(fp.flow, v, k, w)) >= 0.0
    {
      SumNonNegative(Order(fp, v), B.InComponent(u.s.placementOf(fp.flow), v, k, H.WeightOf(u.memory, v)));
    }
  }

  lemma BufferCovered(u: Setup, f: FlowId, w: WorkerId)
    requires f in u.s.cp.flows && H.Hosts(R.ProblemOf(u.s, f), u.s.placementOf(f), w)
    ensures LargestBuffer(u, w) >= u.memory.activation(u.s.placementOf(f).variant)
  {
    hide H.Hosts;
    W.MaxOverAtLeast(u.s.cp.flows, Buffer(u, w), f);
  }

  lemma MemoryShown(u: Setup, e: real, p: Point)
    requires Shown(u, e, p)
    ensures MemoryRows(u, p)
  {
    hide Built, R.Real, Linked, Y.AllUplinksFit, P.IsReal, OtherValue, H.FlowRows, H.NonNegative, H.CapacityRow, H.HeldWeight;
    hide H.WeightsArePhysical, H.AtLeastPhysical, Buffer;
    ShownValues(u, e, p);
    forall fp | fp in Problems(u)
      ensures H.WeightsArePhysical(fp, u.memory, PlacementsOf(u)(fp), p)
      ensures H.FlowRows(fp, u.memory, p) && H.NonNegative(fp, p) && H.AtLeastPhysical(fp, u.memory, PlacementsOf(u)(fp), p)
    {
      WeightsShown(u, e, fp, p);
      WeightsAreEnough(u, e, fp, p);
    }
    forall w | w in u.s.cp.workers ensures p(MaxActivation(w)) >= 0.0 && H.CapacityRow(Problems(u), u.memory, w, p) {
      H.CapacityExact(Problems(u), u.memory, PlacementsOf(u), w, p);
    }
  }

  lemma WeightsAreEnough(u: Setup, e: real, fp: FlowProblem, p: Point)
    requires Shown(u, e, p) && fp in Problems(u) && H.FlowRows(fp, u.memory, p) && H.NonNegative(fp, p)
    ensures H.AtLeastPhysical(fp, u.memory, PlacementsOf(u)(fp), p)
  {
    hide R.WellPosed, X.WellBuilt, FlowMatches, Possible, P.ComputeRows, R.WorkerAdmitted, P.AllTimesAre, R.WaitsInItsQueue;
    hide OtherValue, Valid, Encodes, H.FlowRows, H.AtLeastPhysical, H.NonNegative, Z.ShowsPriorities;
    ProblemsAre(u, fp);
    assert P.FlowPlaced(u.s, fp.flow, p);
    H.FlowRowsExact(fp, u.memory, p, u.s.placementOf(fp.flow));
  }

  // ----- the response time at that point

  lemma ExecutionShown(u: Setup, e: real, f: FlowId, p: Point)
    requires Shown(u, e, p) && f in u.s.cp.flows
    ensures SumOver(u.s.cp.modelsByFlow(f), VariantTime(R.ProblemOf(u.s, f), p)) == SumOver(Components(u), StageTime(u, f))
  {
    hide R.WellPosed, X.WellBuilt, Possible, OtherValue, ComponentTime, StageTime, P.ComputeRows, R.WorkerAdmitted;
    hide R.WaitsInItsQueue, Valid, Encodes, Z.ShowsPriorities, WellFormed, AllCrossingRows, Distinct;
    var fp, v := R.ProblemOf(u.s, f), u.s.placementOf(f).variant;
    assert P.FlowPlaced(u.s, f, p);
    FlowFacts(u, f, p);
    VariantIn(u, f);
    forall m | m in fp.variants
      ensures VariantTime(fp, p)(m) == if m == v then SumOver(Components(u), StageTime(u, f)) else 0.0
    {
      forall k | k in Components(u) ensures ComponentTime(fp, m, p)(k) == if m == v then StageTime(u, f)(k) else 0.0 {
        ComponentTimeShown(u, e, f, m, k, p);
      }
      if m == v { SumCongruent(Components(u), ComponentTime(fp, m, p), StageTime(u, f)); }
      else { SumZero(Components(u), ComponentTime(fp, m, p)); }
    }
    SumSingle(fp.variants, VariantTime(fp, p), v);
  }

  lemma VariantIn(u: Setup, f: FlowId)
    requires WellFormed(R.ProblemOf(u.s, f)) && Valid(R.ProblemOf(u.s, f), u.s.placementOf(f))
    ensures Distinct(u.s.cp.modelsByFlow(f)) && Distinct(u.s.cp.workersByFlow(f))
    ensures u.s.placementOf(f).variant in u.s.cp.modelsByFlow(f)
    ensures forall k :: 1 <= k <= u.s.placementOf(f).last ==> u.s.placementOf(f).workerOf(k) in u.s.cp.workersByFlow(f)
    ensures u.s.placementOf(f).last <= u.s.cp.maxComponents
  {
    hide Populated, WellFormedTopology;
  }

  lemma ComponentTimeShown(u: Setup, e: real, f: FlowId, m: ModelVariantId, k: int, p: Point)
    requires Shown(u, e, p) && f in u.s.cp.flows && m in u.s.cp.modelsByFlow(f) && 1 <= k <= u.s.cp.maxComponents
    ensures ComponentTime(R.ProblemOf(u.s, f), m, p)(k)
         == if m == u.s.placementOf(f).variant then StageTime(u, f)(k) else 0.0
  {
    hide R.WellPosed, X.WellBuilt, Possible, OtherValue, P.ComputeRows, R.WorkerAdmitted, W.WaitBound;
    hide R.WaitsInItsQueue, Valid, Encodes, Z.ShowsPriorities, WellFormed, AllCrossingRows, Distinct;
    var fp, pl := R.ProblemOf(u.s, f), u.s.placementOf(f);
    assert P.FlowPlaced(u.s, f, p);
    FlowFacts(u, f, p);
    VariantIn(u, f);
    forall w | w in fp.workers
      ensures B.TimeVar(fp, m, k, p)(w) == W.PhysicalTime(R.ProfilesOf(u.s), pl, m, k, w)
    {
      TimeShown(u, e, f, m, k, w, p);
    }
    if m == pl.variant && k <= pl.last {
      SumSingle(fp.workers, B.TimeVar(fp, m, k, p), pl.workerOf(k));
    } else {
      SumZero(fp.workers, B.TimeVar(fp, m, k, p));
    }
  }

  lemma TimeShown(u: Setup, e: real, f: FlowId, m: ModelVariantId, k: int, w: WorkerId, p: Point)
    requires Shown(u, e, p) && f in u.s.cp.flows && m in u.s.cp.modelsByFlow(f) && 1 <= k <= u.s.cp.maxComponents
    requires w in u.s.cp.workersByFlow(f)
    ensures p(ExecutionTime(f, m, k, w)) == W.PhysicalTime(R.ProfilesOf(u.s), u.s.placementOf(f), m, k, w)
  {
    hide X.WellBuilt, Possible, OtherValue, P.ComputeRows, P.Placed, W.PhysicalTime, WellFormed, R.WaitsInItsQueue;
    hide GeometricGrid, W.Prepared, FlowMatches;
    assert R.FlowWellPosed(u.s, f);
    assert f in E.Relevant(u.s.cp, w);
    assert P.AllTimesAre(u.s, w, p);
    assert P.TimesAre(u.s, f, w, p);
  }

  predicate AtMostTimes(x: real, e: real, y: real) { x <= (1.0 + e) * y }

  lemma WaitingWithin(wait: real, moment: real, lt: real, le: real, e: real)
    requires P.WaitsWithin(wait, lt, le, moment, e) && lt < 1.0 && le < 1.0
    ensures AtMostTimes(wait, e, R.Waiting(moment, lt, le))
  {
    ScaleStrict(1.0 - lt, 0.0, 1.0 - le);
    DivisionWithin(wait, 2.0 * ((1.0 - lt) * (1.0 - le)), moment, e);
  }

  lemma DivisionWithin(x: real, c: real, h: real, e: real)
    requires c > 0.0 && x * c <= (1.0 + e) * h
    ensures AtMostTimes(x, e, h / c)
  {
    var y := h / c;
    assert y * c == h;
    var z := (1.0 + e) * y;
    assert z * c == (1.0 + e) * (y * c);
    if z < x { ScaleStrict(c, z, x); }
  }

  lemma SharedWithin(response: real, time: real, load: real, e: real)
    requires X.RespondsWithin(response, time, load, e) && load < 1.0
    ensures AtMostTimes(response, e, Shared(time, load))
  {
    DivisionWithin(response, 1.0 - load, time, e);
  }

  lemma WaitShown(u: Setup, e: real, f: FlowId, k: int, p: Point)
    requires Shown(u, e, p) && f in u.s.cp.flows && 1 <= k <= u.s.cp.maxComponents
    ensures AtMostTimes(WaitTerm(R.ProblemOf(u.s, f), p)(k), e, StageWait(u, f)(k))
  {
    hide R.WellPosed, R.Real, Linked, FitsMemory, Y.AllUplinksFit, OtherValue, P.ComputeRows, P.Placed, R.WorkerAdmitted;
    hide P.AllTimesAre, R.WaitsInItsQueue, FlowMatches, X.FlowMatches, GeometricGrid, P.LoadUpTo, P.PlacedMoment, R.Waiting;
    hide P.WaitsWithin, P.WaitsAtLeast;
    P.ComponentNotFaster(u.s, e, f, k, p);
    if k <= u.s.placementOf(f).last {
      var w, r := u.s.placementOf(f).workerOf(k), u.s.priorityOf(f, k);
      P.ComponentIsTight(u.s, e, f, k, p);
      WaitingWithin(p(ComponentQueueWait(f, k)), P.PlacedMoment(u.s, w), P.LoadUpTo(u.s, w, r - 1), P.LoadUpTo(u.s, w, r), e);
    }
  }

  lemma SendShown(u: Setup, e: real, f: FlowId, cut: int, p: Point)
    requires Shown(u, e, p) && f in u.s.cp.flows && 1 <= cut < u.s.cp.maxComponents
    ensures AtMostTimes(SendTerm(R.ProblemOf(u.s, f), p)(cut), e, StageSending(u, f)(cut))
  {
    hide R.WellPosed, R.Real, Linked, FitsMemory, OtherValue, P.IsReal, T.Sensible, NB.Profiled, X.FlowPlaced, X.TimesAre;
    hide X.SentLoad, X.SentTime, NB.IsNominalUpper, GeometricGrid, Y.NetworkAdmitted, X.RespondsWithin;
    assert FlowMatches(u, f) && X.FlowMatches(u.n, f);
    RealNetwork(u, e, p);
    ShownValues(u, e, p);
    var pl := u.s.placementOf(f);
    if cut < pl.last {
      var w := pl.workerOf(cut);
      Y.TightAt(u.n, e, f, cut, p, p);
      X.ModelsOf(u.n, e, f, p);
      SharedWithin(p(TransmissionResponse(f, cut)), X.SentTime(u.n, f, cut, w), X.SentLoad(u.n, w), e);
    } else {
      assert Y.IsQueueVariable(TransmissionResponse(f, cut));
    }
  }
}
