/**
 The response time that the rows assign to a flow is never below the response time that the queueing model gives to its
 placement, so the requirement rows admit no placement that misses its requirement.
 */
module ResponseMeaning {
  import opened Lp
  import opened Sums
  import opened BinLimits
  import opened Assignment
  import opened Structure
  import opened TensorCrossing
  import opened ResponseTime
  import B = BigM
  import H = Memory
  import N = NetworkQueue
  import NB = NetworkBounds
  import P = PlacedWaits
  import R = RealPlacements
  import T = Transmission
  import W = WaitBounds
  import X = NetworkMeaning
  import Y = NetworkPoints
  import Z = PlacementPoints

  /** The whole problem: compute and network data with a placement of every flow, the requirements, and the memory. */
  datatype Setup = Setup(s: R.Scenario, n: X.Network, q: QosData, memory: H.MemoryData)

  function LinksOf(u: Setup): Links { u.n.links.bandwidth.Keys }

  ghost predicate FlowMatches(u: Setup, f: FlowId)
  {
    var fp := R.ProblemOf(u.s, f);
    && u.n.flowOf(f) == fp && u.n.placementOf(f) == u.s.placementOf(f) && T.Sensible(fp, u.n.links)
    && forall v :: v in fp.variants ==> NB.Profiled(fp, u.n.links, v)
  }

  /** The compute and the network part are built from the same data, on the same placements. */
  ghost predicate Built(u: Setup, e: real)
  {
    && R.WellPosed(u.s, e) && X.WellBuilt(u.n, e) && H.Sensible(u.memory)
    && u.n.problem.arrivalRate == u.s.cp.rate && u.n.problem.flows == u.s.cp.flows
    && (forall f :: f in u.s.cp.flows ==> FlowMatches(u, f))
    && (forall f, v :: u.q.batchFill(f, v) >= 0.0) && (forall a, b :: u.q.roundTrip(a, b) >= 0.0)
  }

  // ----- all rows

  /** The transition and transmission rows of a flow. */
  ghost predicate SendingRows(u: Setup, f: FlowId, p: Point)
  {
    var fp := R.ProblemOf(u.s, f);
    && (forall cut :: 1 <= cut < fp.maxComponents ==> TransitionRows(fp, LinksOf(u), cut, p))
    && (forall v, cut :: v in fp.variants && 1 <= cut < fp.maxComponents ==> T.TransmissionRows(fp, u.n.links, v, cut, p))
    && forall v, cut, w :: X.Indexes(u.n, f, v, cut, w) ==> p(TransmissionTime(f, v, cut, w)) >= 0.0
  }

  function Problems(u: Setup): (fps: seq<FlowProblem>)
    ensures |fps| == |u.s.cp.flows| && forall i :: 0 <= i < |fps| ==> fps[i] == R.ProblemOf(u.s, u.s.cp.flows[i])
  {
    seq(|u.s.cp.flows|, i requires 0 <= i < |u.s.cp.flows| => R.ProblemOf(u.s, u.s.cp.flows[i]))
  }

  ghost predicate MemoryRows(u: Setup, p: Point)
  {
    && (forall fp :: fp in Problems(u) ==> H.FlowRows(fp, u.memory, p) && H.NonNegative(fp, p))
    && forall w :: w in u.s.cp.workers ==> p(MaxActivation(w)) >= 0.0 && H.CapacityRow(Problems(u), u.memory, w, p)
  }

  /** Every row of the formulation, with the variable types and bounds. No row mentions the placements. */
  ghost predicate AllRows(u: Setup, required: bool, p: Point)
  {
    && P.ComputeRows(u.s, p) && N.UsableLimits(u.n.problem.binLimits) && Y.NetworkAdmitted(u.n, p) && MemoryRows(u, p)
    && (forall f :: f in u.s.cp.flows ==> SendingRows(u, f, p))
    && forall fp :: fp in Problems(u) ==> FlowResponseRows(fp, u.q, LinksOf(u), required, p)
  }

  // ----- the response time of a placement

  /** Component k on its worker. */
  function StageTime(u: Setup, f: FlowId): int -> real
  {
    k => if 1 <= k <= u.s.placementOf(f).last then R.TimeOf(u.s, f, k, u.s.placementOf(f).workerOf(k)) else 0.0
  }

  /** The wait of component k in a non-preemptive priority queue under the placed load. */
  function StageWait(u: Setup, f: FlowId): int -> real
  {
    k => if 1 <= k <= u.s.placementOf(f).last then QueueingDelay(u, u.s.placementOf(f).workerOf(k), u.s.priorityOf(f, k))
         else 0.0
  }

  function QueueingDelay(u: Setup, w: WorkerId, r: int): real
  {
    R.Waiting(P.PlacedMoment(u.s, w), P.LoadUpTo(u.s, w, r - 1), P.LoadUpTo(u.s, w, r))
  }

  /** A cut on the uplink of its worker, shared by all that is sent from there. */
  ghost function StageSending(u: Setup, f: FlowId): int -> real
  {
    cut => if 1 <= cut < u.s.placementOf(f).last
           then Shared(X.SentTime(u.n, f, cut, u.s.placementOf(f).workerOf(cut)),
                       X.SentLoad(u.n, u.s.placementOf(f).workerOf(cut)))
           else 0.0
  }

  /** time / (1 - load): processor sharing. */
  function Shared(time: real, load: real): real
  {
    if load == 1.0 then 0.0 else time / (1.0 - load)
  }

  /** The latency of the link that a cut uses: half its round trip. */
  function StageDelay(u: Setup, f: FlowId): int -> real
  {
    cut => if 1 <= cut < u.s.placementOf(f).last
           then u.q.roundTrip(u.s.placementOf(f).workerOf(cut), u.s.placementOf(f).workerOf(cut + 1)) / 2.0 else 0.0
  }

  function Components(u: Setup): seq<int> { Range(1, u.s.cp.maxComponents + 1) }

  function Cuts(u: Setup): seq<int> { Range(1, u.s.cp.maxComponents) }

  function FixedPart(u: Setup, f: FlowId): real
  {
    u.q.batchFill(f, u.s.placementOf(f).variant) + SumOver(Components(u), StageTime(u, f)) + SumOver(Cuts(u), StageDelay(u, f))
  }

  ghost function QueueingPart(u: Setup, f: FlowId): real
  {
    SumOver(Components(u), StageWait(u, f)) + SumOver(Cuts(u), StageSending(u, f))
  }

  /** The mean response time of the flow in the queueing model. It mentions no row and no variable. */
  ghost function PlacedResponse(u: Setup, f: FlowId): real
  {
    FixedPart(u, f) + QueueingPart(u, f)
  }

  // ----- term by term

  /** All rows hold at a point that encodes the placements. */
  ghost predicate AtRows(u: Setup, e: real, required: bool, p: Point)
  {
    Built(u, e) && AllRows(u, required, p) && P.Placed(u.s, p)
  }

  lemma BatchAt(u: Setup, f: FlowId, p: Point)
    requires P.FlowPlaced(u.s, f, p) && WellFormed(R.ProblemOf(u.s, f))
    ensures SumOver(u.s.cp.modelsByFlow(f), BatchTerm(R.ProblemOf(u.s, f), u.q, p))
         == u.q.batchFill(f, u.s.placementOf(f).variant)
  {
    hide Z.ShowsPriorities, EncodesVariant, EncodesWorkers, Populated, WellFormedTopology;
    SumSingle(u.s.cp.modelsByFlow(f), BatchTerm(R.ProblemOf(u.s, f), u.q, p), u.s.placementOf(f).variant);
  }

  /** Every execution time is at least the real one. */
  ghost predicate TimesHold(u: Setup, f: FlowId, p: Point)
  {
    forall m, k, w :: m in u.s.cp.modelsByFlow(f) && 1 <= k <= u.s.cp.maxComponents && w in u.s.cp.workersByFlow(f) ==>
      p(ExecutionTime(f, m, k, w)) >= W.PhysicalTime(R.ProfilesOf(u.s), u.s.placementOf(f), m, k, w) >= 0.0
  }

  lemma ComponentTimeAtLeast(u: Setup, f: FlowId, m: ModelVariantId, k: int, p: Point)
    requires TimesHold(u, f, p) && m in u.s.cp.modelsByFlow(f) && 1 <= k <= u.s.cp.maxComponents
    requires Valid(R.ProblemOf(u.s, f), u.s.placementOf(f))
    ensures ComponentTime(R.ProblemOf(u.s, f), m, p)(k) >= 0.0
    ensures m == u.s.placementOf(f).variant ==> ComponentTime(R.ProblemOf(u.s, f), m, p)(k) >= StageTime(u, f)(k)
  {
    hide W.PhysicalTime, Populated;
    var fp := R.ProblemOf(u.s, f);
    SumNonNegative(fp.workers, B.TimeVar(fp, m, k, p));
    if k <= u.s.placementOf(f).last {
      TermAtMostSum(fp.workers, B.TimeVar(fp, m, k, p), u.s.placementOf(f).workerOf(k));
    }
  }

  lemma ExecutionAtLeast(u: Setup, f: FlowId, p: Point)
    requires TimesHold(u, f, p) && Valid(R.ProblemOf(u.s, f), u.s.placementOf(f))
    ensures SumOver(u.s.cp.modelsByFlow(f), VariantTime(R.ProblemOf(u.s, f), p)) >= SumOver(Components(u), StageTime(u, f))
  {
    hide TimesHold, ComponentTime, StageTime, Populated;
    var fp, v := R.ProblemOf(u.s, f), u.s.placementOf(f).variant;
    forall m | m in fp.variants
      ensures VariantTime(fp, p)(m) >= 0.0
      ensures m == v ==> VariantTime(fp, p)(m) >= SumOver(Components(u), StageTime(u, f))
    {
      forall k | k in Components(u)
        ensures ComponentTime(fp, m, p)(k) >= 0.0
        ensures m == v ==> ComponentTime(fp, m, p)(k) >= StageTime(u, f)(k)
      {
        ComponentTimeAtLeast(u, f, m, k, p);
      }
      SumNonNegative(Components(u), ComponentTime(fp, m, p));
      if m == v { SumMonotone(Components(u), StageTime(u, f), ComponentTime(fp, m, p)); }
    }
    TermAtMostSum(fp.variants, VariantTime(fp, p), v);
  }

  lemma WaitingAtMost(wait: real, moment: real, lt: real, le: real)
    requires P.WaitsAtLeast(wait, lt, le, moment) && lt < 1.0 && le < 1.0
    ensures R.Waiting(moment, lt, le) <= wait
  {
    ScaleStrict(1.0 - lt, 0.0, 1.0 - le);
    DivisionAtMost(wait, 2.0 * ((1.0 - lt) * (1.0 - le)), moment);
  }

  lemma DivisionAtMost(x: real, c: real, h: real)
    requires c > 0.0 && h <= x * c
    ensures h / c <= x
  {
    var y := h / c;
    assert y * c == h;
    if x < y { ScaleStrict(c, x, y); }
  }

  lemma SharedAtMost(response: real, time: real, load: real)
    requires X.RespondsAtLeast(response, time, load) && load < 1.0
    ensures Shared(time, load) <= response
  {
    DivisionAtMost(response, 1.0 - load, time);
  }

  lemma WaitAtLeast(u: Setup, e: real, f: FlowId, k: int, p: Point)
    requires Built(u, e) && P.ComputeRows(u.s, p) && P.Placed(u.s, p) && f in u.s.cp.flows && 1 <= k <= u.s.cp.maxComponents
    ensures WaitTerm(R.ProblemOf(u.s, f), p)(k) >= StageWait(u, f)(k)
  {
    hide P.ComputeRows, P.Placed, R.WellPosed, FlowMatches, X.FlowMatches, GeometricGrid, P.LoadUpTo, P.PlacedMoment, R.Waiting;
    hide P.WaitsAtLeast;
    P.ComponentNotFaster(u.s, e, f, k, p);
    if k <= u.s.placementOf(f).last {
      var w, r := u.s.placementOf(f).workerOf(k), u.s.priorityOf(f, k);
      WaitingAtMost(p(ComponentQueueWait(f, k)), P.PlacedMoment(u.s, w), P.LoadUpTo(u.s, w, r - 1), P.LoadUpTo(u.s, w, r));
    }
  }

  // ----- the network

  lemma NetworkReady(u: Setup, e: real, required: bool, p: Point)
    requires AtRows(u, e, required, p)
    ensures X.AtPoint(u.n, e, p)
  {
    hide R.WellPosed, X.WellBuilt, P.FlowPlaced, X.FlowPlaced, X.TimesAtLeast, X.UplinkRows, SendingRows, FlowResponseRows;
    hide N.NetworkQueueRows, X.ResponsesTyped, MemoryRows, P.ComputeRows;
    forall f | f in u.n.problem.flows ensures X.FlowPlaced(u.n, f, p) && X.TimesAtLeast(u.n, f, p) {
      NetworkFlowReady(u, e, required, f, p);
    }
  }

  lemma NetworkFlowReady(u: Setup, e: real, required: bool, f: FlowId, p: Point)
    requires AtRows(u, e, required, p) && f in u.s.cp.flows
    ensures X.FlowPlaced(u.n, f, p) && X.TimesAtLeast(u.n, f, p)
  {
    hide R.WellPosed, X.UplinkRows, N.NetworkQueueRows, X.ResponsesTyped, MemoryRows, FlowResponseRows, P.WorkerQueueRows;
    hide R.ComponentAdmitted, Valid, Encodes, WellFormed, Domain, B.AllExecutionRows, TransitionRows, T.TransmissionRows;
    hide NB.Profiled, T.Sensible, Z.ShowsPriorities, AllCrossingRows, AssignmentRows, GeometricGrid;
    assert FlowMatches(u, f) && X.FlowMatches(u.n, f) && P.FlowRows(u.s, f, p) && P.FlowPlaced(u.s, f, p);
    assert SendingRows(u, f, p);
    forall cut | 1 <= cut < u.n.problem.maxComponents ensures NB.Placed(u.n.flowOf(f), u.n.links, p, u.n.placementOf(f), cut) {
      assert TransitionRows(R.ProblemOf(u.s, f), LinksOf(u), cut, p);
    }
    X.RowsBoundTimes(u.n, e, f, p);
  }

  lemma SendAtLeast(u: Setup, e: real, required: bool, f: FlowId, cut: int, p: Point)
    requires AtRows(u, e, required, p) && X.AtPoint(u.n, e, p) && f in u.s.cp.flows && 1 <= cut < u.s.cp.maxComponents
    ensures SendTerm(R.ProblemOf(u.s, f), p)(cut) >= StageSending(u, f)(cut)
  {
    hide R.WellPosed, X.AtPoint, P.ComputeRows, MemoryRows, SendingRows, FlowResponseRows, X.UplinkRows, GeometricGrid;
    hide N.CutRows, N.WorkerRows, T.Sensible, NB.Profiled, X.SentTime, X.SentLoad, P.Placed, X.RespondsAtLeast;
    assert FlowMatches(u, f) && X.FlowMatches(u.n, f);
    CutRowsOf(u, e, f, cut, p);
    if cut < u.s.placementOf(f).last {
      var w := u.s.placementOf(f).workerOf(cut);
      X.CutNotFaster(u.n, e, f, cut, p);
      SharedAtMost(p(TransmissionResponse(f, cut)), X.SentTime(u.n, f, cut, w), X.SentLoad(u.n, w));
    } else {
      NotNegative(u.n, f, cut, p);
    }
  }

  lemma CutRowsOf(u: Setup, e: real, f: FlowId, cut: int, p: Point)
    requires Built(u, e) && N.UsableLimits(u.n.problem.binLimits) && Y.NetworkAdmitted(u.n, p)
    requires f in u.s.cp.flows && 1 <= cut < u.s.cp.maxComponents
    ensures N.CutRows(u.n.problem, f, cut, p) && X.ResponsesTyped(u.n, f, cut, p)
  {
    hide R.WellPosed, X.UplinkRows, N.CutRows, N.WorkerRows, X.ResponsesTyped, T.Sensible, NB.Profiled, GeometricGrid;
    assert FlowMatches(u, f) && X.FlowMatches(u.n, f);
    var i :| 0 <= i < |u.n.problem.flows| && u.n.problem.flows[i] == f;
    assert N.CutRows(u.n.problem, u.n.problem.flows[i], cut, p);
  }

  lemma NotNegative(n: X.Network, f: FlowId, cut: int, p: Point)
    requires N.UsableLimits(n.problem.binLimits) && N.CutRows(n.problem, f, cut, p) && X.ResponsesTyped(n, f, cut, p)
    ensures p(TransmissionResponse(f, cut)) >= 0.0
  {
    hide N.SourceRows, N.TotalResponse;
    X.TotalIs(n.problem, f, cut, p);
    SumNonNegative(n.problem.workersByFlow(f), X.ResponseOf(f, cut, p));
  }

  // ----- latency

  lemma LinkDelayAt(u: Setup, f: FlowId, cut: int, a: WorkerId, b: WorkerId, p: Point)
    requires TransitionIsProduct(R.ProblemOf(u.s, f), LinksOf(u), cut, u.s.placementOf(f), p) && 1 <= cut
    requires a in u.s.cp.workersByFlow(f) && b in u.s.cp.workersByFlow(f)
    requires var pl := u.s.placementOf(f);
             cut < pl.last ==> (pl.workerOf(cut), pl.workerOf(cut + 1)) in LinksOf(u) && pl.workerOf(cut) != pl.workerOf(cut + 1)
    ensures var pl := u.s.placementOf(f);
            LinkDelay(R.ProblemOf(u.s, f), u.q, LinksOf(u), cut, a, p)(b)
            == if cut < pl.last && a == pl.workerOf(cut) && b == pl.workerOf(cut + 1) then StageDelay(u, f)(cut) else 0.0
  {
    if Arc(LinksOf(u), a, b) {
      var x := p(AdjacentWorkers(f, cut, a, b));
      assert x == 0.0 || x == 1.0;
    }
  }

  lemma SourceDelayAt(u: Setup, f: FlowId, cut: int, a: WorkerId, p: Point)
    requires var fp, pl := R.ProblemOf(u.s, f), u.s.placementOf(f);
             && WellFormed(fp) && Valid(fp, pl) && TransitionIsProduct(fp, LinksOf(u), cut, pl, p)
             && (cut < pl.last ==> (pl.workerOf(cut), pl.workerOf(cut + 1)) in LinksOf(u))
    requires 1 <= cut < u.s.cp.maxComponents && a in u.s.cp.workersByFlow(f)
    ensures SourceDelay(R.ProblemOf(u.s, f), u.q, LinksOf(u), cut, p)(a)
         == if cut < u.s.placementOf(f).last && a == u.s.placementOf(f).workerOf(cut) then StageDelay(u, f)(cut) else 0.0
  {
    hide Populated, WellFormedTopology, TransitionIsProduct, LinkDelay, StageDelay;
    var fp, pl := R.ProblemOf(u.s, f), u.s.placementOf(f);
    var g := LinkDelay(fp, u.q, LinksOf(u), cut, a, p);
    forall b | b in fp.workers
      ensures g(b) == if cut < pl.last && a == pl.workerOf(cut) && b == pl.workerOf(cut + 1) then StageDelay(u, f)(cut) else 0.0
    {
      LinkDelayAt(u, f, cut, a, b, p);
    }
    if cut < pl.last && a == pl.workerOf(cut) {
      SumSingle(fp.workers, g, pl.workerOf(cut + 1));
    } else {
      SumZero(fp.workers, g);
    }
  }

  lemma DelayAt(u: Setup, f: FlowId, cut: int, p: Point)
    requires WellFormed(R.ProblemOf(u.s, f)) && P.FlowPlaced(u.s, f, p) && 1 <= cut < u.s.cp.maxComponents
    requires TransitionRows(R.ProblemOf(u.s, f), LinksOf(u), cut, p)
    ensures DelayTerm(R.ProblemOf(u.s, f), u.q, LinksOf(u), p)(cut) == StageDelay(u, f)(cut)
  {
    hide SourceDelay, TransitionRows, TransitionIsProduct, Encodes, Z.ShowsPriorities, Populated, WellFormedTopology, StageDelay;
    var fp, pl := R.ProblemOf(u.s, f), u.s.placementOf(f);
    TransitionsExact(fp, LinksOf(u), cut, pl, p);
    forall a | a in fp.workers
      ensures SourceDelay(fp, u.q, LinksOf(u), cut, p)(a)
           == if cut < pl.last && a == pl.workerOf(cut) then StageDelay(u, f)(cut) else 0.0
    {
      SourceDelayAt(u, f, cut, a, p);
    }
    if cut < pl.last {
      SumSingle(fp.workers, SourceDelay(fp, u.q, LinksOf(u), cut, p), pl.workerOf(cut));
    } else {
      SumZero(fp.workers, SourceDelay(fp, u.q, LinksOf(u), cut, p));
      NoDelay(u, f, cut);
    }
  }

  lemma NoDelay(u: Setup, f: FlowId, cut: int)
    requires cut >= u.s.placementOf(f).last
    ensures StageDelay(u, f)(cut) == 0.0
  {
  }

  // ----- the theorem

  lemma TimesAreHeld(u: Setup, e: real, required: bool, f: FlowId, p: Point)
    requires AtRows(u, e, required, p) && f in u.s.cp.flows
    ensures TimesHold(u, f, p) && P.FlowPlaced(u.s, f, p) && WellFormed(R.ProblemOf(u.s, f))
  {
    hide R.WellPosed, X.WellBuilt, Y.NetworkAdmitted, MemoryRows, SendingRows, FlowResponseRows, P.WorkerQueueRows;
    hide R.ComponentAdmitted, W.PhysicalTime, WellFormed, P.FlowPlaced, Domain, StructureRows, B.AllExecutionRows, FlowMatches;
    assert P.FlowRows(u.s, f, p) && P.FlowPlaced(u.s, f, p);
    P.FlowIsReal(u.s, e, f, p);
    forall m, k, w | m in u.s.cp.modelsByFlow(f) && 1 <= k <= u.s.cp.maxComponents && w in u.s.cp.workersByFlow(f)
      ensures p(ExecutionTime(f, m, k, w)) >= W.PhysicalTime(R.ProfilesOf(u.s), u.s.placementOf(f), m, k, w) >= 0.0
    {
      P.RatesAndTimes(u.s, e, f, m, k, w);
    }
  }

  lemma TransitionsOf(u: Setup, e: real, required: bool, f: FlowId, p: Point)
    requires AtRows(u, e, required, p) && f in u.s.cp.flows
    ensures forall cut :: 1 <= cut < u.s.cp.maxComponents ==> TransitionRows(R.ProblemOf(u.s, f), LinksOf(u), cut, p)
    ensures FlowResponseRows(R.ProblemOf(u.s, f), u.q, LinksOf(u), required, p)
  {
    hide R.WellPosed, X.WellBuilt, Y.NetworkAdmitted, MemoryRows, FlowResponseRows, P.ComputeRows, TransitionRows;
    hide T.TransmissionRows, FlowMatches, P.Placed;
    assert SendingRows(u, f, p);
    var i :| 0 <= i < |u.s.cp.flows| && u.s.cp.flows[i] == f;
    assert Problems(u)[i] in Problems(u);
  }

  /**
   At every point of the rows the response time of a flow is at least the one of its placement in the queueing model. With
   the requirement rows, every placement that the solver may return meets its requirement there.
   */
  lemma ResponseNotFaster(u: Setup, e: real, required: bool, f: FlowId, p: Point)
    requires AtRows(u, e, required, p) && f in u.s.cp.flows
    ensures PlacedResponse(u, f) <= p(Var.ResponseTime(f))
    ensures required ==> PlacedResponse(u, f) <= u.q.required(f)
  {
    hide AtRows, BatchTerm, VariantTime, WaitTerm, SendTerm, DelayTerm, StageTime, StageWait, StageSending, StageDelay;
    hide TimesHold, P.FlowPlaced, WellFormed, TransitionRows, X.AtPoint, SumOver;
    var fp := R.ProblemOf(u.s, f);
    TimesAreHeld(u, e, required, f, p);
    NetworkReady(u, e, required, p);
    TransitionsOf(u, e, required, f, p);
    BatchAt(u, f, p);
    PlacedIsValid(u, f, p);
    ExecutionAtLeast(u, f, p);
    forall k | k in Components(u) ensures StageWait(u, f)(k) <= WaitTerm(fp, p)(k) { WaitOfRows(u, e, required, f, k, p); }
    SumMonotone(Components(u), StageWait(u, f), WaitTerm(fp, p));
    forall cut | cut in Cuts(u) ensures StageSending(u, f)(cut) <= SendTerm(fp, p)(cut) { SendAtLeast(u, e, required, f, cut, p); }
    SumMonotone(Cuts(u), StageSending(u, f), SendTerm(fp, p));
    forall cut | cut in Cuts(u) ensures DelayTerm(fp, u.q, LinksOf(u), p)(cut) == StageDelay(u, f)(cut) { DelayAt(u, f, cut, p); }
    SumCongruent(Cuts(u), DelayTerm(fp, u.q, LinksOf(u), p), StageDelay(u, f));
  }

  lemma PlacedIsValid(u: Setup, f: FlowId, p: Point)
    requires P.FlowPlaced(u.s, f, p)
    ensures Valid(R.ProblemOf(u.s, f), u.s.placementOf(f))
  {
    hide Valid, Encodes, Z.ShowsPriorities;
  }

  lemma WaitOfRows(u: Setup, e: real, required: bool, f: FlowId, k: int, p: Point)
    requires AtRows(u, e, required, p) && f in u.s.cp.flows && 1 <= k <= u.s.cp.maxComponents
    ensures WaitTerm(R.ProblemOf(u.s, f), p)(k) >= StageWait(u, f)(k)
  {
    hide Built, P.ComputeRows, P.Placed, Y.NetworkAdmitted, MemoryRows, SendingRows, FlowResponseRows, WaitTerm, StageWait;
    WaitAtLeast(u, e, f, k, p);
  }
}
