/** What the solver returns: every point of all rows encodes placements and priorities, those that are read back from it. */
module SolverAnswer {
  import opened Lp
  import opened Sums
  import opened BinLimits
  import opened Assignment
  import opened Structure
  import opened TensorCrossing
  import opened ResponseTime
  import opened ResponseMeaning
  import opened ResponseOptimal
  import opened Optimality
  import H = Memory
  import N = NetworkQueue
  import NB = NetworkBounds
  import P = PlacedWaits
  import R = RealPlacements
  import T = Transmission
  import W = WaitBounds
  import X = NetworkMeaning
  import Z = PlacementPoints

  /** The placement that the point encodes for the flow. */
  ghost function PlacementAt(s: R.Scenario, f: FlowId, p: Point): Placement
  {
    if exists pl :: Valid(R.ProblemOf(s, f), pl) && Encodes(R.ProblemOf(s, f), p, pl)
    then var pl :| Valid(R.ProblemOf(s, f), pl) && Encodes(R.ProblemOf(s, f), p, pl); pl
    else s.placementOf(f)
  }

  predicate ChoosesPriority(cpPriorities: int, f: FlowId, k: int, w: WorkerId, p: Point, r: int)
  {
    1 <= r <= cpPriorities && p(ComponentPriority(f, k, w, r)) == 1.0
  }

  /** The priority that the point chooses for a component on its worker. */
  ghost function PriorityAt(s: R.Scenario, f: FlowId, k: int, p: Point): int
  {
    var w := PlacementAt(s, f, p).workerOf(k);
    if exists r :: ChoosesPriority(s.cp.priorityCount, f, k, w, p, r)
    then var r :| ChoosesPriority(s.cp.priorityCount, f, k, w, p, r); r else 0
  }

  ghost function PlacementsAt(s: R.Scenario, p: Point): FlowId -> Placement
  {
    f => PlacementAt(s, f, p)
  }

  ghost function PrioritiesAt(s: R.Scenario, p: Point): (FlowId, int) -> int
  {
    (f, k) => PriorityAt(s, f, k, p)
  }

  /** The problem, with what the point encodes. */
  ghost function Answer(u: Setup, p: Point): Setup
  {
    u.(s := u.s.(placementOf := PlacementsAt(u.s, p), priorityOf := PrioritiesAt(u.s, p)),
       n := u.n.(placementOf := PlacementsAt(u.s, p)))
  }

  lemma PlacementRead(s: R.Scenario, f: FlowId, p: Point)
    requires P.FlowRows(s, f, p)
    ensures Valid(R.ProblemOf(s, f), PlacementAt(s, f, p)) && Encodes(R.ProblemOf(s, f), p, PlacementAt(s, f, p))
  {
    hide Valid, Encodes, WellFormed, Domain, AssignmentRows, AllCrossingRows;
    var pl := PlacementOfPoint(R.ProblemOf(s, f), p);
  }

  /** On the worker of a component exactly one priority is chosen, and none anywhere else. */
  lemma PriorityRead(s: R.Scenario, f: FlowId, k: int, w: WorkerId, r: int, p: Point)
    requires P.FlowRows(s, f, p) && 1 <= k <= s.cp.maxComponents && w in s.cp.workersByFlow(f) && 1 <= r <= s.cp.priorityCount
    ensures p(ComponentPriority(f, k, w, r))
         == Indicator(Z.Chosen(PlacementAt(s, f, p), Z.PrioritiesOf(PrioritiesAt(s, p), f), k, w, r))
  {
    hide Valid, Encodes, WellFormed, AssignmentRows, AllCrossingRows, PlacementAt;
    var fp, pl := R.ProblemOf(s, f), PlacementAt(s, f, p);
    PlacementRead(s, f, p);
    WorkerAtPoint(fp, p, pl, k, w);
    assert ComponentDomain(fp, p, k);
    var keys, g := Range(1, s.cp.priorityCount + 1), Assignment.PriorityAt(fp, k, w, p);
    forall q | q in keys ensures IsBinary(g(q)) { }
    BinarySum(keys, g);
    assert r in keys;
    if k <= pl.last && w == pl.workerOf(k) {
      var a :| a in keys && g(a) == 1.0 && forall q :: q in keys && q != a ==> g(q) == 0.0;
      assert ChoosesPriority(s.cp.priorityCount, f, k, w, p, a);
      forall q | 1 <= q <= s.cp.priorityCount && q != a ensures p(ComponentPriority(f, k, w, q)) == 0.0 {
        assert q in keys && g(q) == p(ComponentPriority(f, k, w, q));
      }
      OnlyPriority(s, f, k, w, p, a);
    }
  }

  lemma OnlyPriority(s: R.Scenario, f: FlowId, k: int, w: WorkerId, p: Point, a: int)
    requires w == PlacementAt(s, f, p).workerOf(k) && ChoosesPriority(s.cp.priorityCount, f, k, w, p, a)
    requires forall q :: 1 <= q <= s.cp.priorityCount && q != a ==> p(ComponentPriority(f, k, w, q)) == 0.0
    ensures PriorityAt(s, f, k, p) == a
  {
    hide PlacementAt;
  }

  lemma WorkerAtPoint(fp: FlowProblem, p: Point, pl: Placement, k: int, w: WorkerId)
    requires Encodes(fp, p, pl) && 1 <= k <= fp.maxComponents && w in fp.workers
    ensures p(ComponentWorker(fp.flow, k, w)) == Indicator(k <= pl.last && w == pl.workerOf(k))
  {
    assert EncodesWorkers(fp, p, pl, k);
  }

  /** Every point of all rows encodes the placements and priorities that are read back from it. */
  lemma AnswerIsPlaced(u: Setup, required: bool, p: Point)
    requires AllRows(u, required, p)
    ensures SameProblem(u, Answer(u, p)) && AllRows(Answer(u, p), required, p) && P.Placed(Answer(u, p).s, p)
  {
    hide AllRows, P.FlowRows, Valid, Encodes, PlacementAt, Z.Chosen;
    var v := Answer(u, p);
    assert SameProblem(u, v) && SameProblem(v, u);
    SameRows(v, u, required, p);
    forall f | f in u.s.cp.flows ensures P.FlowPlaced(v.s, f, p) {
      FlowRowsOf(u, required, f, p);
      AnswerFlow(u, f, p);
    }
  }

  lemma FlowRowsOf(u: Setup, required: bool, f: FlowId, p: Point)
    requires AllRows(u, required, p) && f in u.s.cp.flows
    ensures P.FlowRows(u.s, f, p)
  {
    hide P.FlowRows, P.WorkerQueueRows, R.ComponentAdmitted, MemoryRows, SendingRows, FlowResponseRows;
  }

  lemma AnswerFlow(u: Setup, f: FlowId, p: Point)
    requires P.FlowRows(u.s, f, p)
    ensures P.FlowPlaced(Answer(u, p).s, f, p)
  {
    hide P.FlowRows, Valid, Encodes, PlacementAt, Z.Chosen, PrioritiesAt;
    var v := Answer(u, p);
    PlacementRead(u.s, f, p);
    assert R.ProblemOf(v.s, f) == R.ProblemOf(u.s, f) && v.s.placementOf(f) == PlacementAt(u.s, f, p);
    forall k, w, r | 1 <= k <= u.s.cp.maxComponents && w in u.s.cp.workersByFlow(f) && 1 <= r <= u.s.cp.priorityCount
      ensures p(ComponentPriority(f, k, w, r))
           == Indicator(Z.Chosen(PlacementAt(u.s, f, p), Z.PrioritiesOf(PrioritiesAt(u.s, p), f), k, w, r))
    {
      PriorityRead(u.s, f, k, w, r, p);
    }
  }

  lemma AnswerIsBuilt(u: Setup, e: real, p: Point)
    requires Built(u, e)
    ensures Built(Answer(u, p), e)
  {
    hide PlacementAt, PrioritiesAt, T.Sensible, NB.Profiled, W.Prepared, GeometricGrid, WellFormed, Z.SingleSources;
    hide NB.IsNominalUpper, H.Sensible, N.UsableLimits;
    var v := Answer(u, p);
    assert R.ProfilesOf(v.s) == R.ProfilesOf(u.s);
    forall f | f in u.s.cp.flows ensures R.FlowWellPosed(v.s, f) && FlowMatches(v, f) && X.FlowMatches(v.n, f) {
      assert R.FlowWellPosed(u.s, f) && FlowMatches(u, f) && X.FlowMatches(u.n, f);
      assert R.ProblemOf(v.s, f) == R.ProblemOf(u.s, f);
    }
  }

  /** Placements b are possible, and their bounds leave room for the requirements if there are such. */
  ghost predicate Alternative(u: Setup, e: real, required: bool, b: Setup)
  {
    && Built(b, e) && SameProblem(u, b) && Possible(b)
    && (required ==> forall f :: f in b.s.cp.flows ==> Bound(b, e, f) <= b.q.required(f))
  }

  /**
   Whatever point the solver returns as an optimum of the mean response time, the placements read from it are possible,
   meet the requirements, and are within the factor 1 + e of every alternative in the queueing model.
   */
  lemma AnswerIsNearBest(u: Setup, e: real, required: bool, rate: FlowId -> real, p: Point)
    requires Built(u, e) && Rates(u, rate) && Minimal(u, required, CostAt(MeanResponse(u, rate)), p)
    ensures Possible(Answer(u, p))
    ensures required ==> forall f :: f in u.s.cp.flows ==> PlacedResponse(Answer(u, p), f) <= u.q.required(f)
    ensures forall b :: Alternative(u, e, required, b) ==>
              WeightedMean(u, rate, Placed(Answer(u, p))) <= (1.0 + e) * WeightedMean(u, rate, Placed(b))
  {
    hide Built, AllRows, P.Placed, Possible, Bound, PlacedResponse, WeightedMean, Rates, Answer, MeanResponse;
    var v := Answer(u, p);
    AnswerIsPlaced(u, required, p);
    AnswerIsBuilt(u, e, p);
    PointIsPossible(v, e, required, p);
    SameFlows(u, p);
    if required {
      forall f | f in u.s.cp.flows ensures PlacedResponse(v, f) <= u.q.required(f) { ResponseNotFaster(v, e, required, f, p); }
    }
    SameObjective(u, v, rate);
    forall q | AllRows(v, required, q) ensures CostAt(MeanResponse(v, rate))(p) <= CostAt(MeanResponse(v, rate))(q) {
      SameRows(u, v, required, q);
      SameCost(u, v, rate, p);
      SameCost(u, v, rate, q);
    }
    forall b | Alternative(u, e, required, b)
      ensures WeightedMean(u, rate, Placed(v)) <= (1.0 + e) * WeightedMean(u, rate, Placed(b))
    {
      SameTransitive(u, v, b);
      OptimumIsNearBest(v, b, e, required, rate, p);
      SameMean(u, v, rate, Placed(v));
      SameMean(u, v, rate, Placed(b));
    }
  }

  lemma SameFlows(u: Setup, p: Point)
    ensures Answer(u, p).s.cp == u.s.cp && Answer(u, p).q == u.q
  {
  }

  lemma SameTransitive(u: Setup, v: Setup, b: Setup)
    requires SameProblem(u, v) && SameProblem(u, b)
    ensures SameProblem(v, b)
  {
  }

  lemma SameMean(u: Setup, v: Setup, rate: FlowId -> real, g: FlowId -> real)
    requires SameProblem(u, v)
    ensures WeightedMean(u, rate, g) == WeightedMean(v, rate, g)
  {
    hide Weight;
    assert TotalRate(u, rate) == TotalRate(v, rate);
    forall f ensures WeightedTerm(u, rate, g)(f) == WeightedTerm(v, rate, g)(f) { SameWeight(u, v, rate, f); }
    SumCongruent(u.s.cp.flows, WeightedTerm(u, rate, g), WeightedTerm(v, rate, g));
  }

  lemma SameWeight(u: Setup, v: Setup, rate: FlowId -> real, f: FlowId)
    requires SameProblem(u, v)
    ensures Weight(u, rate, f) == Weight(v, rate, f)
  {
  }

  lemma SameCost(u: Setup, v: Setup, rate: FlowId -> real, p: Point)
    requires SameProblem(u, v)
    ensures CostAt(MeanResponse(u, rate))(p) == CostAt(MeanResponse(v, rate))(p)
  {
    hide WeightedMean;
    SameMean(u, v, rate, ResponseAt(p));
  }

  lemma SameObjective(u: Setup, v: Setup, rate: FlowId -> real)
    requires SameProblem(u, v) && Rates(u, rate)
    ensures Rates(v, rate)
  {
    assert TotalRate(u, rate) == TotalRate(v, rate);
  }
}
