/**
 The compute formulation against the placements themselves: the points of its rows are those of real placements,
 and a component waits at least as long as a non-preemptive priority queue under that placement's load.
 */
module PlacedWaits {
  import opened Lp
  import opened Sums
  import opened Seqs
  import opened Assignment
  import opened Structure
  import opened TensorCrossing
  import opened BinLimits
  import opened ExecutionQueue
  import opened WaitBounds
  import opened PlacementPoints
  import opened RealPlacements
  import opened WaitMeaning
  import B = BigM

  // ----- the load of a placement, without any row

  /** Component k of a flow runs on the worker at a priority of at most r. */
  predicate RunsOn(s: Scenario, f: FlowId, k: int, w: WorkerId, r: int)
  {
    1 <= k <= s.placementOf(f).last && s.placementOf(f).workerOf(k) == w && s.priorityOf(f, k) <= r
  }

  function Share(s: Scenario, f: FlowId, w: WorkerId, r: int): int -> real
  {
    k => if RunsOn(s, f, k, w, r) then s.cp.rate(f, s.placementOf(f).variant) * TimeOf(s, f, k, w) else 0.0
  }

  function FlowShare(s: Scenario, w: WorkerId, r: int): FlowId -> real
  {
    f => SumOver(Range(1, s.cp.maxComponents + 1), Share(s, f, w, r))
  }

  /** The utilization of a worker by all components that run there at the priorities 1, ..., r. */
  function LoadUpTo(s: Scenario, w: WorkerId, r: int): real
  {
    SumOver(s.cp.flows, FlowShare(s, w, r))
  }

  function MomentShare(s: Scenario, f: FlowId, w: WorkerId): int -> real
  {
    k => if 1 <= k <= s.placementOf(f).last && s.placementOf(f).workerOf(k) == w
         then Weighted(s.cp.rate(f, s.placementOf(f).variant), TimeOf(s, f, k, w)) else 0.0
  }

  function FlowMomentShare(s: Scenario, w: WorkerId): FlowId -> real
  {
    f => SumOver(Range(1, s.cp.maxComponents + 1), MomentShare(s, f, w))
  }

  /** The rate of each component that runs on the worker times the square of its time, summed up. */
  function PlacedMoment(s: Scenario, w: WorkerId): real
  {
    SumOver(s.cp.flows, FlowMomentShare(s, w))
  }

  lemma RelevantShare(s: Scenario, w: WorkerId, r: int)
    requires Real(s)
    ensures SumOver(Relevant(s.cp, w), FlowShare(s, w, r)) == LoadUpTo(s, w, r)
    ensures SumOver(Relevant(s.cp, w), FlowMomentShare(s, w)) == PlacedMoment(s, w)
  {
    hide Real, NoGaps, TimeOf, Weighted;
    var keys, c := Range(1, s.cp.maxComponents + 1), (f: FlowId) => w in s.cp.workersByFlow(f);
    forall f | f in s.cp.flows && !c(f) ensures FlowShare(s, w, r)(f) == 0.0 && FlowMomentShare(s, w)(f) == 0.0 {
      NotOnOthers(s, f, w);
      forall k | k in keys ensures Share(s, f, w, r)(k) == 0.0 && MomentShare(s, f, w)(k) == 0.0 {
        assert !(1 <= k <= s.placementOf(f).last && s.placementOf(f).workerOf(k) == w);
        assert !RunsOn(s, f, k, w, r);
      }
      SumZero(keys, Share(s, f, w, r));
      SumZero(keys, MomentShare(s, f, w));
    }
    FilterSum(s.cp.flows, c, FlowShare(s, w, r));
    FilterSum(s.cp.flows, c, FlowMomentShare(s, w));
  }

  lemma NotOnOthers(s: Scenario, f: FlowId, w: WorkerId)
    requires Real(s) && f in s.cp.flows && w !in s.cp.workersByFlow(f)
    ensures forall k :: 1 <= k <= s.placementOf(f).last ==> s.placementOf(f).workerOf(k) != w
  {
    hide NoGaps, B.Supported, Populated, ValidPriorities;
    assert RealFlow(s, f);
  }

  // ----- what the variables of a point add up to

  function RhoByComponent(f: FlowId, w: WorkerId, r: int, p: Point): int -> real
  {
    k => SumOver(Range(1, r + 1), RhoBar(f, k, w, p))
  }

  function RhoByFlow(cp: ComputeProblem, w: WorkerId, r: int, p: Point): FlowId -> real
  {
    f => SumOver(Range(1, cp.maxComponents + 1), RhoByComponent(f, w, r, p))
  }

  lemma FlowRhoUpTo(cp: ComputeProblem, f: FlowId, w: WorkerId, r: int, p: Point)
    ensures SumOver(Range(1, r + 1), PriorityRho(cp, f, w, p)) == RhoByFlow(cp, w, r, p)(f)
  {
    var components, priorities := Range(1, cp.maxComponents + 1), Range(1, r + 1);
    forall q | q in priorities
      ensures PriorityRho(cp, f, w, p)(q) == SumOver(components, ComponentRho(f, w, q, p))
    {
      SumCongruent(components, ComponentRho(f, w, q, p), (k: int) => p(PriorityClassUtilization(f, k, w, q)));
    }
    SumSwap(priorities, components, (q: int) => ComponentRho(f, w, q, p), (k: int) => RhoBar(f, k, w, p),
            PriorityRho(cp, f, w, p), RhoByComponent(f, w, r, p));
  }

  /** The utilization of the first r priorities, component by component. */
  lemma RhoComponentwise(cp: ComputeProblem, w: WorkerId, r: int, p: Point)
    ensures RhoUpTo(cp, w, r, p) == SumOver(Relevant(cp, w), RhoByFlow(cp, w, r, p))
  {
    hide Relevant, FlowRho, RhoByFlow;
    var priorities := Range(1, r + 1);
    var perPriority := (q: int) => (f: FlowId) => FlowRho(cp, f, w, q, p);
    forall q | q in priorities ensures ClassRho(cp, w, p)(q) == SumOver(Relevant(cp, w), perPriority(q)) {
      SumCongruent(Relevant(cp, w), perPriority(q), (f: FlowId) => FlowRho(cp, f, w, q, p));
    }
    forall f | f in Relevant(cp, w)
      ensures RhoByFlow(cp, w, r, p)(f) == SumOver(priorities, PriorityRho(cp, f, w, p))
    {
      FlowRhoUpTo(cp, f, w, r, p);
    }
    SumSwap(priorities, Relevant(cp, w), perPriority, (f: FlowId) => PriorityRho(cp, f, w, p),
            ClassRho(cp, w, p), RhoByFlow(cp, w, r, p));
  }

  // ----- the rows of the whole formulation, and the placement that a point encodes

  /** The point encodes the placement of the flow and the priorities of its components. */
  ghost predicate FlowPlaced(s: Scenario, f: FlowId, p: Point)
  {
    && Valid(ProblemOf(s, f), s.placementOf(f)) && Encodes(ProblemOf(s, f), p, s.placementOf(f))
    && ShowsPriorities(ProblemOf(s, f), s.placementOf(f), PrioritiesOf(s.priorityOf, f), p)
  }

  /** The variable types, structural rows and execution rows of one flow. */
  ghost predicate FlowRows(s: Scenario, f: FlowId, p: Point)
  {
    var fp := ProblemOf(s, f);
    WellFormed(fp) && Domain(fp, p) && StructureRows(fp, p) && B.AllExecutionRows(fp, DataOf(s, f), p)
  }

  ghost predicate WorkerQueueRows(s: Scenario, w: WorkerId, p: Point)
  {
    && WorkerRows(s.cp, w, p)
    && forall r :: 1 <= r <= s.cp.priorityCount ==> CompactQueueRows(s.cp, w, r, p) && QueueBounds(s.cp, w, r, p)
  }

  /** All rows and bounds of the compute formulation. They do not mention the placements of the scenario. */
  ghost predicate ComputeRows(s: Scenario, p: Point)
  {
    && (forall f :: f in s.cp.flows ==> FlowRows(s, f, p))
    && (forall w :: w in s.cp.workers ==> WorkerQueueRows(s, w, p))
    && (forall f, k :: f in s.cp.flows && 1 <= k <= s.cp.maxComponents ==> ComponentAdmitted(s, f, k, p))
  }

  ghost predicate Placed(s: Scenario, p: Point)
  {
    forall f :: f in s.cp.flows ==> FlowPlaced(s, f, p)
  }

  // ----- execution times at least the real ones

  ghost predicate TimesAtLeast(s: Scenario, f: FlowId, w: WorkerId, p: Point)
  {
    forall m, k :: m in s.cp.modelsByFlow(f) && 1 <= k <= s.cp.maxComponents ==>
      p(ExecutionTime(f, m, k, w)) >= PhysicalTime(ProfilesOf(s), s.placementOf(f), m, k, w)
  }

  ghost predicate TimesAre(s: Scenario, f: FlowId, w: WorkerId, p: Point)
  {
    forall m, k :: m in s.cp.modelsByFlow(f) && 1 <= k <= s.cp.maxComponents ==>
      p(ExecutionTime(f, m, k, w)) == PhysicalTime(ProfilesOf(s), s.placementOf(f), m, k, w)
  }

  /** The priority choices of the flow on one worker are those of the scenario, and shares follow them. */
  ghost predicate ChoicesAre(s: Scenario, f: FlowId, w: WorkerId, p: Point)
  {
    forall k, r :: 1 <= k <= s.cp.maxComponents && 1 <= r <= s.cp.priorityCount ==>
      p(ComponentPriority(f, k, w, r)) == Indicator(Chosen(s.placementOf(f), PrioritiesOf(s.priorityOf, f), k, w, r))
  }

  lemma RatesAndTimes(s: Scenario, e: real, f: FlowId, m: ModelVariantId, k: int, w: WorkerId)
    requires WellPosed(s, e)
    ensures s.cp.rate(f, m) >= 0.0 && PhysicalTime(ProfilesOf(s), s.placementOf(f), m, k, w) >= 0.0
  {
    hide FlowWellPosed, GeometricGrid, PhysicalTime, WaitBoundOf, MaxOver, WaitBound;
    TimesNonNegative(s.cp, ProfilesOf(s), s.placementOf(f), m, k, w);
  }

  lemma LoadAtLeast(s: Scenario, e: real, f: FlowId, k: int, w: WorkerId, m: ModelVariantId, p: Point)
    requires WellPosed(s, e) && TimesAtLeast(s, f, w, p) && 1 <= k <= s.cp.maxComponents && m in s.cp.modelsByFlow(f)
    ensures Load(s.cp, f, k, w, p)(m) >= 0.0
    ensures m == s.placementOf(f).variant ==> Load(s.cp, f, k, w, p)(m) >= ClassDemand(s, f, w)(k)
    ensures TimesAre(s, f, w, p) ==>
              Load(s.cp, f, k, w, p)(m) == if m == s.placementOf(f).variant then ClassDemand(s, f, w)(k) else 0.0
  {
    hide WellPosed, PhysicalTime;
    RatesAndTimes(s, e, f, m, k, w);
    OnlyOwnVariant(ProfilesOf(s), s.placementOf(f), m, k, w);
    Scale(s.cp.rate(f, m), 0.0, p(ExecutionTime(f, m, k, w)));
    var rate, t := s.cp.rate(f, m), PhysicalTime(ProfilesOf(s), s.placementOf(f), m, k, w);
    Scale(rate, t, p(ExecutionTime(f, m, k, w)));
    if TimesAre(s, f, w, p) {
      assert p(ExecutionTime(f, m, k, w)) == t;
      assert Load(s.cp, f, k, w, p)(m) == rate * t;
    }
  }

  /** A component loads its worker with at least its rate times its real time. */
  lemma ClassAtLeast(s: Scenario, e: real, f: FlowId, k: int, w: WorkerId, p: Point)
    requires WellPosed(s, e) && TimesAtLeast(s, f, w, p) && 1 <= k <= s.cp.maxComponents
    requires Distinct(s.cp.modelsByFlow(f)) && s.placementOf(f).variant in s.cp.modelsByFlow(f)
    ensures ClassUtilization(s.cp, f, k, w, p) >= ClassDemand(s, f, w)(k)
    ensures TimesAre(s, f, w, p) ==> ClassUtilization(s.cp, f, k, w, p) == ClassDemand(s, f, w)(k)
  {
    hide WellPosed, TimesAre, TimesAtLeast, Distinct, Load, ClassDemand;
    var models, v := s.cp.modelsByFlow(f), s.placementOf(f).variant;
    forall m | m in models
      ensures Load(s.cp, f, k, w, p)(m) >= 0.0
      ensures m == v ==> Load(s.cp, f, k, w, p)(m) >= ClassDemand(s, f, w)(k)
      ensures TimesAre(s, f, w, p) ==> Load(s.cp, f, k, w, p)(m) == if m == v then ClassDemand(s, f, w)(k) else 0.0
    {
      LoadAtLeast(s, e, f, k, w, m, p);
    }
    TermAtMostSum(models, Load(s.cp, f, k, w, p), v);
    if TimesAre(s, f, w, p) { SumSingle(models, Load(s.cp, f, k, w, p), v); }
  }

  ghost predicate FlowLoaded(s: Scenario, f: FlowId, w: WorkerId, p: Point)
  {
    && TimesAtLeast(s, f, w, p) && ChoicesAre(s, f, w, p)
    && Distinct(s.cp.modelsByFlow(f)) && s.placementOf(f).variant in s.cp.modelsByFlow(f)
    && s.placementOf(f).last <= s.cp.maxComponents
    && ValidPriorities(ProblemOf(s, f), s.placementOf(f), PrioritiesOf(s.priorityOf, f))
  }

  /** A component adds to the first r priorities what it demands of the worker, if it runs there at one of them. */
  lemma ShareAtLeast(s: Scenario, e: real, f: FlowId, k: int, w: WorkerId, r: int, p: Point)
    requires WellPosed(s, e) && FlowLoaded(s, f, w, p) && 1 <= k <= s.cp.maxComponents && 0 <= r <= s.cp.priorityCount
    requires ClassRows(s.cp, f, k, w, p) && ClassDomain(s.cp, f, k, w, p)
    ensures RhoByComponent(f, w, r, p)(k) >= Share(s, f, w, r)(k)
    ensures TimesAre(s, f, w, p) ==> RhoByComponent(f, w, r, p)(k) == Share(s, f, w, r)(k)
  {
    hide WellPosed, ClassRows, ClassUtilization, TimeOf, TimesAre, TimesAtLeast, Distinct;
    ClassAtLeast(s, e, f, k, w, p);
    UtilizationFollowsChoice(s.cp, f, k, w, p);
    var keys := Range(1, r + 1);
    if RunsOn(s, f, k, w, r) {
      assert PrioritiesOf(s.priorityOf, f)(k) == s.priorityOf(f, k);
      forall q | q in keys && q != s.priorityOf(f, k) ensures RhoBar(f, k, w, p)(q) == 0.0 { }
      SumSingle(keys, RhoBar(f, k, w, p), s.priorityOf(f, k));
    } else {
      forall q | q in keys ensures RhoBar(f, k, w, p)(q) == 0.0 { }
      SumZero(keys, RhoBar(f, k, w, p));
    }
  }

  lemma FlowShareAtLeast(s: Scenario, e: real, f: FlowId, w: WorkerId, r: int, p: Point)
    requires WellPosed(s, e) && FlowLoaded(s, f, w, p) && 0 <= r <= s.cp.priorityCount
    requires ClassesOk(s.cp, w, p) && f in Relevant(s.cp, w)
    ensures RhoByFlow(s.cp, w, r, p)(f) >= FlowShare(s, w, r)(f)
    ensures TimesAre(s, f, w, p) ==> RhoByFlow(s.cp, w, r, p)(f) == FlowShare(s, w, r)(f)
  {
    hide WellPosed, FlowLoaded, ClassRows, ClassDomain, TimesAre, Relevant;
    var keys := Range(1, s.cp.maxComponents + 1);
    forall k | k in keys
      ensures RhoByComponent(f, w, r, p)(k) >= Share(s, f, w, r)(k)
      ensures TimesAre(s, f, w, p) ==> RhoByComponent(f, w, r, p)(k) == Share(s, f, w, r)(k)
    {
      ShareAtLeast(s, e, f, k, w, r, p);
    }
    SumMonotone(keys, Share(s, f, w, r), RhoByComponent(f, w, r, p));
    if TimesAre(s, f, w, p) { SumCongruent(keys, Share(s, f, w, r), RhoByComponent(f, w, r, p)); }
  }

  ghost predicate WorkerLoaded(s: Scenario, w: WorkerId, p: Point)
  {
    ClassesOk(s.cp, w, p) && forall f :: f in Relevant(s.cp, w) ==> FlowLoaded(s, f, w, p)
  }

  ghost predicate AllTimesAre(s: Scenario, w: WorkerId, p: Point)
  {
    forall f :: f in Relevant(s.cp, w) ==> TimesAre(s, f, w, p)
  }

  /** The utilization of the first r priorities is at least the placed load, and equal to it at the real times. */
  lemma RhoAtLeast(s: Scenario, e: real, w: WorkerId, r: int, p: Point)
    requires WellPosed(s, e) && Real(s) && WorkerLoaded(s, w, p) && 0 <= r <= s.cp.priorityCount
    ensures RhoUpTo(s.cp, w, r, p) >= LoadUpTo(s, w, r)
    ensures AllTimesAre(s, w, p) ==> RhoUpTo(s.cp, w, r, p) == LoadUpTo(s, w, r)
  {
    hide WellPosed, Real, FlowLoaded, ClassesOk, TimesAre, Relevant, RhoUpTo, LoadUpTo, FlowShare, RhoByFlow;
    var relevant := Relevant(s.cp, w);
    forall f | f in relevant
      ensures RhoByFlow(s.cp, w, r, p)(f) >= FlowShare(s, w, r)(f)
      ensures TimesAre(s, f, w, p) ==> RhoByFlow(s.cp, w, r, p)(f) == FlowShare(s, w, r)(f)
    {
      FlowShareAtLeast(s, e, f, w, r, p);
    }
    SumMonotone(relevant, FlowShare(s, w, r), RhoByFlow(s.cp, w, r, p));
    if AllTimesAre(s, w, p) { SumCongruent(relevant, FlowShare(s, w, r), RhoByFlow(s.cp, w, r, p)); }
    RhoComponentwise(s.cp, w, r, p);
    RelevantShare(s, w, r);
  }

  // ----- the second moment

  lemma WeightedMonotone(rate: real, x: real, y: real)
    requires rate >= 0.0 && 0.0 <= x <= y
    ensures 0.0 <= Weighted(rate, x) <= Weighted(rate, y)
  {
    SquareMonotone(x, y);
    Scale(rate, x * x, y * y);
    Scale(x, 0.0, x);
    Scale(rate, 0.0, x * x);
    assert rate * x * x == rate * (x * x) && rate * y * y == rate * (y * y);
  }

  lemma MomentTermAtLeast(s: Scenario, e: real, f: FlowId, k: int, w: WorkerId, p: Point)
    requires WellPosed(s, e) && FlowLoaded(s, f, w, p) && 1 <= k <= s.cp.maxComponents
    ensures MomentIn(s.cp, f, s.placementOf(f).variant, w, p)(k) >= MomentShare(s, f, w)(k)
    ensures TimesAre(s, f, w, p) ==> MomentIn(s.cp, f, s.placementOf(f).variant, w, p)(k) == MomentShare(s, f, w)(k)
  {
    hide WellPosed, ChoicesAre, ValidPriorities, Distinct;
    var v := s.placementOf(f).variant;
    RatesAndTimes(s, e, f, v, k, w);
    WeightedMonotone(s.cp.rate(f, v), TimeOf(s, f, k, w), p(ExecutionTime(f, v, k, w)));
    WeightedIsSquare(s.cp.rate(f, v), p(ExecutionTime(f, v, k, w)));
  }

  lemma OtherMoments(s: Scenario, e: real, f: FlowId, m: ModelVariantId, w: WorkerId, p: Point)
    requires WellPosed(s, e) && FlowLoaded(s, f, w, p) && m in s.cp.modelsByFlow(f)
    ensures ModelMoment(s.cp, f, w, p)(m) >= 0.0
    ensures TimesAre(s, f, w, p) && m != s.placementOf(f).variant ==> ModelMoment(s.cp, f, w, p)(m) == 0.0
  {
    hide WellPosed, ChoicesAre, ValidPriorities, Distinct, ModelMoment, PhysicalTime;
    var keys := Range(1, s.cp.maxComponents + 1);
    ModelMomentIs(s.cp, f, m, w, p);
    forall k | k in keys ensures MomentIn(s.cp, f, m, w, p)(k) >= 0.0 {
      RatesAndTimes(s, e, f, m, k, w);
      WeightedNonNegative(s.cp.rate(f, m), p(ExecutionTime(f, m, k, w)));
    }
    SumNonNegative(keys, MomentIn(s.cp, f, m, w, p));
    if TimesAre(s, f, w, p) && m != s.placementOf(f).variant {
      forall k | k in keys ensures MomentIn(s.cp, f, m, w, p)(k) == 0.0 {
        OnlyOwnVariant(ProfilesOf(s), s.placementOf(f), m, k, w);
      }
      SumZero(keys, MomentIn(s.cp, f, m, w, p));
    }
  }

  lemma FlowMomentAtLeast(s: Scenario, e: real, f: FlowId, w: WorkerId, p: Point)
    requires WellPosed(s, e) && FlowLoaded(s, f, w, p)
    ensures FlowMoment(s.cp, w, p)(f) >= FlowMomentShare(s, w)(f)
    ensures TimesAre(s, f, w, p) ==> FlowMoment(s.cp, w, p)(f) == FlowMomentShare(s, w)(f)
  {
    hide WellPosed, TimesAre, TimesAtLeast, ChoicesAre, ValidPriorities, Distinct, ModelMoment, MomentIn, MomentShare;
    var keys, v, models := Range(1, s.cp.maxComponents + 1), s.placementOf(f).variant, s.cp.modelsByFlow(f);
    forall k | k in keys
      ensures MomentIn(s.cp, f, v, w, p)(k) >= MomentShare(s, f, w)(k)
      ensures TimesAre(s, f, w, p) ==> MomentIn(s.cp, f, v, w, p)(k) == MomentShare(s, f, w)(k)
    {
      MomentTermAtLeast(s, e, f, k, w, p);
    }
    ModelMomentIs(s.cp, f, v, w, p);
    SumMonotone(keys, MomentShare(s, f, w), MomentIn(s.cp, f, v, w, p));
    forall m | m in models
      ensures ModelMoment(s.cp, f, w, p)(m) >= 0.0
      ensures TimesAre(s, f, w, p) && m != v ==> ModelMoment(s.cp, f, w, p)(m) == 0.0
    {
      OtherMoments(s, e, f, m, w, p);
    }
    TermAtMostSum(models, ModelMoment(s.cp, f, w, p), v);
    if TimesAre(s, f, w, p) {
      SumCongruent(keys, MomentShare(s, f, w), MomentIn(s.cp, f, v, w, p));
      SumSingle(models, ModelMoment(s.cp, f, w, p), v);
    }
  }

  /** The second moment of the rows is at least that of the placement, and equal to it at the real times. */
  lemma MomentAtLeast(s: Scenario, e: real, w: WorkerId, p: Point)
    requires WellPosed(s, e) && Real(s) && WorkerLoaded(s, w, p)
    ensures SecondMoment(s.cp, w, p) >= PlacedMoment(s, w)
    ensures AllTimesAre(s, w, p) ==> SecondMoment(s.cp, w, p) == PlacedMoment(s, w)
  {
    hide WellPosed, Real, FlowLoaded, ClassesOk, TimesAre, Relevant, FlowMoment, FlowMomentShare, PlacedMoment;
    var relevant := Relevant(s.cp, w);
    forall f | f in relevant
      ensures FlowMoment(s.cp, w, p)(f) >= FlowMomentShare(s, w)(f)
      ensures TimesAre(s, f, w, p) ==> FlowMoment(s.cp, w, p)(f) == FlowMomentShare(s, w)(f)
    {
      FlowMomentAtLeast(s, e, f, w, p);
    }
    SumMonotone(relevant, FlowMomentShare(s, w), FlowMoment(s.cp, w, p));
    if AllTimesAre(s, w, p) { SumCongruent(relevant, FlowMomentShare(s, w), FlowMoment(s.cp, w, p)); }
    RelevantShare(s, w, 0);
  }

  // ----- what a point of the rows encodes is a real placement

  lemma FlowIsReal(s: Scenario, e: real, f: FlowId, p: Point)
    requires WellPosed(s, e) && f in s.cp.flows && FlowRows(s, f, p) && FlowPlaced(s, f, p)
    requires forall k :: 1 <= k <= s.cp.maxComponents ==> ComponentAdmitted(s, f, k, p)
    ensures RealFlow(s, f)
    ensures forall m, k, w :: m in s.cp.modelsByFlow(f) && 1 <= k <= s.cp.maxComponents && w in s.cp.workersByFlow(f) ==>
              p(ExecutionTime(f, m, k, w)) >= PhysicalTime(ProfilesOf(s), s.placementOf(f), m, k, w)
  {
    hide Valid, Encodes, WellFormed, WellPosed, Domain, StructureRows, B.AllExecutionRows, B.Supported, ComponentAdmitted;
    hide PhysicalTime, B.PhysicalTime, ValidPriorities, ShowsPriorities;
    var fp, pl := ProblemOf(s, f), s.placementOf(f);
    TimesNotNegative(s, e, f);
    B.ExecutionExact(fp, DataOf(s, f), p, pl);
    PrioritiesAreValid(s, f, p);
    forall m, k, w | m in s.cp.modelsByFlow(f) && 1 <= k <= s.cp.maxComponents && w in s.cp.workersByFlow(f)
      ensures p(ExecutionTime(f, m, k, w)) >= PhysicalTime(ProfilesOf(s), pl, m, k, w)
    {
      TimesAgree(s, f, m, k, w);
      assert p(ExecutionTime(f, m, k, w)) >= B.PhysicalTime(fp, DataOf(s, f), pl, m, k, w);
    }
  }

  /** A component without a valid priority would have no choice at all, although its worker is chosen. */
  lemma PrioritiesAreValid(s: Scenario, f: FlowId, p: Point)
    requires FlowPlaced(s, f, p) && forall k :: 1 <= k <= s.cp.maxComponents ==> ComponentAdmitted(s, f, k, p)
    ensures ValidPriorities(ProblemOf(s, f), s.placementOf(f), PrioritiesOf(s.priorityOf, f))
  {
    hide Populated, RhoBarRow, ClassUtilization, ComponentWaitRows, ComponentBounds;
    var pl, keys := s.placementOf(f), Range(1, s.cp.priorityCount + 1);
    forall k | 1 <= k <= pl.last ensures 1 <= PrioritiesOf(s.priorityOf, f)(k) <= s.cp.priorityCount {
      var w := pl.workerOf(k);
      assert EncodesWorkers(ProblemOf(s, f), p, pl, k) && ComponentAdmitted(s, f, k, p);
      assert ClassRows(s.cp, f, k, w, p);
      if !(1 <= PrioritiesOf(s.priorityOf, f)(k) <= s.cp.priorityCount) {
        forall r | r in keys ensures Choice(f, k, w, p)(r) == 0.0 { }
        SumZero(keys, Choice(f, k, w, p));
        assert false;
      }
    }
  }

  lemma WorkerIsLoaded(s: Scenario, e: real, w: WorkerId, p: Point)
    requires WellPosed(s, e) && ComputeRows(s, p) && Placed(s, p)
    ensures WorkerLoaded(s, w, p)
  {
    hide Valid, Encodes, WellFormed, Domain, FlowRows, WorkerQueueRows, RealFlow, GeometricGrid, Prepared;
    hide ComponentWaitRows, ClassRows, ClassDomain, FlowLoaded, FlowPlaced;
    forall f | f in Relevant(s.cp, w) ensures FlowLoaded(s, f, w, p) { FlowIsLoaded(s, e, f, w, p); }
    forall f, k | f in Relevant(s.cp, w) && 1 <= k <= s.cp.maxComponents
      ensures ClassRows(s.cp, f, k, w, p) && ClassDomain(s.cp, f, k, w, p)
    {
      assert ComponentAdmitted(s, f, k, p);
      ClassIsTyped(s, f, k, w, p);
    }
  }

  lemma ClassIsTyped(s: Scenario, f: FlowId, k: int, w: WorkerId, p: Point)
    requires FlowPlaced(s, f, p) && ComponentBounds(s.cp, f, k, p)
    requires w in s.cp.workersByFlow(f) && 1 <= k <= s.cp.maxComponents
    ensures ClassDomain(s.cp, f, k, w, p)
  {
    hide Valid, ShowsPriorities;
    assert EncodesWorkers(ProblemOf(s, f), p, s.placementOf(f), k);
    forall r | 1 <= r <= s.cp.priorityCount
      ensures IsBinary(p(ComponentPriority(f, k, w, r))) && p(PriorityClassUtilization(f, k, w, r)) >= 0.0
    {
      assert ShareBounds(s.cp, f, k, w, r, p);
    }
  }

  lemma FlowIsLoaded(s: Scenario, e: real, f: FlowId, w: WorkerId, p: Point)
    requires WellPosed(s, e) && ComputeRows(s, p) && Placed(s, p) && f in Relevant(s.cp, w)
    ensures FlowLoaded(s, f, w, p)
  {
    hide Encodes, Domain, StructureRows, WorkerQueueRows, GeometricGrid, Prepared, ComponentAdmitted, B.AllExecutionRows;
    hide PhysicalTime, B.Supported, SingleSources, WellFormedTopology, Populated;
    assert FlowPlaced(s, f, p) && FlowRows(s, f, p) && FlowWellPosed(s, f);
    FlowIsReal(s, e, f, p);
  }

  /** The rows keep the utilization of a worker by a placement within the limit. */
  lemma DemandIsWithin(s: Scenario, e: real, w: WorkerId, p: Point)
    requires WellPosed(s, e) && WorkerLoaded(s, w, p) && WorkerRows(s.cp, w, p)
    ensures Demand(s, w) <= s.cp.utilizationLimit
  {
    hide WellPosed, ClassesOk, UsageRows, QueueRows, ClassUtilization, ClassDemand, Relevant, FlowLoaded;
    var keys := Range(1, s.cp.maxComponents + 1);
    forall f | f in Relevant(s.cp, w) ensures FlowDemand(s, w)(f) <= FlowUtilization(s.cp, w, p)(f) {
      var g := (k: int) => ClassUtilization(s.cp, f, k, w, p);
      forall k | k in keys ensures ClassDemand(s, f, w)(k) <= g(k) {
        assert FlowLoaded(s, f, w, p);
        ClassOfLoaded(s, e, f, k, w, p);
      }
      SumMonotone(keys, ClassDemand(s, f, w), g);
      SumCongruent(keys, g, (k: int) => ClassUtilization(s.cp, f, k, w, p));
    }
    SumMonotone(Relevant(s.cp, w), FlowDemand(s, w), FlowUtilization(s.cp, w, p));
  }

  lemma ClassOfLoaded(s: Scenario, e: real, f: FlowId, k: int, w: WorkerId, p: Point)
    requires WellPosed(s, e) && FlowLoaded(s, f, w, p) && 1 <= k <= s.cp.maxComponents
    ensures ClassUtilization(s.cp, f, k, w, p) >= ClassDemand(s, f, w)(k)
  {
    hide WellPosed, TimesAtLeast, ChoicesAre, ClassUtilization, ClassDemand;
    ClassAtLeast(s, e, f, k, w, p);
  }

  lemma TakenIsInUse(s: Scenario, w: WorkerId, r: int, p: Point)
    requires Placed(s, p) && w in s.cp.workers && 1 <= r <= s.cp.priorityCount && Taken(s, w, r)
    ensures InUse(s.cp, w, r, p)
  {
    hide Populated, Encodes;
    var f, k :| f in s.cp.flows && Chosen(s.placementOf(f), PrioritiesOf(s.priorityOf, f), k, w, r);
    assert FlowPlaced(s, f, p);
    assert f in Relevant(s.cp, w) && p(ComponentPriority(f, k, w, r)) == 1.0;
  }

  lemma InUseIsTaken(s: Scenario, w: WorkerId, r: int, p: Point)
    requires Placed(s, p) && w in s.cp.workers && 1 <= r <= s.cp.priorityCount && InUse(s.cp, w, r, p)
    ensures Taken(s, w, r)
  {
    hide Valid, Encodes;
    var f, k :| f in Relevant(s.cp, w) && 1 <= k <= s.cp.maxComponents && p(ComponentPriority(f, k, w, r)) == 1.0;
    assert FlowPlaced(s, f, p);
    assert Chosen(s.placementOf(f), PrioritiesOf(s.priorityOf, f), k, w, r);
  }

  lemma NoGapsAt(s: Scenario, w: WorkerId, p: Point)
    requires Placed(s, p) && WorkerLoaded(s, w, p) && w in s.cp.workers && WorkerQueueRows(s, w, p)
    ensures NoGaps(s, w)
  {
    hide Taken, InUse, QueueRows, CompactQueueRows, FlowPlaced, FlowLoaded, ClassRows, UsageRows, Relevant;
    forall f, k, r | f in Relevant(s.cp, w) && 1 <= k <= s.cp.maxComponents && 1 <= r <= s.cp.priorityCount
      ensures IsBinary(p(ComponentPriority(f, k, w, r)))
    {
      assert ClassDomain(s.cp, f, k, w, p);
    }
    forall r | 1 <= r < s.cp.priorityCount && Taken(s, w, r + 1) ensures Taken(s, w, r) {
      TakenIsInUse(s, w, r + 1, p);
      forall j | 1 <= j <= s.cp.priorityCount ensures UsedBounded(w, j, p) { assert QueueBounds(s.cp, w, j, p); }
      UsedPrefix(s.cp, w, r, r + 1, p);
      InUseIsTaken(s, w, r, p);
    }
  }

  /** What a point of the rows encodes is a real placement: supported, without a gap, within the utilization limit. */
  lemma PointIsReal(s: Scenario, e: real, p: Point)
    requires WellPosed(s, e) && ComputeRows(s, p) && Placed(s, p)
    ensures Real(s) && forall w :: WorkerLoaded(s, w, p)
  {
    hide WellPosed, FlowRows, FlowPlaced, ComponentAdmitted, WorkerLoaded, NoGaps, Demand, RealFlow, QueueBounds;
    hide WorkerRows, CompactQueueRows;
    forall f | f in s.cp.flows ensures RealFlow(s, f) { FlowIsReal(s, e, f, p); }
    forall w ensures WorkerLoaded(s, w, p) { WorkerIsLoaded(s, e, w, p); }
    forall w | w in s.cp.workers ensures NoGaps(s, w) && Demand(s, w) <= s.cp.utilizationLimit {
      assert WorkerQueueRows(s, w, p);
      NoGapsAt(s, w, p);
      DemandIsWithin(s, e, w, p);
    }
  }

  /** The placements that the rows admit are exactly the real ones. */
  lemma RowsAdmitExactlyReal(s: Scenario, e: real)
    requires WellPosed(s, e)
    ensures (exists p :: ComputeRows(s, p) && Placed(s, p)) <==> Real(s)
  {
    hide WellPosed, Real, ComputeRows, Placed;
    if exists p :: ComputeRows(s, p) && Placed(s, p) {
      var p :| ComputeRows(s, p) && Placed(s, p);
      PointIsReal(s, e, p);
    }
    if Real(s) {
      var p := RealIsPlaced(s, e, (x: Var) => 0.0);
    }
  }

  lemma RealIsPlaced(s: Scenario, e: real, z: Point) returns (p: Point)
    requires WellPosed(s, e) && Real(s)
    ensures p == RealPoint(s, z) && IsReal(s, p)
  {
    hide WellPosed, RealPoint, WorkerRows, CompactQueueRows, QueueBounds, HoldsRoundedWait, ComponentAdmitted, NoGaps;
    hide Demand, Valid, B.Supported, ValidPriorities, FlowAdmitted, WaitsInItsQueue, TimesAre, Domain, StructureRows, Encodes;
    p := RealPlacementHasPoint(s, e, z);
    forall f | f in s.cp.flows
      ensures FlowRows(s, f, p) && FlowPlaced(s, f, p)
      ensures forall w :: w in s.cp.workersByFlow(f) ==> TimesAre(s, f, w, p)
    {
      assert RealFlow(s, f);
      FlowAt(s, f, p);
    }
  }

  lemma FlowAt(s: Scenario, f: FlowId, p: Point)
    requires FlowAdmitted(s, f, p) && RealFlow(s, f)
    ensures FlowRows(s, f, p) && FlowPlaced(s, f, p)
    ensures forall w :: w in s.cp.workersByFlow(f) ==> TimesAre(s, f, w, p)
  {
    hide Valid, B.Supported, ValidPriorities, Domain, StructureRows, Encodes, WellFormed, B.AllExecutionRows, PhysicalTime;
    hide B.PhysicalTime, ShowsPriorities;
    forall m, k, w | m in s.cp.modelsByFlow(f) && 1 <= k <= s.cp.maxComponents && w in s.cp.workersByFlow(f)
      ensures p(ExecutionTime(f, m, k, w)) == PhysicalTime(ProfilesOf(s), s.placementOf(f), m, k, w)
    {
      TimesAgree(s, f, m, k, w);
    }
  }

  // ----- the wait of a non-preemptive priority queue under the placed load

  /** The wait is at least moment / (2 (1 - rho_lt) (1 - rho_le)), without the division. */
  predicate WaitsAtLeast(wait: real, rhoLt: real, rhoLe: real, moment: real)
  {
    moment <= wait * (2.0 * ((1.0 - rhoLt) * (1.0 - rhoLe)))
  }

  /** The wait is at most 1 + e times that. */
  predicate WaitsWithin(wait: real, rhoLt: real, rhoLe: real, moment: real, e: real)
  {
    wait * (2.0 * ((1.0 - rhoLt) * (1.0 - rhoLe))) <= (1.0 + e) * moment
  }

  lemma LighterQueue(wait: real, rhoLt: real, rhoLe: real, moment: real, lt: real, le: real, m: real)
    requires WaitsAtLeast(wait, rhoLt, rhoLe, moment) && wait >= 0.0
    requires lt <= rhoLt < 1.0 && le <= rhoLe < 1.0 && m <= moment
    ensures WaitsAtLeast(wait, lt, le, m)
  {
    var a, b, c, d := 1.0 - rhoLt, 1.0 - rhoLe, 1.0 - lt, 1.0 - le;
    Scale(b, a, c);
    Scale(c, b, d);
    Scale(wait, 2.0 * (a * b), 2.0 * (c * d));
  }

  lemma LongerWait(wait: real, least: real, rhoLt: real, rhoLe: real, moment: real)
    requires WaitsAtLeast(least, rhoLt, rhoLe, moment) && least <= wait && rhoLt < 1.0 && rhoLe < 1.0
    ensures WaitsAtLeast(wait, rhoLt, rhoLe, moment)
  {
    ScaleStrict(1.0 - rhoLt, 0.0, 1.0 - rhoLe);
    Scale(2.0 * ((1.0 - rhoLt) * (1.0 - rhoLe)), least, wait);
  }

  lemma PlacedMomentNotNegative(s: Scenario, e: real, w: WorkerId)
    requires WellPosed(s, e)
    ensures PlacedMoment(s, w) >= 0.0
  {
    hide WellPosed, TimeOf;
    var keys := Range(1, s.cp.maxComponents + 1);
    forall f | f in s.cp.flows ensures FlowMomentShare(s, w)(f) >= 0.0 {
      forall k | k in keys ensures MomentShare(s, f, w)(k) >= 0.0 {
        RatesAndTimes(s, e, f, s.placementOf(f).variant, k, w);
        WeightedNonNegative(s.cp.rate(f, s.placementOf(f).variant), TimeOf(s, f, k, w));
      }
      SumNonNegative(keys, MomentShare(s, f, w));
    }
    SumNonNegative(s.cp.flows, FlowMomentShare(s, w));
  }

  ghost predicate QueueReady(s: Scenario, e: real, w: WorkerId, r: int, p: Point)
  {
    && WellPosed(s, e) && Real(s) && WorkerLoaded(s, w, p) && WorkerQueueRows(s, w, p)
    && w in s.cp.workers && 1 <= r <= s.cp.priorityCount
  }

  lemma RhoBelowOne(s: Scenario, e: real, w: WorkerId, r: int, p: Point)
    requires QueueReady(s, e, w, r, p)
    ensures RhoUpTo(s.cp, w, r - 1, p) < 1.0 && RhoUpTo(s.cp, w, r, p) < 1.0
    ensures r == 1 ==> RhoUpTo(s.cp, w, r - 1, p) == 0.0
  {
    hide WellPosed, Real, FlowLoaded, ClassesOk, TotalUtilization, ClassRho, CompactQueueRows, QueueRows, UsageRows;
    LimitBelowOne(s, e);
    RhoWithinTotal(s.cp, w, r, p);
    RhoWithinTotal(s.cp, w, r - 1, p);
  }

  lemma LeastBetween(cp: ComputeProblem, e: real, w: WorkerId, r: int, p: Point)
    requires 0.0 < e && 0.0 < cp.utilizationLimit < 1.0 && GeometricGrid(cp.binLimits, cp.utilizationLimit, e)
    requires 1 <= r <= cp.priorityCount && RhoUpTo(cp, w, r, p) < 1.0 && SecondMoment(cp, w, p) >= 0.0
    requires r >= 2 ==> BinDomain(cp, w, r, p)
    requires QueueRows(cp, w, r, p) && (r == 1 ==> RhoUpTo(cp, w, r - 1, p) == 0.0)
    ensures (1.0 - RoundedRho(cp, w, r, p)) * (1.0 - RhoUpTo(cp, w, r, p)) > 0.0
    ensures LeastWait(cp, w, r, p) <= p(QueueWait(w, r))
    ensures WaitsAtLeast(LeastWait(cp, w, r, p), RhoUpTo(cp, w, r - 1, p), RhoUpTo(cp, w, r, p), SecondMoment(cp, w, p))
    ensures WaitsWithin(LeastWait(cp, w, r, p), RhoUpTo(cp, w, r - 1, p), RhoUpTo(cp, w, r, p), SecondMoment(cp, w, p), e)
  {
    hide RhoUpTo, SecondMoment, DiscretizationRows, BinDomain, ConeRow, LeastWait, RoundedRho, GeometricGrid;
    WaitWithinRelativeError(cp, e, w, r, p);
  }

  /** The relative error of one queue, at a point of the rows. */
  lemma QueueExact(s: Scenario, e: real, w: WorkerId, r: int, p: Point) returns (least: real)
    requires QueueReady(s, e, w, r, p) && 0.0 < e
    ensures least <= p(QueueWait(w, r))
    ensures HoldsRoundedWait(s.cp, w, r, p) ==> p(QueueWait(w, r)) == least
    ensures WaitsAtLeast(least, RhoUpTo(s.cp, w, r - 1, p), RhoUpTo(s.cp, w, r, p), SecondMoment(s.cp, w, p))
    ensures WaitsWithin(least, RhoUpTo(s.cp, w, r - 1, p), RhoUpTo(s.cp, w, r, p), SecondMoment(s.cp, w, p), e)
  {
    hide WellPosed, Real, RhoUpTo, SecondMoment, UsageRows, QueueRows, BinDomain, CompactQueueRows, WaitsAtLeast, WaitsWithin;
    hide LeastWait, RoundedRho, GeometricGrid, RoundedQueue, ClassesOk, FlowLoaded;
    RhoBelowOne(s, e, w, r, p);
    MomentAtLeast(s, e, w, p);
    PlacedMomentNotNegative(s, e, w);
    LimitBelowOne(s, e);
    assert QueueRows(s.cp, w, r, p) && QueueBounds(s.cp, w, r, p);
    LeastBetween(s.cp, e, w, r, p);
    Discretized(s.cp, w, r, p);
    least := LeastWait(s.cp, w, r, p);
    if HoldsRoundedWait(s.cp, w, r, p) {
      var bin :| RoundedQueue(s.cp, w, r, bin, p);
      RoundedIsLeast(s.cp, w, r, bin, p);
    }
  }

  lemma Discretized(cp: ComputeProblem, w: WorkerId, r: int, p: Point)
    requires QueueRows(cp, w, r, p)
    ensures r >= 2 ==> DiscretizationRows(cp, w, r, p)
  {
    hide DiscretizationRows, ConeRow, RhoUpTo;
  }

  lemma RoundedIsLeast(cp: ComputeProblem, w: WorkerId, r: int, bin: int, p: Point)
    requires RoundedQueue(cp, w, r, bin, p) && r >= 1
    requires r >= 2 ==> DiscretizationRows(cp, w, r, p) && BinDomain(cp, w, r, p)
    requires (1.0 - RoundedRho(cp, w, r, p)) * (1.0 - RhoUpTo(cp, w, r, p)) > 0.0
    ensures p(QueueWait(w, r)) == LeastWait(cp, w, r, p)
  {
    hide RhoUpTo, SecondMoment, DiscretizationRows, BinDomain, RoundedRho;
    if r >= 2 { BinUnique(cp, w, r, p, bin); } else { FirstIsExact(cp, w, r, p); }
    var c := 2.0 * ((1.0 - RoundedRho(cp, w, r, p)) * (1.0 - RhoUpTo(cp, w, r, p)));
    Quotients(p(QueueWait(w, r)), c, SecondMoment(cp, w, p));
  }

  lemma FirstIsExact(cp: ComputeProblem, w: WorkerId, r: int, p: Point)
    requires r < 2
    ensures RoundedRho(cp, w, r, p) == 0.0
  {
  }

  lemma Quotients(x: real, c: real, h: real)
    requires c > 0.0 && x * c == h
    ensures x == h / c
  {
    var y := h / c;
    assert y * c == h;
    if x < y { ScaleStrict(c, x, y); } else if y < x { ScaleStrict(c, y, x); }
  }

  /** A queue of the rows is never faster than a non-preemptive priority queue under the load of the placement. */
  lemma QueueNotFaster(s: Scenario, e: real, w: WorkerId, r: int, p: Point)
    requires QueueReady(s, e, w, r, p) && 0.0 < e
    ensures LoadUpTo(s, w, r) < 1.0
    ensures WaitsAtLeast(p(QueueWait(w, r)), LoadUpTo(s, w, r - 1), LoadUpTo(s, w, r), PlacedMoment(s, w))
    ensures AllTimesAre(s, w, p) && HoldsRoundedWait(s.cp, w, r, p) ==>
              WaitsWithin(p(QueueWait(w, r)), LoadUpTo(s, w, r - 1), LoadUpTo(s, w, r), PlacedMoment(s, w), e)
  {
    hide WellPosed, Real, RhoUpTo, SecondMoment, LoadUpTo, PlacedMoment, WaitsAtLeast, WaitsWithin, HoldsRoundedWait;
    hide WorkerRows, CompactQueueRows, ClassesOk, FlowLoaded, AllTimesAre;
    RhoBelowOne(s, e, w, r, p);
    RhoAtLeast(s, e, w, r - 1, p);
    RhoAtLeast(s, e, w, r, p);
    MomentAtLeast(s, e, w, p);
    var least := QueueExact(s, e, w, r, p);
    var lt, le := RhoUpTo(s.cp, w, r - 1, p), RhoUpTo(s.cp, w, r, p);
    LongerWait(p(QueueWait(w, r)), least, lt, le, SecondMoment(s.cp, w, p));
    assert QueueBounds(s.cp, w, r, p);
    LighterQueue(p(QueueWait(w, r)), lt, le, SecondMoment(s.cp, w, p),
                 LoadUpTo(s, w, r - 1), LoadUpTo(s, w, r), PlacedMoment(s, w));
  }

  // ----- the wait of a component

  lemma QueuesAreBounded(s: Scenario, e: real, f: FlowId, p: Point)
    requires WellPosed(s, e) && f in s.cp.flows
    requires forall w :: w in s.cp.workersByFlow(f) ==> WorkerQueueRows(s, w, p)
    ensures QueuesBounded(s.cp, f, p)
  {
    hide FlowWellPosed, GeometricGrid, WaitUpper, QueueBound, WorkerRows, WaitBound, Sensible, MaxOver;
    LimitBelowOne(s, e);
    forall v | v in s.cp.workersByFlow(f) ensures 0.0 <= s.cp.maxWaitOfWorker(v) <= s.cp.maxWaitOfFlow(f) {
      FlowBoundCovers(s.cp, ProfilesOf(s), f, v);
      assert QueueBounds(s.cp, v, 1, p);
    }
    forall v, q | v in s.cp.workersByFlow(f) && 1 <= q <= s.cp.priorityCount
      ensures 0.0 <= p(QueueWait(v, q)) <= QueueBound(s.cp, v, q)
    {
      assert CompactQueueRows(s.cp, v, q, p) && QueueBounds(s.cp, v, q, p);
      UpperIsBound(s.cp, v, q);
    }
  }

  lemma PlacedRunsAt(s: Scenario, e: real, f: FlowId, k: int, p: Point)
    requires Real(s) && FlowPlaced(s, f, p) && f in s.cp.flows && 1 <= k <= s.cp.maxComponents
    ensures k <= s.placementOf(f).last ==> RunsAt(s.cp, f, k, s.placementOf(f).workerOf(k), s.priorityOf(f, k), p)
    ensures k > s.placementOf(f).last ==> RunsNowhere(s.cp, f, k, p)
  {
    hide NoGaps, Populated, B.Supported, Demand, EncodesWorkers, EncodesVariant;
    assert RealFlow(s, f);
    assert PrioritiesOf(s.priorityOf, f)(k) == s.priorityOf(f, k);
  }

  /**
   At every point of the rows an active component waits at least as long as in a non-preemptive priority queue under
   the load that the placement puts on its worker, and an inactive component does not wait.
   */
  lemma ComponentNotFaster(s: Scenario, e: real, f: FlowId, k: int, p: Point)
    requires WellPosed(s, e) && 0.0 < e && ComputeRows(s, p) && Placed(s, p)
    requires f in s.cp.flows && 1 <= k <= s.cp.maxComponents
    ensures var w, r := s.placementOf(f).workerOf(k), s.priorityOf(f, k);
            k <= s.placementOf(f).last ==>
              && LoadUpTo(s, w, r - 1) < 1.0 && LoadUpTo(s, w, r) < 1.0
              && WaitsAtLeast(p(ComponentQueueWait(f, k)), LoadUpTo(s, w, r - 1), LoadUpTo(s, w, r), PlacedMoment(s, w))
    ensures k > s.placementOf(f).last ==> p(ComponentQueueWait(f, k)) == 0.0
  {
    hide FlowRows, FlowPlaced, WorkerQueueRows, ComponentWaitRows, ClassRows, Real, LoadUpTo, PlacedMoment, WorkerLoaded;
    hide WaitsAtLeast, QueuesBounded, RunsAt, RunsNowhere, WellFormed, Prepared, GeometricGrid, Distinct, SingleSources;
    PointIsReal(s, e, p);
    assert FlowWellPosed(s, f) && ComponentAdmitted(s, f, k, p) && FlowPlaced(s, f, p);
    QueuesAreBounded(s, e, f, p);
    PlacedRunsAt(s, e, f, k, p);
    var w, r := s.placementOf(f).workerOf(k), s.priorityOf(f, k);
    if k <= s.placementOf(f).last {
      ComponentPlaced(s, e, f, k);
      QueueNotFaster(s, e, w, r, p);
      WorkersDistinct(s, f);
      ActiveWaitExact(s.cp, f, k, w, r, p);
      LoadsBelowOne(s, e, w, r, p);
      LongerWait(p(ComponentQueueWait(f, k)), p(QueueWait(w, r)), LoadUpTo(s, w, r - 1), LoadUpTo(s, w, r),
                 PlacedMoment(s, w));
    } else {
      InactiveWaitExact(s.cp, f, k, p);
    }
  }

  lemma WorkersDistinct(s: Scenario, f: FlowId)
    requires FlowWellPosed(s, f)
    ensures Distinct(s.cp.workersByFlow(f))
  {
    hide WellFormedTopology, SingleSources;
  }

  lemma LoadsBelowOne(s: Scenario, e: real, w: WorkerId, r: int, p: Point)
    requires QueueReady(s, e, w, r, p)
    ensures LoadUpTo(s, w, r - 1) < 1.0 && LoadUpTo(s, w, r) < 1.0
  {
    hide WellPosed, Real, RhoUpTo, LoadUpTo, WorkerRows, CompactQueueRows, ClassesOk, FlowLoaded, QueueBounds;
    RhoBelowOne(s, e, w, r, p);
    RhoAtLeast(s, e, w, r - 1, p);
    RhoAtLeast(s, e, w, r, p);
  }

  /** The point of a real placement: its real times, the rounded waits, and every component waits in its queue. */
  ghost predicate IsReal(s: Scenario, p: Point)
  {
    && ComputeRows(s, p) && Placed(s, p)
    && (forall w :: w in s.cp.workers ==> AllTimesAre(s, w, p) && WorkerAdmitted(s, w, p))
    && forall f, k :: f in s.cp.flows && 1 <= k <= s.placementOf(f).last ==> WaitsInItsQueue(s, f, k, p)
  }

  /** The wait is at most 1 + e times that of the priority queue. */
  ghost predicate ComponentWithin(s: Scenario, e: real, f: FlowId, k: int, p: Point)
  {
    var w, r := s.placementOf(f).workerOf(k), s.priorityOf(f, k);
    WaitsWithin(p(ComponentQueueWait(f, k)), LoadUpTo(s, w, r - 1), LoadUpTo(s, w, r), PlacedMoment(s, w), e)
  }

  lemma ComponentIsTight(s: Scenario, e: real, f: FlowId, k: int, p: Point)
    requires WellPosed(s, e) && 0.0 < e && Real(s) && IsReal(s, p) && f in s.cp.flows && 1 <= k <= s.placementOf(f).last
    ensures ComponentWithin(s, e, f, k, p)
  {
    hide FlowRows, FlowPlaced, WorkerQueueRows, ComponentAdmitted, RealFlow, NoGaps, Demand, LoadUpTo, PlacedMoment;
    hide WaitsWithin, WellPosed, WorkerLoaded, WorkerRows, CompactQueueRows, QueueBounds, HoldsRoundedWait, AllTimesAre;
    hide WaitsAtLeast;
    PointIsReal(s, e, p);
    ComponentPlaced(s, e, f, k);
    assert WaitsInItsQueue(s, f, k, p);
    assert WorkerAdmitted(s, s.placementOf(f).workerOf(k), p);
    QueueNotFaster(s, e, s.placementOf(f).workerOf(k), s.priorityOf(f, k), p);
  }

  /** The bound is tight: for every real placement some point of the rows stays within the factor 1 + e of it. */
  lemma RealWaitIsTight(s: Scenario, e: real, z: Point) returns (p: Point)
    requires WellPosed(s, e) && 0.0 < e && Real(s)
    ensures ComputeRows(s, p) && Placed(s, p)
    ensures forall f, k :: f in s.cp.flows && 1 <= k <= s.placementOf(f).last ==> ComponentWithin(s, e, f, k, p)
  {
    hide WellPosed, Real, ComputeRows, Placed, ComponentWithin;
    p := RealIsPlaced(s, e, z);
    forall f, k | f in s.cp.flows && 1 <= k <= s.placementOf(f).last ensures ComponentWithin(s, e, f, k, p) {
      ComponentIsTight(s, e, f, k, p);
    }
  }
}
