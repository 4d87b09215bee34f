/**
 Every real placement has a point: whatever valid placement, priorities within the utilization limit and
 supported workers one takes, some point encodes it and satisfies all structural, execution and queue rows,
 with every a-priori bound.
 */
module RealPlacements {
  import opened Lp
  import opened Sums
  import opened ModelTopology
  import opened Assignment
  import opened Structure
  import opened TensorCrossing
  import opened BinLimits
  import opened ExecutionQueue
  import opened WaitBounds
  import opened PlacementPoints
  import B = BigM

  /** The problem data, and for every flow a placement and the priority of each of its components. */
  datatype Scenario = Scenario(
    cp: ComputeProblem,
    topologyOf: ModelVariantId -> Topology,
    profiles: (ModelVariantId, WorkerId) -> map<LayerKey, real>,
    relayOnly: FlowId -> Option<WorkerId>,
    ingress: FlowId -> Option<WorkerId>,
    sink: FlowId -> Option<WorkerId>,
    placementOf: FlowId -> Placement,
    priorityOf: (FlowId, int) -> int)

  function ProblemOf(s: Scenario, f: FlowId): FlowProblem
  {
    FlowProblem(f, s.cp.modelsByFlow(f), s.topologyOf, s.cp.workersByFlow(f), s.cp.maxComponents, s.cp.priorityCount,
                s.ingress(f), s.sink(f))
  }

  function DataOf(s: Scenario, f: FlowId): B.ExecutionData
  {
    B.ExecutionData(s.profiles, s.relayOnly(f))
  }

  function ProfiledTime(
    profiles: (ModelVariantId, WorkerId) -> map<LayerKey, real>, m: ModelVariantId, l: LayerKey, w: WorkerId): real
  {
    if l in profiles(m, w) then profiles(m, w)[l] else 0.0
  }

  function ProfilesFrom(
    topologyOf: ModelVariantId -> Topology, profiles: (ModelVariantId, WorkerId) -> map<LayerKey, real>): Profiles
  {
    Profiles(m => topologyOf(m).order, (m, l, w) => ProfiledTime(profiles, m, l, w))
  }

  function ProfilesOf(s: Scenario): Profiles
  {
    ProfilesFrom(s.topologyOf, s.profiles)
  }

  /** The problem as it is built and prepared, on the geometric grid. */
  ghost predicate WellPosed(s: Scenario, e: real)
  {
    && (forall f :: f in s.cp.flows ==> FlowWellPosed(s, f))
    && (forall m, w, l :: l in s.profiles(m, w) ==> s.profiles(m, w)[l] >= 0.0)
    && s.cp.priorityCount >= 1
    && Prepared(s.cp, ProfilesOf(s)) && GeometricGrid(s.cp.binLimits, s.cp.utilizationLimit, e)
  }

  ghost predicate FlowWellPosed(s: Scenario, f: FlowId)
  {
    && WellFormed(ProblemOf(s, f)) && SingleSources(ProblemOf(s, f))
    && forall w :: w in s.cp.workersByFlow(f) ==> w in s.cp.workers
  }

  // ----- what a placement demands of the workers

  /** The utilization that component k of a flow causes on a worker. */
  function ClassDemand(s: Scenario, f: FlowId, w: WorkerId): int -> real
  {
    k => s.cp.rate(f, s.placementOf(f).variant) * TimeOf(s, f, k, w)
  }

  function TimeOf(s: Scenario, f: FlowId, k: int, w: WorkerId): real
  {
    PhysicalTime(ProfilesOf(s), s.placementOf(f), s.placementOf(f).variant, k, w)
  }

  function FlowDemand(s: Scenario, w: WorkerId): FlowId -> real
  {
    f => SumOver(Range(1, s.cp.maxComponents + 1), ClassDemand(s, f, w))
  }

  function Demand(s: Scenario, w: WorkerId): real
  {
    SumOver(Relevant(s.cp, w), FlowDemand(s, w))
  }

  /** Some component runs on the worker at the priority. */
  ghost predicate Taken(s: Scenario, w: WorkerId, r: int)
  {
    exists f, k :: f in s.cp.flows && Chosen(s.placementOf(f), PrioritiesOf(s.priorityOf, f), k, w, r)
  }

  ghost predicate NoGaps(s: Scenario, w: WorkerId)
  {
    forall r :: 1 <= r < s.cp.priorityCount && Taken(s, w, r + 1) ==> Taken(s, w, r)
  }

  ghost predicate RealFlow(s: Scenario, f: FlowId)
  {
    && Valid(ProblemOf(s, f), s.placementOf(f)) && B.Supported(ProblemOf(s, f), DataOf(s, f), s.placementOf(f))
    && ValidPriorities(ProblemOf(s, f), s.placementOf(f), PrioritiesOf(s.priorityOf, f))
  }

  /** Valid supported placements, priorities without a gap, and no worker above the utilization limit. */
  ghost predicate Real(s: Scenario)
  {
    && (forall f :: f in s.cp.flows ==> RealFlow(s, f))
    && (forall w :: w in s.cp.workers ==> NoGaps(s, w) && Demand(s, w) <= s.cp.utilizationLimit)
  }

  // ----- the point

  ghost function LoadValue(s: Scenario, x: Var): real
  {
    match x
    case ExecutionTime(f, m, k, w) => PhysicalTime(ProfilesOf(s), s.placementOf(f), m, k, w)
    case PriorityClassUtilization(f, k, w, r) =>
      if Chosen(s.placementOf(f), PrioritiesOf(s.priorityOf, f), k, w, r) then ClassDemand(s, f, w)(k) else 0.0
    case PriorityUsed(w, r) => Indicator(Taken(s, w, r))
    case _ => StructureValue(f => ProblemOf(s, f), s.placementOf, s.priorityOf, x)
  }

  ghost function Loads(s: Scenario): Point
  {
    x => LoadValue(s, x)
  }

  ghost predicate InBin(cp: ComputeProblem, i: int, rho: real)
  {
    1 <= i < |cp.binLimits| && Limit(cp, i - 1) <= rho <= Limit(cp, i)
  }

  /** A bin that holds the utilization of the higher priorities. */
  ghost function BinAt(cp: ComputeProblem, rho: real): int
  {
    if exists i :: InBin(cp, i, rho) then var i :| InBin(cp, i, rho); i else 0
  }

  ghost function BinOf(s: Scenario, w: WorkerId, r: int): int
  {
    BinAt(s.cp, RhoUpTo(s.cp, w, r - 1, Loads(s)))
  }

  function Waiting(h: real, l: real, rho: real): real
  {
    if 2.0 * ((1.0 - l) * (1.0 - rho)) == 0.0 then 0.0 else h / (2.0 * ((1.0 - l) * (1.0 - rho)))
  }

  /** H / (2 (1 - l) (1 - rho_le)), with l the upper end of the bin. */
  ghost function WaitAt(s: Scenario, w: WorkerId, r: int): real
  {
    Waiting(SecondMoment(s.cp, w, Loads(s)), RoundingLimit(s.cp, r, BinOf(s, w, r)), RhoUpTo(s.cp, w, r, Loads(s)))
  }

  ghost function RealValue(s: Scenario, x: Var): real
  {
    match x
    case RemainingCapacity(w, r) => 1.0 - RhoUpTo(s.cp, w, r, Loads(s))
    case HigherPriorityUtilization(w, r) => RhoUpTo(s.cp, w, r - 1, Loads(s))
    case ComputeBinSelected(w, r, i) => Indicator(i == BinOf(s, w, r))
    case QueueWait(w, r) => WaitAt(s, w, r)
    case QueueWaitBin(w, r, i) => if i == BinOf(s, w, r) then WaitAt(s, w, r) else 0.0
    case WeightedQueueWait(w, r) => (1.0 - Limit(s.cp, BinOf(s, w, r))) * WaitAt(s, w, r)
    case ComponentQueueWait(f, k) =>
      if 1 <= k <= s.placementOf(f).last then WaitAt(s, s.placementOf(f).workerOf(k), s.priorityOf(f, k)) else 0.0
    case _ => LoadValue(s, x)
  }

  /** The variables of the transmissions, of the network queues, of the memory and of the response times. */
  predicate IsOther(x: Var)
  {
    || x.AdjacentWorkers? || x.TransmissionTime? || x.NetworkUtilization? || x.NetworkBinSelected?
    || x.TransmissionResponse? || x.SourceResponse? || x.ComponentWeight? || x.MaxActivation? || x.ResponseTime?
  }

  /** The point of the placements. The compute formulation does not mention the other variables; they are as in z. */
  ghost function RealPoint(s: Scenario, z: Point): Point
  {
    x => ValueAt(s, z, x)
  }

  ghost function ValueAt(s: Scenario, z: Point, x: Var): real
  {
    if IsOther(x) then z(x) else RealValue(s, x)
  }

  // ----- what the point shows

  ghost predicate ShowsLoads(s: Scenario, p: Point)
  {
    && IsStructurePoint(f => ProblemOf(s, f), s.placementOf, s.priorityOf, p)
    && (forall f, m, k, w :: p(ExecutionTime(f, m, k, w)) == PhysicalTime(ProfilesOf(s), s.placementOf(f), m, k, w))
    && (forall f, k, w, r :: p(PriorityClassUtilization(f, k, w, r))
          == if Chosen(s.placementOf(f), PrioritiesOf(s.priorityOf, f), k, w, r) then ClassDemand(s, f, w)(k) else 0.0)
    && (forall w, r :: p(PriorityUsed(w, r)) == Indicator(Taken(s, w, r)))
  }

  lemma LoadsShow(s: Scenario)
    ensures ShowsLoads(s, Loads(s))
  {
    hide StructureValue, ClassDemand, Chosen, Taken;
  }

  predicate IsLoad(x: Var)
  {
    IsStructural(x) || x.ExecutionTime? || x.PriorityClassUtilization? || x.PriorityUsed?
  }

  lemma PointKeepsLoads(s: Scenario, z: Point, x: Var)
    requires IsLoad(x)
    ensures RealPoint(s, z)(x) == Loads(s)(x)
  {
    hide LoadValue, WaitAt, RhoUpTo, BinOf;
  }

  lemma LoadsShown(s: Scenario, z: Point)
    ensures ShowsLoads(s, Loads(s)) && ShowsLoads(s, RealPoint(s, z))
  {
    hide StructureValue, ClassDemand, Chosen, Taken, PhysicalTime, RealPoint, Loads;
    LoadsShow(s);
    forall x | IsLoad(x) ensures RealPoint(s, z)(x) == Loads(s)(x) { PointKeepsLoads(s, z, x); }
  }

  ghost predicate ShowsQueue(s: Scenario, w: WorkerId, r: int, p: Point)
  {
    && p(RemainingCapacity(w, r)) == 1.0 - RhoUpTo(s.cp, w, r, Loads(s))
    && p(HigherPriorityUtilization(w, r)) == RhoUpTo(s.cp, w, r - 1, Loads(s))
    && p(QueueWait(w, r)) == WaitAt(s, w, r)
    && p(WeightedQueueWait(w, r)) == (1.0 - Limit(s.cp, BinOf(s, w, r))) * WaitAt(s, w, r)
    && (forall i :: p(ComputeBinSelected(w, r, i)) == Indicator(i == BinOf(s, w, r)))
    && (forall i :: p(QueueWaitBin(w, r, i)) == if i == BinOf(s, w, r) then WaitAt(s, w, r) else 0.0)
  }

  lemma QueueShown(s: Scenario, w: WorkerId, r: int, z: Point)
    ensures ShowsQueue(s, w, r, RealPoint(s, z))
  {
    hide LoadValue, WaitAt, RhoUpTo, BinOf, Limit;
  }

  lemma WaitShown(s: Scenario, f: FlowId, k: int, z: Point)
    ensures RealPoint(s, z)(ComponentQueueWait(f, k))
         == if 1 <= k <= s.placementOf(f).last then WaitAt(s, s.placementOf(f).workerOf(k), s.priorityOf(f, k)) else 0.0
  {
    hide LoadValue, WaitAt, RhoUpTo, BinOf;
  }

  // ----- utilizations and moments depend on the loads only

  ghost predicate SameLoads(p: Point, q: Point)
  {
    && (forall f, m, k, w :: p(ExecutionTime(f, m, k, w)) == q(ExecutionTime(f, m, k, w)))
    && (forall f, k, w, r :: p(PriorityClassUtilization(f, k, w, r)) == q(PriorityClassUtilization(f, k, w, r)))
  }

  lemma SameRho(cp: ComputeProblem, w: WorkerId, r: int, p: Point, q: Point)
    requires SameLoads(p, q)
    ensures RhoUpTo(cp, w, r, p) == RhoUpTo(cp, w, r, q)
  {
    hide Relevant;
    forall j | j in Range(1, r + 1) ensures ClassRho(cp, w, p)(j) == ClassRho(cp, w, q)(j) {
      var g, h := (f: FlowId) => FlowRho(cp, f, w, j, p), (f: FlowId) => FlowRho(cp, f, w, j, q);
      forall f | f in Relevant(cp, w) ensures g(f) == h(f) {
        SumCongruent(Range(1, cp.maxComponents + 1), (k: int) => p(PriorityClassUtilization(f, k, w, j)),
                     (k: int) => q(PriorityClassUtilization(f, k, w, j)));
      }
      SumCongruent(Relevant(cp, w), g, h);
    }
    SumCongruent(Range(1, r + 1), ClassRho(cp, w, p), ClassRho(cp, w, q));
  }

  lemma SameMoment(cp: ComputeProblem, w: WorkerId, p: Point, q: Point)
    requires SameLoads(p, q)
    ensures SecondMoment(cp, w, p) == SecondMoment(cp, w, q)
  {
    hide Relevant, ModelMoment;
    forall f | f in Relevant(cp, w) ensures FlowMoment(cp, w, p)(f) == FlowMoment(cp, w, q)(f) {
      forall m | m in cp.modelsByFlow(f) ensures ModelMoment(cp, f, w, p)(m) == ModelMoment(cp, f, w, q)(m) {
        SameModelMoment(cp, f, m, w, p, q);
      }
      SumCongruent(cp.modelsByFlow(f), ModelMoment(cp, f, w, p), ModelMoment(cp, f, w, q));
    }
    SumCongruent(Relevant(cp, w), FlowMoment(cp, w, p), FlowMoment(cp, w, q));
  }

  lemma SameModelMoment(cp: ComputeProblem, f: FlowId, m: ModelVariantId, w: WorkerId, p: Point, q: Point)
    requires SameLoads(p, q)
    ensures ModelMoment(cp, f, w, p)(m) == ModelMoment(cp, f, w, q)(m)
  {
    ModelMomentIs(cp, f, m, w, p);
    ModelMomentIs(cp, f, m, w, q);
    SumCongruent(Range(1, cp.maxComponents + 1), MomentIn(cp, f, m, w, p), MomentIn(cp, f, m, w, q));
  }

  lemma PointLoads(s: Scenario, w: WorkerId, z: Point)
    ensures SecondMoment(s.cp, w, RealPoint(s, z)) == SecondMoment(s.cp, w, Loads(s))
    ensures forall r :: RhoUpTo(s.cp, w, r, RealPoint(s, z)) == RhoUpTo(s.cp, w, r, Loads(s))
  {
    hide Loads, RealPoint, PhysicalTime, ClassDemand, Chosen, Taken, IsStructurePoint, SecondMoment, RhoUpTo;
    LoadsShown(s, z);
    SameMoment(s.cp, w, RealPoint(s, z), Loads(s));
    forall r ensures RhoUpTo(s.cp, w, r, RealPoint(s, z)) == RhoUpTo(s.cp, w, r, Loads(s)) {
      SameRho(s.cp, w, r, RealPoint(s, z), Loads(s));
    }
  }

  // ----- execution times

  /** On a supporting worker the profiled time of a layer is the one that the execution rows use. */
  lemma TimesAgree(s: Scenario, f: FlowId, v: ModelVariantId, k: int, w: WorkerId)
    requires RealFlow(s, f) && 1 <= k
    ensures PhysicalTime(ProfilesOf(s), s.placementOf(f), v, k, w)
         == B.PhysicalTime(ProblemOf(s, f), DataOf(s, f), s.placementOf(f), v, k, w)
  {
    hide Valid, ValidPriorities, B.Available;
    var fp, d, pl, pr := ProblemOf(s, f), DataOf(s, f), s.placementOf(f), ProfilesOf(s);
    var mine, theirs := TimeIn(pr, pl, w, k), B.InComponent(pl, v, k, B.TimeOn(fp, d, v, w));
    if k <= pl.last && w == pl.workerOf(k) {
      if v == pl.variant {
        forall l | l in Order(fp, v) ensures mine(l) == theirs(l) {
          if pl.componentOf(l) == k {
            assert B.Supports(fp, d, v, l)(w);
            AvailableIsProfiled(s, f, v, l, w);
          }
        }
        SumCongruent(Order(fp, v), mine, theirs);
      } else {
        SumZero(Order(fp, v), theirs);
      }
    }
  }

  lemma AvailableIsProfiled(s: Scenario, f: FlowId, v: ModelVariantId, l: LayerKey, w: WorkerId)
    requires B.Supports(ProblemOf(s, f), DataOf(s, f), v, l)(w)
    ensures B.TimeOn(ProblemOf(s, f), DataOf(s, f), v, w)(l) == ProfiledTime(s.profiles, v, l, w)
  {
  }

  lemma PointTimes(s: Scenario, f: FlowId, z: Point)
    requires RealFlow(s, f)
    ensures B.TimesArePhysical(ProblemOf(s, f), DataOf(s, f), s.placementOf(f), RealPoint(s, z))
  {
    hide RealFlow, PhysicalTime, B.PhysicalTime, RealPoint, IsStructurePoint, ClassDemand, Chosen, Taken;
    LoadsShown(s, z);
    forall v, k, w | v in ProblemOf(s, f).variants && 1 <= k <= s.cp.maxComponents && w in s.cp.workersByFlow(f)
      ensures RealPoint(s, z)(ExecutionTime(f, v, k, w))
           == B.PhysicalTime(ProblemOf(s, f), DataOf(s, f), s.placementOf(f), v, k, w)
    {
      TimesAgree(s, f, v, k, w);
    }
  }

  /** The point encodes the placement and satisfies all structural and execution rows of the flow. */
  lemma FlowRowsHold(s: Scenario, e: real, f: FlowId, z: Point)
    requires WellPosed(s, e) && Real(s) && f in s.cp.flows
    ensures var fp, p := ProblemOf(s, f), RealPoint(s, z);
            && Encodes(fp, p, s.placementOf(f)) && WellFormed(fp) && Domain(fp, p) && StructureRows(fp, p)
            && ShowsPriorities(fp, s.placementOf(f), PrioritiesOf(s.priorityOf, f), p)
            && B.TimesArePhysical(fp, DataOf(s, f), s.placementOf(f), p) && B.AllExecutionRows(fp, DataOf(s, f), p)
  {
    hide Valid, WellFormed, SingleSources, Domain, StructureRows, RealPoint, Encodes, Prepared, GeometricGrid, NoGaps;
    hide B.Supported, B.AllExecutionRows, B.TimesArePhysical, ShowsPriorities, ShowsCrossings, StructureValue, ValidPriorities;
    var fp := ProblemOf(s, f);
    assert RealFlow(s, f) && FlowWellPosed(s, f);
    PointShows(s, f, z);
    ShownIsAdmitted(fp, s.placementOf(f), PrioritiesOf(s.priorityOf, f), RealPoint(s, z));
    PointTimes(s, f, z);
    TimesNotNegative(s, e, f);
    B.ExecutionExact(fp, DataOf(s, f), RealPoint(s, z), s.placementOf(f));
  }

  lemma PointShows(s: Scenario, f: FlowId, z: Point)
    ensures Shows(ProblemOf(s, f), s.placementOf(f), PrioritiesOf(s.priorityOf, f), RealPoint(s, z))
  {
    hide Shows, PhysicalTime, ClassDemand, Chosen, Taken, IsStructurePoint, RealPoint;
    LoadsShown(s, z);
    StructureShows(g => ProblemOf(s, g), s.placementOf, s.priorityOf, RealPoint(s, z), f);
  }

  lemma TimesNotNegative(s: Scenario, e: real, f: FlowId)
    requires WellPosed(s, e)
    ensures B.TimesSensible(DataOf(s, f))
  {
    hide FlowWellPosed, Prepared, GeometricGrid;
  }

  // ----- utilization

  lemma ClassIsDemand(s: Scenario, e: real, f: FlowId, k: int, w: WorkerId, p: Point)
    requires WellPosed(s, e) && RealFlow(s, f) && f in s.cp.flows && ShowsLoads(s, p)
    ensures ClassUtilization(s.cp, f, k, w, p) == ClassDemand(s, f, w)(k)
  {
    hide IsStructurePoint, Taken, Chosen, RealFlow, WellPosed, PhysicalTime, Distinct;
    var m := s.placementOf(f).variant;
    ModelsDistinct(s, e, f);
    forall n | n in s.cp.modelsByFlow(f) && n != m ensures Load(s.cp, f, k, w, p)(n) == 0.0 {
      OnlyOwnVariant(ProfilesOf(s), s.placementOf(f), n, k, w);
    }
    SumSingle(s.cp.modelsByFlow(f), Load(s.cp, f, k, w, p), m);
  }

  lemma ModelsDistinct(s: Scenario, e: real, f: FlowId)
    requires WellPosed(s, e) && RealFlow(s, f) && f in s.cp.flows
    ensures Distinct(s.cp.modelsByFlow(f)) && s.placementOf(f).variant in s.cp.modelsByFlow(f)
  {
    hide GeometricGrid, B.Supported, ValidPriorities, Populated, Prepared, SingleSources, WellFormedTopology;
    assert FlowWellPosed(s, f);
  }

  lemma TotalIsDemand(s: Scenario, e: real, w: WorkerId, p: Point)
    requires WellPosed(s, e) && Real(s) && ShowsLoads(s, p)
    ensures TotalUtilization(s.cp, w, p) == Demand(s, w)
  {
    hide WellPosed, RealFlow, NoGaps, ShowsLoads, ClassUtilization, ClassDemand;
    var keys := Range(1, s.cp.maxComponents + 1);
    forall f | f in Relevant(s.cp, w) ensures FlowUtilization(s.cp, w, p)(f) == FlowDemand(s, w)(f) {
      var g := (k: int) => ClassUtilization(s.cp, f, k, w, p);
      forall k | k in keys ensures g(k) == ClassDemand(s, f, w)(k) {
        ClassIsDemand(s, e, f, k, w, p);
      }
      SumCongruent(keys, g, ClassDemand(s, f, w));
    }
    SumCongruent(Relevant(s.cp, w), FlowUtilization(s.cp, w, p), FlowDemand(s, w));
  }

  lemma DemandNotNegative(s: Scenario, e: real, f: FlowId, k: int, w: WorkerId)
    requires WellPosed(s, e)
    ensures 0.0 <= ClassDemand(s, f, w)(k)
  {
    hide FlowWellPosed, GeometricGrid, PhysicalTime, WaitBoundOf, MaxOver, WaitBound;
    TimesNonNegative(s.cp, ProfilesOf(s), s.placementOf(f), s.placementOf(f).variant, k, w);
    Scale(s.cp.rate(f, s.placementOf(f).variant), 0.0, TimeOf(s, f, k, w));
  }

  lemma DemandWithinLimit(s: Scenario, e: real, f: FlowId, k: int, w: WorkerId)
    requires WellPosed(s, e) && Real(s) && f in Relevant(s.cp, w) && 1 <= k <= s.cp.maxComponents && w in s.cp.workers
    ensures 0.0 <= ClassDemand(s, f, w)(k) <= s.cp.utilizationLimit
  {
    hide WellPosed, RealFlow, NoGaps, ClassDemand, Relevant;
    var keys := Range(1, s.cp.maxComponents + 1);
    forall g | g in Relevant(s.cp, w) ensures FlowDemand(s, w)(g) >= 0.0 {
      forall j | j in keys ensures ClassDemand(s, g, w)(j) >= 0.0 { DemandNotNegative(s, e, g, j, w); }
      SumNonNegative(keys, ClassDemand(s, g, w));
    }
    forall j | j in keys ensures ClassDemand(s, f, w)(j) >= 0.0 { DemandNotNegative(s, e, f, j, w); }
    TermAtMostSum(keys, ClassDemand(s, f, w), k);
    TermAtMostSum(Relevant(s.cp, w), FlowDemand(s, w), f);
  }

  lemma ElsewhereNoDemand(s: Scenario, f: FlowId, k: int, w: WorkerId)
    requires !(1 <= k <= s.placementOf(f).last && w == s.placementOf(f).workerOf(k))
    ensures ClassDemand(s, f, w)(k) == 0.0
  {
  }

  // ----- priorities

  lemma PriorityValues(s: Scenario, f: FlowId, k: int, w: WorkerId, r: int, p: Point)
    requires ShowsLoads(s, p)
    ensures p(ComponentPriority(f, k, w, r)) == Indicator(Chosen(s.placementOf(f), PrioritiesOf(s.priorityOf, f), k, w, r))
    ensures p(ComponentWorker(f, k, w)) == Indicator(k <= s.placementOf(f).last && w == s.placementOf(f).workerOf(k))
    ensures p(ComponentActive(f, k)) == Indicator(k <= s.placementOf(f).last)
  {
    hide PhysicalTime, ClassDemand, Chosen, Taken;
    assert IsStructural(ComponentPriority(f, k, w, r)) && IsStructural(ComponentWorker(f, k, w));
    assert IsStructural(ComponentActive(f, k));
  }

  /** A component's priority choice and its share of the utilization. */
  lemma ClassRowsHold(s: Scenario, e: real, f: FlowId, k: int, w: WorkerId, p: Point)
    requires WellPosed(s, e) && Real(s) && ShowsLoads(s, p)
    requires f in Relevant(s.cp, w) && 1 <= k <= s.cp.maxComponents && w in s.cp.workers
    ensures ClassRows(s.cp, f, k, w, p) && ClassDomain(s.cp, f, k, w, p)
  {
    hide WellPosed, NoGaps, ClassUtilization, ClassDemand, IsStructurePoint, PhysicalTime, Taken, Demand, B.Supported, Valid;
    var pl, keys := s.placementOf(f), Range(1, s.cp.priorityCount + 1);
    assert RealFlow(s, f);
    ClassIsDemand(s, e, f, k, w, p);
    DemandWithinLimit(s, e, f, k, w);
    PriorityValues(s, f, k, w, 1, p);
    forall r | 1 <= r <= s.cp.priorityCount
      ensures RhoBarRow(s.cp, f, k, w, r, p) && IsBinary(p(ComponentPriority(f, k, w, r)))
      ensures p(PriorityClassUtilization(f, k, w, r)) >= 0.0
    {
      PriorityValues(s, f, k, w, r, p);
    }
    forall r | r in keys ensures Choice(f, k, w, p)(r) == Indicator(Chosen(pl, PrioritiesOf(s.priorityOf, f), k, w, r)) {
      PriorityValues(s, f, k, w, r, p);
    }
    if k <= pl.last && w == pl.workerOf(k) {
      SumSingle(keys, Choice(f, k, w, p), s.priorityOf(f, k));
      SumSingle(keys, RhoBar(f, k, w, p), s.priorityOf(f, k));
    } else {
      SumZero(keys, Choice(f, k, w, p));
      SumZero(keys, RhoBar(f, k, w, p));
      ElsewhereNoDemand(s, f, k, w);
    }
  }

  function AtPriority(cp: ComputeProblem, f: FlowId, w: WorkerId, r: int, p: Point): int -> real
  {
    k => p(ComponentPriority(f, k, w, r))
  }

  lemma AssignmentsNotNegative(s: Scenario, f: FlowId, w: WorkerId, r: int, p: Point)
    requires ShowsLoads(s, p)
    ensures Assignments(s.cp, w, r, p)(f) >= 0.0
    ensures forall k :: 1 <= k <= s.cp.maxComponents ==> p(ComponentPriority(f, k, w, r)) <= Assignments(s.cp, w, r, p)(f)
  {
    hide ShowsLoads, Chosen;
    var keys, g := Range(1, s.cp.maxComponents + 1), AtPriority(s.cp, f, w, r, p);
    forall k | k in keys ensures 0.0 <= g(k) { PriorityValues(s, f, k, w, r, p); }
    SumNonNegative(keys, g);
    SumCongruent(keys, g, (k: int) => p(ComponentPriority(f, k, w, r)));
    forall k | 1 <= k <= s.cp.maxComponents ensures p(ComponentPriority(f, k, w, r)) <= Assignments(s.cp, w, r, p)(f) {
      TermAtMostSum(keys, g, k);
    }
  }

  lemma UsedRowsHold(s: Scenario, e: real, w: WorkerId, r: int, p: Point)
    requires WellPosed(s, e) && Real(s) && ShowsLoads(s, p)
    ensures UsedRows(s.cp, w, r, p)
  {
    hide WellPosed, NoGaps, ClassDemand, IsStructurePoint, PhysicalTime, Demand, B.Supported, Valid, Assignments, Chosen;
    forall f | f in Relevant(s.cp, w) ensures Assignments(s.cp, w, r, p)(f) >= 0.0 {
      AssignmentsNotNegative(s, f, w, r, p);
    }
    SumNonNegative(Relevant(s.cp, w), Assignments(s.cp, w, r, p));
    if Taken(s, w, r) {
      var f, k :| f in s.cp.flows && Chosen(s.placementOf(f), PrioritiesOf(s.priorityOf, f), k, w, r);
      assert RealFlow(s, f);
      ChosenIsRelevant(s, f, k, w, r);
      PriorityValues(s, f, k, w, r, p);
      AssignmentsNotNegative(s, f, w, r, p);
      TermAtMostSum(Relevant(s.cp, w), Assignments(s.cp, w, r, p), f);
    }
    forall f, k | f in Relevant(s.cp, w) && 1 <= k <= s.cp.maxComponents ensures UsedByRow(s.cp, w, r, f, k, p) {
      PriorityValues(s, f, k, w, r, p);
    }
  }

  lemma ChosenIsRelevant(s: Scenario, f: FlowId, k: int, w: WorkerId, r: int)
    requires RealFlow(s, f) && f in s.cp.flows && Chosen(s.placementOf(f), PrioritiesOf(s.priorityOf, f), k, w, r)
    ensures f in Relevant(s.cp, w) && 1 <= k <= s.cp.maxComponents && 1 <= r <= s.cp.priorityCount
  {
    hide B.Supported, Populated;
  }

  lemma UsageRowsHold(s: Scenario, e: real, w: WorkerId, p: Point)
    requires WellPosed(s, e) && Real(s) && ShowsLoads(s, p) && w in s.cp.workers
    ensures UsageRows(s.cp, w, p)
  {
    hide WellPosed, ClassDemand, IsStructurePoint, PhysicalTime, Demand, RealFlow, UsedRows, Taken;
    forall r | 1 <= r <= s.cp.priorityCount ensures UsedRows(s.cp, w, r, p) {
      UsedRowsHold(s, e, w, r, p);
    }
  }

  // ----- queues

  /** The worker is one at which a real placement runs. */
  lemma WorkerIsReal(s: Scenario, e: real, w: WorkerId, p: Point)
    requires WellPosed(s, e) && Real(s) && ShowsLoads(s, p) && w in s.cp.workers
    ensures RealWorker(s.cp, ProfilesOf(s), s.placementOf, w, p)
  {
    hide FlowWellPosed, Prepared, GeometricGrid, NoGaps, RealFlow, TotalUtilization, ClassRows, ClassDomain, Demand;
    hide IsStructurePoint, Taken, Chosen, ClassDemand, PhysicalTime;
    forall f, k | f in Relevant(s.cp, w) && 1 <= k <= s.cp.maxComponents
      ensures ClassRows(s.cp, f, k, w, p) && ClassDomain(s.cp, f, k, w, p)
    {
      ClassRowsHold(s, e, f, k, w, p);
    }
    TotalIsDemand(s, e, w, p);
    forall f | f in s.cp.flows ensures s.placementOf(f).variant in s.cp.modelsByFlow(f) {
      OwnVariant(s, f);
    }
  }

  lemma OwnVariant(s: Scenario, f: FlowId)
    requires Real(s) && f in s.cp.flows
    ensures s.placementOf(f).variant in s.cp.modelsByFlow(f)
  {
    hide NoGaps, B.Supported, Populated, ValidPriorities;
    assert RealFlow(s, f);
  }

  lemma WaitingIs(h: real, l: real, rho: real)
    requires l < 1.0 && rho < 1.0
    ensures WaitEquation(Waiting(h, l, rho), l, rho, h)
  {
    ScaleStrict(1.0 - l, 0.0, 1.0 - rho);
    var c := 2.0 * ((1.0 - l) * (1.0 - rho));
    assert (h / c) * c == h;
  }

  /** Every queue of the point holds the rounded wait. */
  lemma QueueIsRounded(s: Scenario, e: real, w: WorkerId, r: int, z: Point)
    requires WellPosed(s, e) && Real(s) && w in s.cp.workers && 1 <= r <= s.cp.priorityCount
    ensures RoundedQueue(s.cp, w, r, BinOf(s, w, r), RealPoint(s, z))
  {
    hide FlowWellPosed, Sensible, NoGaps, RealFlow, Demand, ShowsLoads, RhoUpTo, SecondMoment, GeometricGrid;
    hide RealPoint, Loads, Limit, ClassesOk, Physical, TotalUtilization, Waiting, WaitEquation, MaxOver, WaitBound, BinAt;
    var p, bin := RealPoint(s, z), BinOf(s, w, r);
    LoadsShown(s, z);
    QueueShown(s, w, r, z);
    PointLoads(s, w, z);
    WorkerIsReal(s, e, w, p);
    LimitBelowOne(s, e);
    RhoWithinTotal(s.cp, w, r, p);
    if r >= 2 {
      RhoWithinTotal(s.cp, w, r - 1, p);
      HasBin(s, e, RhoUpTo(s.cp, w, r - 1, Loads(s)));
      LimitWithin(s.cp, e, bin);
    }
    WaitingIs(SecondMoment(s.cp, w, Loads(s)), RoundingLimit(s.cp, r, bin), RhoUpTo(s.cp, w, r, Loads(s)));
  }

  lemma LimitBelowOne(s: Scenario, e: real)
    requires WellPosed(s, e)
    ensures 0.0 < s.cp.utilizationLimit < 1.0 && GeometricGrid(s.cp.binLimits, s.cp.utilizationLimit, e)
  {
    hide FlowWellPosed, GeometricGrid;
  }

  lemma HasBin(s: Scenario, e: real, rho: real)
    requires WellPosed(s, e) && 0.0 <= rho <= s.cp.utilizationLimit
    ensures InBin(s.cp, BinAt(s.cp, rho), rho)
  {
    hide FlowWellPosed, Prepared;
    var i := BinExists(s.cp.binLimits, s.cp.utilizationLimit, e, rho);
    assert InBin(s.cp, i, rho);
  }

  // ----- components

  lemma ComponentIsRounded(s: Scenario, f: FlowId, k: int, z: Point)
    requires RealFlow(s, f) && 1 <= k <= s.cp.maxComponents
    ensures IdleComponent(s.cp, f, k, RealPoint(s, z)) || exists w, r :: RoundedComponent(s.cp, f, k, w, r, RealPoint(s, z))
  {
    hide RealPoint, RealFlow, IdleComponent, RoundedComponent;
    if k <= s.placementOf(f).last {
      ActiveIsRounded(s, f, k, z);
    } else {
      InactiveIsIdle(s, f, k, z);
    }
  }

  lemma ActiveIsRounded(s: Scenario, f: FlowId, k: int, z: Point)
    requires RealFlow(s, f) && 1 <= k <= s.placementOf(f).last
    ensures RoundedComponent(s.cp, f, k, s.placementOf(f).workerOf(k), s.priorityOf(f, k), RealPoint(s, z))
  {
    hide RealPoint, WaitAt, B.Supported, Populated, ShowsLoads;
    var p, w, r := RealPoint(s, z), s.placementOf(f).workerOf(k), s.priorityOf(f, k);
    LoadsShown(s, z);
    WaitShown(s, f, k, z);
    QueueShown(s, w, r, z);
    PriorityValues(s, f, k, w, r, p);
    forall v, q | v != w || q != r ensures p(ComponentPriority(f, k, v, q)) == 0.0 {
      PriorityValues(s, f, k, v, q, p);
    }
  }

  lemma InactiveIsIdle(s: Scenario, f: FlowId, k: int, z: Point)
    requires k > s.placementOf(f).last
    ensures IdleComponent(s.cp, f, k, RealPoint(s, z))
  {
    hide RealPoint, WaitAt, ShowsLoads;
    LoadsShown(s, z);
    WaitShown(s, f, k, z);
    PriorityValues(s, f, k, WorkerId(0), 0, RealPoint(s, z));
    forall v, q ensures RealPoint(s, z)(ComponentPriority(f, k, v, q)) == 0.0 {
      PriorityValues(s, f, k, v, q, RealPoint(s, z));
    }
  }

  // ----- the bounds of the variables

  /** The bounds that `_add_compute_queue_variables` gives the variables of one priority queue. */
  ghost predicate QueueBounds(cp: ComputeProblem, w: WorkerId, r: int, p: Point)
  {
    && UsedBounded(w, r, p)
    && 0.0 <= p(QueueWait(w, r)) <= cp.maxWaitOfWorker(w)
    && 1.0 - cp.utilizationLimit <= p(RemainingCapacity(w, r)) <= 1.0
    && (r >= 2 ==>
          && 0.0 <= p(HigherPriorityUtilization(w, r)) <= cp.utilizationLimit
          && 0.0 <= p(WeightedQueueWait(w, r)) <= cp.maxWaitOfWorker(w)
          && BinDomain(cp, w, r, p)
          && forall i :: 1 <= i < |cp.binLimits| ==> p(QueueWaitBin(w, r, i)) <= cp.maxWaitOfWorker(w))
  }

  lemma QueueWithinBounds(s: Scenario, e: real, w: WorkerId, r: int, z: Point)
    requires WellPosed(s, e) && Real(s) && w in s.cp.workers && 1 <= r <= s.cp.priorityCount
    ensures QueueBounds(s.cp, w, r, RealPoint(s, z))
  {
    hide WellPosed, NoGaps, RealFlow, Demand, RhoUpTo, SecondMoment, GeometricGrid, WaitAt, Physical, ClassesOk;
    hide RealPoint, Loads, Limit, TotalUtilization, WaitEquation, MaxOver, WaitBound, BinOf, Prepared, ScaledWithin, BinDomain;
    hide IsStructurePoint, PhysicalTime, ClassDemand, Chosen, Taken;
    var p, bin := RealPoint(s, z), BinOf(s, w, r);
    LoadsShown(s, z);
    QueueShown(s, w, r, z);
    WorkerIsReal(s, e, w, p);
    LimitBelowOne(s, e);
    QueueIsRounded(s, e, w, r, z);
    QueueWaitFits(s.cp, ProfilesOf(s), s.placementOf, e, w, r, bin, p);
    RhoWithinTotal(s.cp, w, r, p);
    if r >= 2 {
      RhoWithinTotal(s.cp, w, r - 1, p);
      LimitWithin(s.cp, e, bin);
      WeightedWithin(p(QueueWait(w, r)), 1.0 - Limit(s.cp, bin), s.cp.maxWaitOfWorker(w), p(WeightedQueueWait(w, r)));
      BinsWithin(s, w, r, z);
    }
  }

  lemma WeightedWithin(wait: real, rest: real, bound: real, weighted: real)
    requires 0.0 <= wait <= bound && 0.0 <= rest <= 1.0 && weighted == rest * wait
    ensures 0.0 <= weighted <= bound
  {
    Scale(wait, 0.0, rest);
    Scale(wait, rest, 1.0);
  }

  lemma BinsWithin(s: Scenario, w: WorkerId, r: int, z: Point)
    requires 0.0 <= RealPoint(s, z)(QueueWait(w, r)) <= s.cp.maxWaitOfWorker(w)
    ensures BinDomain(s.cp, w, r, RealPoint(s, z))
    ensures forall i :: 1 <= i < |s.cp.binLimits| ==> RealPoint(s, z)(QueueWaitBin(w, r, i)) <= s.cp.maxWaitOfWorker(w)
  {
    hide RealPoint, RhoUpTo, BinOf, WaitAt, Limit;
    QueueShown(s, w, r, z);
  }

  /** The bounds of a component's variables: its wait, and per worker and priority its choice and utilization. */
  ghost predicate ComponentBounds(cp: ComputeProblem, f: FlowId, k: int, p: Point)
  {
    && 0.0 <= p(ComponentQueueWait(f, k)) <= cp.maxWaitOfFlow(f)
    && forall w, r :: w in cp.workersByFlow(f) && 1 <= r <= cp.priorityCount ==> ShareBounds(cp, f, k, w, r, p)
  }

  predicate ShareBounds(cp: ComputeProblem, f: FlowId, k: int, w: WorkerId, r: int, p: Point)
  {
    && IsBinary(p(ComponentPriority(f, k, w, r)))
    && 0.0 <= p(PriorityClassUtilization(f, k, w, r)) <= cp.utilizationLimit
  }

  lemma ComponentWithinBounds(s: Scenario, e: real, f: FlowId, k: int, z: Point)
    requires WellPosed(s, e) && Real(s) && f in s.cp.flows && 1 <= k <= s.cp.maxComponents
    ensures ComponentBounds(s.cp, f, k, RealPoint(s, z))
  {
    hide GeometricGrid, NoGaps, Demand, RealPoint, WaitAt, ClassDemand, PhysicalTime, Taken, IsStructurePoint, Chosen;
    hide B.Supported, Populated, WaitBound, QueueBounds, Sensible, WellFormed, SingleSources;
    var p, pl := RealPoint(s, z), s.placementOf(f);
    LoadsShown(s, z);
    assert RealFlow(s, f) && FlowWellPosed(s, f);
    forall w, r | w in s.cp.workersByFlow(f) && 1 <= r <= s.cp.priorityCount ensures ShareBounds(s.cp, f, k, w, r, p) {
      PriorityValues(s, f, k, w, r, p);
      DemandWithinLimit(s, e, f, k, w);
      LimitBelowOne(s, e);
    }
    WaitShown(s, f, k, z);
    if k <= pl.last {
      ComponentWaitBounded(s, e, f, k, z);
    }
  }

  lemma ComponentWaitBounded(s: Scenario, e: real, f: FlowId, k: int, z: Point)
    requires WellPosed(s, e) && Real(s) && f in s.cp.flows && 1 <= k <= s.placementOf(f).last
    ensures 0.0 <= WaitAt(s, s.placementOf(f).workerOf(k), s.priorityOf(f, k)) <= s.cp.maxWaitOfFlow(f)
  {
    hide GeometricGrid, Real, RealPoint, WaitAt, WaitBound, Sensible, FlowWellPosed;
    var w, r := s.placementOf(f).workerOf(k), s.priorityOf(f, k);
    ComponentPlaced(s, e, f, k);
    QueueShown(s, w, r, z);
    QueueWithinBounds(s, e, w, r, z);
    FlowBoundCovers(s.cp, ProfilesOf(s), f, w);
  }

  lemma ComponentPlaced(s: Scenario, e: real, f: FlowId, k: int)
    requires WellPosed(s, e) && Real(s) && f in s.cp.flows && 1 <= k <= s.placementOf(f).last
    ensures var w := s.placementOf(f).workerOf(k);
            w in s.cp.workersByFlow(f) && w in s.cp.workers && 1 <= s.priorityOf(f, k) <= s.cp.priorityCount
  {
    hide GeometricGrid, NoGaps, Demand, B.Supported, Populated, Prepared, WellFormed, SingleSources;
    assert RealFlow(s, f) && FlowWellPosed(s, f);
    assert PrioritiesOf(s.priorityOf, f)(k) == s.priorityOf(f, k);
  }

  // ----- the theorem

  /** All structural and execution rows of a flow hold, and the point shows its placement, priorities and real times. */
  ghost predicate FlowAdmitted(s: Scenario, f: FlowId, p: Point)
  {
    var fp := ProblemOf(s, f);
    && Encodes(fp, p, s.placementOf(f)) && WellFormed(fp) && Domain(fp, p) && StructureRows(fp, p)
    && ShowsPriorities(fp, s.placementOf(f), PrioritiesOf(s.priorityOf, f), p)
    && B.TimesArePhysical(fp, DataOf(s, f), s.placementOf(f), p) && B.AllExecutionRows(fp, DataOf(s, f), p)
  }

  /** The wait of the queue is that of the priority queue, rounded up to the upper end of a bin. */
  ghost predicate HoldsRoundedWait(cp: ComputeProblem, w: WorkerId, r: int, p: Point)
  {
    exists bin :: RoundedQueue(cp, w, r, bin, p)
  }

  /** All queue rows of a worker, the compact ones included, every variable bound, and the rounded waits. */
  ghost predicate WorkerAdmitted(s: Scenario, w: WorkerId, p: Point)
  {
    && WorkerRows(s.cp, w, p)
    && forall r :: 1 <= r <= s.cp.priorityCount ==>
         CompactQueueRows(s.cp, w, r, p) && QueueBounds(s.cp, w, r, p) && HoldsRoundedWait(s.cp, w, r, p)
  }

  ghost predicate ComponentAdmitted(s: Scenario, f: FlowId, k: int, p: Point)
  {
    && ComponentWaitRows(s.cp, f, k, p) && ComponentBounds(s.cp, f, k, p)
    && forall w :: w in s.cp.workersByFlow(f) ==> ClassRows(s.cp, f, k, w, p)
  }

  /** The component waits exactly as long as the queue it is in. */
  predicate WaitsInItsQueue(s: Scenario, f: FlowId, k: int, p: Point)
  {
    p(ComponentQueueWait(f, k)) == p(QueueWait(s.placementOf(f).workerOf(k), s.priorityOf(f, k)))
  }

  /**
   No row and no a-priori bound cuts off a real placement: there is a point that encodes it with its physical
   times, and whose queues hold the waits rounded to the bins, and that point satisfies all of them.
   */
  lemma RealPlacementHasPoint(s: Scenario, e: real, z: Point) returns (p: Point)
    requires WellPosed(s, e) && Real(s)
    ensures forall f :: f in s.cp.flows ==> FlowAdmitted(s, f, p)
    ensures forall w :: w in s.cp.workers ==> WorkerAdmitted(s, w, p)
    ensures forall f, k :: f in s.cp.flows && 1 <= k <= s.cp.maxComponents ==> ComponentAdmitted(s, f, k, p)
    ensures forall f, k :: f in s.cp.flows && 1 <= k <= s.placementOf(f).last ==> WaitsInItsQueue(s, f, k, p)
    ensures p == RealPoint(s, z)
  {
    hide WellPosed, Real, RealPoint, RoundedQueue, QueueRows, CompactQueueRows, QueueBounds, ComponentWaitRows;
    hide ComponentBounds, ClassRows, FlowAdmitted, UsageRows, TotalUtilization;
    p := RealPoint(s, z);
    forall f | f in s.cp.flows ensures FlowAdmitted(s, f, p) { FlowIsAdmitted(s, e, f, z); }
    QueuesAndComponents(s, e, z);
    forall w, r | w in s.cp.workers && 1 <= r <= s.cp.priorityCount
      ensures QueueBounds(s.cp, w, r, p) && HoldsRoundedWait(s.cp, w, r, p)
    {
      QueueWithinBounds(s, e, w, r, z);
      QueueIsRounded(s, e, w, r, z);
    }
    forall w | w in s.cp.workers ensures UsageRows(s.cp, w, p) && TotalUtilization(s.cp, w, p) <= s.cp.utilizationLimit {
      WorkerRest(s, e, w, z);
    }
    forall f, k | f in s.cp.flows && 1 <= k <= s.placementOf(f).last ensures WaitsInItsQueue(s, f, k, p) {
      WaitShown(s, f, k, z);
      QueueShown(s, s.placementOf(f).workerOf(k), s.priorityOf(f, k), z);
    }
    forall f, k | f in s.cp.flows && 1 <= k <= s.cp.maxComponents
      ensures ComponentBounds(s.cp, f, k, p)
      ensures forall w :: w in s.cp.workersByFlow(f) ==> ClassRows(s.cp, f, k, w, p)
    {
      ComponentWithinBounds(s, e, f, k, z);
      ClassesOfComponent(s, e, f, k, z);
    }
  }

  lemma OthersKept(s: Scenario, x: Var, z: Point)
    requires IsOther(x)
    ensures RealPoint(s, z)(x) == z(x)
  {
  }

  lemma FlowIsAdmitted(s: Scenario, e: real, f: FlowId, z: Point)
    requires WellPosed(s, e) && Real(s) && f in s.cp.flows
    ensures FlowAdmitted(s, f, RealPoint(s, z))
  {
    hide WellPosed, Real, RealPoint, Encodes, WellFormed, Domain, StructureRows, B.TimesArePhysical, B.AllExecutionRows;
    FlowRowsHold(s, e, f, z);
  }

  lemma WorkerRest(s: Scenario, e: real, w: WorkerId, z: Point)
    requires WellPosed(s, e) && Real(s) && w in s.cp.workers
    ensures UsageRows(s.cp, w, RealPoint(s, z)) && TotalUtilization(s.cp, w, RealPoint(s, z)) <= s.cp.utilizationLimit
  {
    hide WellPosed, RealFlow, NoGaps, RealPoint, UsageRows, TotalUtilization, ShowsLoads, Demand;
    LoadsShown(s, z);
    UsageRowsHold(s, e, w, RealPoint(s, z));
    TotalIsDemand(s, e, w, RealPoint(s, z));
  }

  lemma ClassesOfComponent(s: Scenario, e: real, f: FlowId, k: int, z: Point)
    requires WellPosed(s, e) && Real(s) && f in s.cp.flows && 1 <= k <= s.cp.maxComponents
    ensures forall w :: w in s.cp.workersByFlow(f) ==> ClassRows(s.cp, f, k, w, RealPoint(s, z))
  {
    hide RealFlow, NoGaps, RealPoint, ShowsLoads, Demand, ClassRows, ClassDomain, Prepared, GeometricGrid, WellFormed, SingleSources;
    LoadsShown(s, z);
    assert FlowWellPosed(s, f);
    forall w | w in s.cp.workersByFlow(f) ensures ClassRows(s.cp, f, k, w, RealPoint(s, z)) {
      ClassRowsHold(s, e, f, k, w, RealPoint(s, z));
    }
  }

  /** The a-priori bounds keep the point, because its waits are the rounded ones of a real placement. */
  lemma QueuesAndComponents(s: Scenario, e: real, z: Point)
    requires WellPosed(s, e) && Real(s)
    ensures forall w, r :: w in s.cp.workers && 1 <= r <= s.cp.priorityCount ==>
              QueueRows(s.cp, w, r, RealPoint(s, z)) && CompactQueueRows(s.cp, w, r, RealPoint(s, z))
    ensures forall f, k :: f in s.cp.flows && 1 <= k <= s.cp.maxComponents ==> ComponentWaitRows(s.cp, f, k, RealPoint(s, z))
  {
    hide RealFlow, NoGaps, RealPoint, ShowsLoads, Demand, Prepared, GeometricGrid, RealWorker, RoundedQueue, BinOf;
    hide IdleComponent, RoundedComponent, QueueRows, CompactQueueRows, ComponentWaitRows, SingleSources, WellFormedTopology;
    hide Distinct;
    var p := RealPoint(s, z);
    LoadsShown(s, z);
    forall f, w | f in s.cp.flows && w in s.cp.workersByFlow(f) ensures w in s.cp.workers {
      assert FlowWellPosed(s, f);
    }
    forall f | f in s.cp.flows ensures Distinct(s.cp.workersByFlow(f)) { assert FlowWellPosed(s, f); }
    forall w | w in s.cp.workers ensures RealWorker(s.cp, ProfilesOf(s), s.placementOf, w, p) { WorkerIsReal(s, e, w, p); }
    var bins := (w: WorkerId, r: int) => BinOf(s, w, r);
    forall w, r | w in s.cp.workers && 1 <= r <= s.cp.priorityCount ensures RoundedQueue(s.cp, w, r, bins(w, r), p) {
      QueueIsRounded(s, e, w, r, z);
    }
    forall f, k | f in s.cp.flows && 1 <= k <= s.cp.maxComponents
      ensures IdleComponent(s.cp, f, k, p) || exists w, r :: RoundedComponent(s.cp, f, k, w, r, p)
    {
      assert RealFlow(s, f);
      ComponentIsRounded(s, f, k, z);
    }
    BoundsKeepRealPlacements(s.cp, ProfilesOf(s), s.placementOf, e, bins, p);
  }
}
