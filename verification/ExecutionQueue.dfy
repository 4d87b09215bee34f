/** The priority queues of gurobi_execution_queue_constraints.py and compact_execution_queue.py. */
module ExecutionQueue {
  import opened Lp
  import opened Sums
  import opened Seqs
  import opened BinLimits

  datatype ComputeProblem = ComputeProblem(
    flows: seq<FlowId>,
    workers: seq<WorkerId>,
    workersByFlow: FlowId -> seq<WorkerId>,
    modelsByFlow: FlowId -> seq<ModelVariantId>,
    rate: (FlowId, ModelVariantId) -> real,
    binLimits: seq<real>,
    maxWaitOfWorker: WorkerId -> real,
    maxWaitOfFlow: FlowId -> real,
    maxComponents: int,
    priorityCount: int,
    utilizationLimit: real)

  // ----- the expressions of the rows

  function Relevant(cp: ComputeProblem, w: WorkerId): seq<FlowId>
  {
    Filter(cp.flows, (f: FlowId) => w in cp.workersByFlow(f))
  }

  function Load(cp: ComputeProblem, f: FlowId, k: int, w: WorkerId, p: Point): ModelVariantId -> real
  {
    m => cp.rate(f, m) * p(ExecutionTime(f, m, k, w))
  }

  /** The utilization that component k of a flow causes on a worker. */
  function ClassUtilization(cp: ComputeProblem, f: FlowId, k: int, w: WorkerId, p: Point): real
  {
    SumOver(cp.modelsByFlow(f), Load(cp, f, k, w, p))
  }

  function Choice(f: FlowId, k: int, w: WorkerId, p: Point): int -> real
  {
    r => p(ComponentPriority(f, k, w, r))
  }

  function RhoBar(f: FlowId, k: int, w: WorkerId, p: Point): int -> real
  {
    r => p(PriorityClassUtilization(f, k, w, r))
  }

  function FlowRho(cp: ComputeProblem, f: FlowId, w: WorkerId, r: int, p: Point): real
  {
    SumOver(Range(1, cp.maxComponents + 1), (k: int) => p(PriorityClassUtilization(f, k, w, r)))
  }

  function ClassRho(cp: ComputeProblem, w: WorkerId, p: Point): int -> real
  {
    r => SumOver(Relevant(cp, w), (f: FlowId) => FlowRho(cp, f, w, r, p))
  }

  /** The utilization of the priorities 1, ..., r. */
  function RhoUpTo(cp: ComputeProblem, w: WorkerId, r: int, p: Point): real
  {
    SumOver(Range(1, r + 1), ClassRho(cp, w, p))
  }

  function FlowUtilization(cp: ComputeProblem, w: WorkerId, p: Point): FlowId -> real
  {
    f => SumOver(Range(1, cp.maxComponents + 1), (k: int) => ClassUtilization(cp, f, k, w, p))
  }

  function TotalUtilization(cp: ComputeProblem, w: WorkerId, p: Point): real
  {
    SumOver(Relevant(cp, w), FlowUtilization(cp, w, p))
  }

  function ModelMoment(cp: ComputeProblem, f: FlowId, w: WorkerId, p: Point): ModelVariantId -> real
  {
    m => SumOver(Range(1, cp.maxComponents + 1), (k: int) =>
      cp.rate(f, m) * p(ExecutionTime(f, m, k, w)) * p(ExecutionTime(f, m, k, w)))
  }

  function FlowMoment(cp: ComputeProblem, w: WorkerId, p: Point): FlowId -> real
  {
    f => SumOver(cp.modelsByFlow(f), ModelMoment(cp, f, w, p))
  }

  function SecondMoment(cp: ComputeProblem, w: WorkerId, p: Point): real
  {
    SumOver(Relevant(cp, w), FlowMoment(cp, w, p))
  }

  function Assignments(cp: ComputeProblem, w: WorkerId, r: int, p: Point): FlowId -> real
  {
    f => SumOver(Range(1, cp.maxComponents + 1), (k: int) => p(ComponentPriority(f, k, w, r)))
  }

  function Bins(cp: ComputeProblem): seq<int> { Range(1, |cp.binLimits|) }

  function Limit(cp: ComputeProblem, i: int): real
  {
    if 0 <= i < |cp.binLimits| then cp.binLimits[i] else 0.0
  }

  function BinChoice(w: WorkerId, r: int, p: Point): int -> real
  {
    i => p(ComputeBinSelected(w, r, i))
  }

  function LowerOf(cp: ComputeProblem, w: WorkerId, r: int, p: Point): int -> real
  {
    i => Limit(cp, i - 1) * p(ComputeBinSelected(w, r, i))
  }

  function UpperOf(cp: ComputeProblem, w: WorkerId, r: int, p: Point): int -> real
  {
    i => Limit(cp, i) * p(ComputeBinSelected(w, r, i))
  }

  function WaitOf(w: WorkerId, r: int, p: Point): int -> real
  {
    i => p(QueueWaitBin(w, r, i))
  }

  function WeightedWaitOf(cp: ComputeProblem, w: WorkerId, r: int, p: Point): int -> real
  {
    i => (1.0 - Limit(cp, i)) * p(QueueWaitBin(w, r, i))
  }

  /** The wait that the rotated cone row weighs by the remaining capacity. */
  function ConeWait(w: WorkerId, r: int, p: Point): real
  {
    if r >= 2 then p(WeightedQueueWait(w, r)) else p(QueueWait(w, r))
  }

  // ----- the rows

  predicate RhoBarRow(cp: ComputeProblem, f: FlowId, k: int, w: WorkerId, r: int, p: Point)
  {
    p(PriorityClassUtilization(f, k, w, r)) <= cp.utilizationLimit * p(ComponentPriority(f, k, w, r))
  }

  ghost predicate ClassRows(cp: ComputeProblem, f: FlowId, k: int, w: WorkerId, p: Point)
  {
    && SumOver(Range(1, cp.priorityCount + 1), Choice(f, k, w, p)) == p(ComponentWorker(f, k, w))
    && (forall r :: 1 <= r <= cp.priorityCount ==> RhoBarRow(cp, f, k, w, r, p))
    && SumOver(Range(1, cp.priorityCount + 1), RhoBar(f, k, w, p)) == ClassUtilization(cp, f, k, w, p)
  }

  predicate UsedByRow(cp: ComputeProblem, w: WorkerId, r: int, f: FlowId, k: int, p: Point)
  {
    p(PriorityUsed(w, r)) >= p(ComponentPriority(f, k, w, r))
  }

  ghost predicate UsedRows(cp: ComputeProblem, w: WorkerId, r: int, p: Point)
  {
    && p(PriorityUsed(w, r)) <= SumOver(Relevant(cp, w), Assignments(cp, w, r, p))
    && forall f, k :: f in Relevant(cp, w) && 1 <= k <= cp.maxComponents ==> UsedByRow(cp, w, r, f, k, p)
  }

  predicate PrefixRow(w: WorkerId, r: int, p: Point)
  {
    p(PriorityUsed(w, r)) >= p(PriorityUsed(w, r + 1))
  }

  ghost predicate UsageRows(cp: ComputeProblem, w: WorkerId, p: Point)
  {
    && (forall r :: 1 <= r <= cp.priorityCount ==> UsedRows(cp, w, r, p))
    && (forall r :: 1 <= r < cp.priorityCount ==> PrefixRow(w, r, p))
  }

  predicate BinWaitRow(w: WorkerId, r: int, bound: real, i: int, p: Point)
  {
    p(QueueWaitBin(w, r, i)) <= bound * p(ComputeBinSelected(w, r, i))
  }

  ghost predicate DiscretizationRows(cp: ComputeProblem, w: WorkerId, r: int, p: Point)
  {
    && SumOver(Bins(cp), BinChoice(w, r, p)) == 1.0
    && SumOver(Bins(cp), LowerOf(cp, w, r, p)) <= p(HigherPriorityUtilization(w, r))
    && p(HigherPriorityUtilization(w, r)) <= SumOver(Bins(cp), UpperOf(cp, w, r, p))
    && (forall i :: 1 <= i < |cp.binLimits| ==> BinWaitRow(w, r, cp.maxWaitOfWorker(w), i, p))
    && p(QueueWait(w, r)) == SumOver(Bins(cp), WaitOf(w, r, p))
    && p(WeightedQueueWait(w, r)) == SumOver(Bins(cp), WeightedWaitOf(cp, w, r, p))
  }

  ghost predicate QueueRows(cp: ComputeProblem, w: WorkerId, r: int, p: Point)
  {
    && p(RemainingCapacity(w, r)) == 1.0 - RhoUpTo(cp, w, r, p)
    && (r >= 2 ==> p(HigherPriorityUtilization(w, r)) == RhoUpTo(cp, w, r - 1, p) && DiscretizationRows(cp, w, r, p))
    && ConeRow(cp, w, r, p)
  }

  /** The rotated second-order cone row. */
  predicate ConeRow(cp: ComputeProblem, w: WorkerId, r: int, p: Point)
  {
    SecondMoment(cp, w, p) <= 2.0 * ConeWait(w, r, p) * p(RemainingCapacity(w, r))
  }

  ghost predicate WorkerRows(cp: ComputeProblem, w: WorkerId, p: Point)
  {
    && UsageRows(cp, w, p)
    && TotalUtilization(cp, w, p) <= cp.utilizationLimit
    && forall r :: 1 <= r <= cp.priorityCount ==> QueueRows(cp, w, r, p)
  }

  // ----- emission

  method DefineComponentUtilization(m: Model, cp: ComputeProblem, f: FlowId, k: int, w: WorkerId, ghost p: Point)
    requires cp.priorityCount >= 0
    modifies m
    ensures m.Sat(p) <==> (old(m.Sat(p)) && ClassRows(cp, f, k, w, p))
  {
    m.AddConstr(
      (q: Point) => SumOver(Range(1, cp.priorityCount + 1), Choice(f, k, w, q)) == q(ComponentWorker(f, k, w)), p);
    label Assigned:
    for r := 1 to cp.priorityCount + 1
      invariant m.Sat(p) <==> (old@Assigned(m.Sat(p)) && forall j :: 1 <= j < r ==> RhoBarRow(cp, f, k, w, j, p))
    {
      m.AddConstr((q: Point) => RhoBarRow(cp, f, k, w, r, q), p);
    }
    m.AddConstr(
      (q: Point) =>
        SumOver(Range(1, cp.priorityCount + 1), RhoBar(f, k, w, q)) == ClassUtilization(cp, f, k, w, q), p);
  }

  method AddUsedRows(m: Model, cp: ComputeProblem, w: WorkerId, r: int, ghost p: Point)
    requires cp.maxComponents >= 0
    modifies m
    ensures m.Sat(p) <==> (old(m.Sat(p)) && UsedRows(cp, w, r, p))
  {
    var relevant := Relevant(cp, w);
    m.AddConstr((q: Point) => q(PriorityUsed(w, r)) <= SumOver(Relevant(cp, w), Assignments(cp, w, r, q)), p);
    label Upper:
    for i := 0 to |relevant|
      invariant m.Sat(p) <==> (
                  && old@Upper(m.Sat(p))
                  && forall f, k :: f in relevant[..i] && 1 <= k <= cp.maxComponents ==> UsedByRow(cp, w, r, f, k, p))
    {
      label FlowStart:
      var f := relevant[i];
      for k := 1 to cp.maxComponents + 1
        invariant m.Sat(p) <==> (old@FlowStart(m.Sat(p)) && forall j :: 1 <= j < k ==> UsedByRow(cp, w, r, f, j, p))
      {
        m.AddConstr((q: Point) => UsedByRow(cp, w, r, f, k, q), p);
      }
      assert relevant[..i + 1] == relevant[..i] + [f];
    }
    assert relevant[..|relevant|] == relevant;
  }

  method AddPriorityUsageConstraints(m: Model, cp: ComputeProblem, w: WorkerId, ghost p: Point)
    requires cp.maxComponents >= 0 && cp.priorityCount >= 1
    modifies m
    ensures m.Sat(p) <==> (old(m.Sat(p)) && UsageRows(cp, w, p))
  {
    hide UsedRows;
    for r := 1 to cp.priorityCount + 1
      invariant m.Sat(p) <==> (old(m.Sat(p)) && forall j :: 1 <= j < r ==> UsedRows(cp, w, j, p))
    {
      AddUsedRows(m, cp, w, r, p);
    }
    label Used:
    for r := 1 to cp.priorityCount
      invariant m.Sat(p) <==> (old@Used(m.Sat(p)) && forall j :: 1 <= j < r ==> PrefixRow(w, j, p))
    {
      m.AddConstr((q: Point) => PrefixRow(w, r, q), p);
    }
  }

  method AddComputeDiscretizationConstraints(m: Model, cp: ComputeProblem, w: WorkerId, r: int, ghost p: Point)
    requires |cp.binLimits| >= 1
    modifies m
    ensures m.Sat(p) <==> (old(m.Sat(p)) && DiscretizationRows(cp, w, r, p))
  {
    m.AddConstr((q: Point) => SumOver(Bins(cp), BinChoice(w, r, q)) == 1.0, p);
    m.AddConstr((q: Point) => SumOver(Bins(cp), LowerOf(cp, w, r, q)) <= q(HigherPriorityUtilization(w, r)), p);
    m.AddConstr((q: Point) => q(HigherPriorityUtilization(w, r)) <= SumOver(Bins(cp), UpperOf(cp, w, r, q)), p);
    label Chosen:
    for i := 1 to |cp.binLimits|
      invariant m.Sat(p) <==> (
                  && old@Chosen(m.Sat(p))
                  && forall j :: 1 <= j < i ==> BinWaitRow(w, r, cp.maxWaitOfWorker(w), j, p))
    {
      m.AddConstr((q: Point) => BinWaitRow(w, r, cp.maxWaitOfWorker(w), i, q), p);
    }
    m.AddConstr((q: Point) => q(QueueWait(w, r)) == SumOver(Bins(cp), WaitOf(w, r, q)), p);
    m.AddConstr((q: Point) => q(WeightedQueueWait(w, r)) == SumOver(Bins(cp), WeightedWaitOf(cp, w, r, q)), p);
  }

  method AddQueueRows(m: Model, cp: ComputeProblem, w: WorkerId, r: int, ghost p: Point)
    requires |cp.binLimits| >= 1
    modifies m
    ensures m.Sat(p) <==> (old(m.Sat(p)) && QueueRows(cp, w, r, p))
  {
    hide DiscretizationRows, ConeRow, RhoUpTo;
    m.AddConstr((q: Point) => q(RemainingCapacity(w, r)) == 1.0 - RhoUpTo(cp, w, r, q), p);
    if r >= 2 {
      m.AddConstr((q: Point) => q(HigherPriorityUtilization(w, r)) == RhoUpTo(cp, w, r - 1, q), p);
      AddComputeDiscretizationConstraints(m, cp, w, r, p);
    }
    m.AddConstr((q: Point) => ConeRow(cp, w, r, q), p);
  }

  method AddWorkerRows(m: Model, cp: ComputeProblem, w: WorkerId, ghost p: Point)
    requires |cp.binLimits| >= 1 && cp.maxComponents >= 0 && cp.priorityCount >= 1
    modifies m
    ensures m.Sat(p) <==> (old(m.Sat(p)) && WorkerRows(cp, w, p))
  {
    hide UsageRows, QueueRows;
    AddPriorityUsageConstraints(m, cp, w, p);
    m.AddConstr((q: Point) => TotalUtilization(cp, w, q) <= cp.utilizationLimit, p);
    label Stable:
    for r := 1 to cp.priorityCount + 1
      invariant m.Sat(p) <==> (old@Stable(m.Sat(p)) && forall j :: 1 <= j < r ==> QueueRows(cp, w, j, p))
    {
      AddQueueRows(m, cp, w, r, p);
    }
  }

  // ----- the compact bounds

  function WaitUpper(cp: ComputeProblem, w: WorkerId, r: int): real
  {
    if r == 1 then cp.maxWaitOfWorker(w) * (1.0 - cp.utilizationLimit) else cp.maxWaitOfWorker(w)
  }

  function BinUpper(cp: ComputeProblem, w: WorkerId, i: int): real
  {
    if Limit(cp, i) == 1.0 then 0.0
    else cp.maxWaitOfWorker(w) * (1.0 - cp.utilizationLimit) / (1.0 - Limit(cp, i))
  }

  /** The upper bound of the wait variable and the bound of every bin. */
  ghost predicate CompactQueueRows(cp: ComputeProblem, w: WorkerId, r: int, p: Point)
  {
    && p(QueueWait(w, r)) <= WaitUpper(cp, w, r)
    && (r >= 2 ==> forall i :: 1 <= i < |cp.binLimits| ==> BinWaitRow(w, r, BinUpper(cp, w, i), i, p))
  }

  predicate ActivationRow(f: FlowId, k: int, w: WorkerId, r: int, bound: real, p: Point)
  {
    p(ComponentQueueWait(f, k)) >= p(QueueWait(w, r)) - bound * (1.0 - p(ComponentPriority(f, k, w, r)))
  }

  function ChosenUpper(cp: ComputeProblem, f: FlowId, k: int, w: WorkerId, p: Point): int -> real
  {
    r => WaitUpper(cp, w, r) * p(ComponentPriority(f, k, w, r))
  }

  function ChosenUpperOf(cp: ComputeProblem, f: FlowId, k: int, p: Point): WorkerId -> real
  {
    w => SumOver(Range(1, cp.priorityCount + 1), ChosenUpper(cp, f, k, w, p))
  }

  ghost predicate ActivationRows(cp: ComputeProblem, f: FlowId, k: int, w: WorkerId, p: Point)
  {
    forall r :: 1 <= r <= cp.priorityCount ==>
      && ActivationRow(f, k, w, r, cp.maxWaitOfWorker(w), p)
      && ActivationRow(f, k, w, r, WaitUpper(cp, w, r), p)
  }

  /** The rows of a component's wait: zero when inactive, at least the wait of the chosen queue, bounded by it. */
  ghost predicate ComponentWaitRows(cp: ComputeProblem, f: FlowId, k: int, p: Point)
  {
    && InactiveRow(cp, f, k, p)
    && (forall w :: w in cp.workersByFlow(f) ==> ActivationRows(cp, f, k, w, p))
    && p(ComponentQueueWait(f, k)) <= SumOver(cp.workersByFlow(f), ChosenUpperOf(cp, f, k, p))
  }

  method AddCompactQueueBounds(m: Model, cp: ComputeProblem, w: WorkerId, r: int, ghost p: Point)
    requires |cp.binLimits| >= 1
    modifies m
    ensures m.Sat(p) <==> (old(m.Sat(p)) && CompactQueueRows(cp, w, r, p))
  {
    hide BinUpper, WaitUpper, BinWaitRow;
    m.AddConstr((q: Point) => q(QueueWait(w, r)) <= WaitUpper(cp, w, r), p);
    if r != 1 && r >= 2 {
      label Upper:
      for i := 1 to |cp.binLimits|
        invariant m.Sat(p) <==> (
                    && old@Upper(m.Sat(p))
                    && forall j :: 1 <= j < i ==> BinWaitRow(w, r, BinUpper(cp, w, j), j, p))
      {
        m.AddConstr((q: Point) => BinWaitRow(w, r, BinUpper(cp, w, i), i, q), p);
      }
    }
  }

  method AddActivationRows(m: Model, cp: ComputeProblem, f: FlowId, k: int, w: WorkerId, ghost p: Point)
    requires cp.priorityCount >= 0
    modifies m
    ensures m.Sat(p) <==> (old(m.Sat(p)) && ActivationRows(cp, f, k, w, p))
  {
    hide ActivationRow, WaitUpper;
    for r := 1 to cp.priorityCount + 1
      invariant m.Sat(p) <==> (
                  && old(m.Sat(p))
                  && forall j :: 1 <= j < r ==>
                       ActivationRow(f, k, w, j, cp.maxWaitOfWorker(w), p) && ActivationRow(f, k, w, j, WaitUpper(cp, w, j), p))
    {
      m.AddConstr((q: Point) => ActivationRow(f, k, w, r, cp.maxWaitOfWorker(w), q), p);
      m.AddConstr((q: Point) => ActivationRow(f, k, w, r, WaitUpper(cp, w, r), q), p);
    }
  }

  predicate InactiveRow(cp: ComputeProblem, f: FlowId, k: int, p: Point)
  {
    p(ComponentQueueWait(f, k)) <= cp.maxWaitOfFlow(f) * p(ComponentActive(f, k))
  }

  method AddComponentWaitRows(m: Model, cp: ComputeProblem, f: FlowId, k: int, ghost p: Point)
    requires cp.priorityCount >= 0
    modifies m
    ensures m.Sat(p) <==> (old(m.Sat(p)) && ComponentWaitRows(cp, f, k, p))
  {
    hide ActivationRows;
    var workers := cp.workersByFlow(f);
    m.AddConstr((q: Point) => InactiveRow(cp, f, k, q), p);
    label Inactive:
    for i := 0 to |workers|
      invariant m.Sat(p) <==> (
                  old@Inactive(m.Sat(p)) && forall w :: w in workers[..i] ==> ActivationRows(cp, f, k, w, p))
    {
      AddActivationRows(m, cp, f, k, workers[i], p);
      assert workers[..i + 1] == workers[..i] + [workers[i]];
    }
    assert workers[..|workers|] == workers;
    m.AddConstr(
      (q: Point) => q(ComponentQueueWait(f, k)) <= SumOver(cp.workersByFlow(f), ChosenUpperOf(cp, f, k, q)), p);
  }

  // ----- the priority choice

  ghost predicate ClassDomain(cp: ComputeProblem, f: FlowId, k: int, w: WorkerId, p: Point)
  {
    && p(ComponentWorker(f, k, w)) <= 1.0
    && forall r :: 1 <= r <= cp.priorityCount ==>
         IsBinary(p(ComponentPriority(f, k, w, r))) && p(PriorityClassUtilization(f, k, w, r)) >= 0.0
  }

  lemma OffMeansIdle(cp: ComputeProblem, f: FlowId, k: int, w: WorkerId, r: int, p: Point)
    requires RhoBarRow(cp, f, k, w, r, p) && p(ComponentPriority(f, k, w, r)) == 0.0
    ensures p(PriorityClassUtilization(f, k, w, r)) <= 0.0
  {
  }

  /**
   The utilization variable of a priority is the class utilization if the priority is chosen, and else 0.
   A component that is not on the worker causes no utilization there.
   */
  lemma UtilizationFollowsChoice(cp: ComputeProblem, f: FlowId, k: int, w: WorkerId, p: Point)
    requires ClassRows(cp, f, k, w, p) && ClassDomain(cp, f, k, w, p)
    ensures forall r :: 1 <= r <= cp.priorityCount ==>
              p(PriorityClassUtilization(f, k, w, r))
              == if p(ComponentPriority(f, k, w, r)) == 1.0 then ClassUtilization(cp, f, k, w, p) else 0.0
    ensures IsBinary(p(ComponentWorker(f, k, w)))
    ensures p(ComponentWorker(f, k, w)) == 0.0 ==> ClassUtilization(cp, f, k, w, p) == 0.0
  {
    hide ClassUtilization, RhoBarRow;
    var keys := Range(1, cp.priorityCount + 1);
    forall r | r in keys
      ensures IsBinary(Choice(f, k, w, p)(r))
      ensures Choice(f, k, w, p)(r) == 0.0 ==> RhoBar(f, k, w, p)(r) == 0.0
    {
      assert RhoBarRow(cp, f, k, w, r, p);
      if p(ComponentPriority(f, k, w, r)) == 0.0 { OffMeansIdle(cp, f, k, w, r, p); }
    }
    BinarySum(keys, Choice(f, k, w, p));
    if p(ComponentWorker(f, k, w)) == 1.0 {
      var a :| a in keys && Choice(f, k, w, p)(a) == 1.0
               && forall r :: r in keys && r != a ==> Choice(f, k, w, p)(r) == 0.0;
      SumSingle(keys, RhoBar(f, k, w, p), a);
    } else {
      SumZero(keys, RhoBar(f, k, w, p));
    }
    forall r | 1 <= r <= cp.priorityCount
      ensures p(PriorityClassUtilization(f, k, w, r))
           == if p(ComponentPriority(f, k, w, r)) == 1.0 then ClassUtilization(cp, f, k, w, p) else 0.0
    {
      assert r in keys && RhoBar(f, k, w, p)(r) == p(PriorityClassUtilization(f, k, w, r));
      assert Choice(f, k, w, p)(r) == p(ComponentPriority(f, k, w, r));
    }
  }

  /** Some component on the worker has the priority. */
  ghost predicate InUse(cp: ComputeProblem, w: WorkerId, r: int, p: Point)
  {
    exists f, k :: f in Relevant(cp, w) && 1 <= k <= cp.maxComponents && p(ComponentPriority(f, k, w, r)) == 1.0
  }

  ghost predicate ChoicesBinary(cp: ComputeProblem, w: WorkerId, p: Point)
  {
    forall f, k, r :: f in Relevant(cp, w) && 1 <= k <= cp.maxComponents && 1 <= r <= cp.priorityCount ==>
      IsBinary(p(ComponentPriority(f, k, w, r)))
  }

  /** The usage variable is forced to 0 or 1, and says whether the priority is in use. */
  lemma UsedIsBinary(cp: ComputeProblem, w: WorkerId, r: int, p: Point)
    requires UsageRows(cp, w, p) && ChoicesBinary(cp, w, p) && 1 <= r <= cp.priorityCount
    requires 0.0 <= p(PriorityUsed(w, r)) <= 1.0
    ensures p(PriorityUsed(w, r)) == if InUse(cp, w, r, p) then 1.0 else 0.0
  {
    assert UsedRows(cp, w, r, p);
    if InUse(cp, w, r, p) {
      var f, k :| f in Relevant(cp, w) && 1 <= k <= cp.maxComponents && p(ComponentPriority(f, k, w, r)) == 1.0;
      assert UsedByRow(cp, w, r, f, k, p);
    } else {
      forall f | f in Relevant(cp, w) ensures Assignments(cp, w, r, p)(f) == 0.0 {
        var g := (k: int) => p(ComponentPriority(f, k, w, r));
        forall k | k in Range(1, cp.maxComponents + 1) ensures g(k) == 0.0 {
          assert IsBinary(p(ComponentPriority(f, k, w, r)));
        }
        SumZero(Range(1, cp.maxComponents + 1), g);
      }
      SumZero(Relevant(cp, w), Assignments(cp, w, r, p));
    }
  }

  /** A worker uses the priorities without a gap. */
  lemma {:induction false} UsedPrefix(cp: ComputeProblem, w: WorkerId, r: int, s: int, p: Point)
    requires UsageRows(cp, w, p) && ChoicesBinary(cp, w, p) && 1 <= r <= s <= cp.priorityCount
    requires forall j :: 1 <= j <= cp.priorityCount ==> UsedBounded(w, j, p)
    requires InUse(cp, w, s, p)
    ensures InUse(cp, w, r, p)
    decreases s - r
  {
    hide InUse, UsedRows;
    if r < s {
      UsedPrefix(cp, w, r + 1, s, p);
      assert PrefixRow(w, r, p) && UsedBounded(w, r, p) && UsedBounded(w, r + 1, p);
      UsedIsBinary(cp, w, r, p);
      UsedIsBinary(cp, w, r + 1, p);
    }
  }

  predicate UsedBounded(w: WorkerId, r: int, p: Point)
  {
    0.0 <= p(PriorityUsed(w, r)) <= 1.0
  }

  // ----- the wait of one queue

  ghost predicate BinDomain(cp: ComputeProblem, w: WorkerId, r: int, p: Point)
  {
    forall i :: 1 <= i < |cp.binLimits| ==>
      IsBinary(p(ComputeBinSelected(w, r, i))) && p(QueueWaitBin(w, r, i)) >= 0.0
  }

  ghost predicate SelectedBin(cp: ComputeProblem, w: WorkerId, r: int, p: Point, i: int)
  {
    && 1 <= i < |cp.binLimits| && p(ComputeBinSelected(w, r, i)) == 1.0
    && forall j :: 1 <= j < |cp.binLimits| && j != i ==>
         p(ComputeBinSelected(w, r, j)) == 0.0 && p(QueueWaitBin(w, r, j)) == 0.0
  }

  /** With binary choices one bin is selected, and the waits of the others are 0. */
  lemma SomeBin(cp: ComputeProblem, w: WorkerId, r: int, p: Point) returns (i: int)
    requires DiscretizationRows(cp, w, r, p) && BinDomain(cp, w, r, p)
    ensures SelectedBin(cp, w, r, p, i)
  {
    hide BinWaitRow, LowerOf, UpperOf, WaitOf, WeightedWaitOf;
    var keys := Bins(cp);
    forall j | j in keys ensures IsBinary(BinChoice(w, r, p)(j)) { }
    BinarySum(keys, BinChoice(w, r, p));
    i :| i in keys && BinChoice(w, r, p)(i) == 1.0
         && forall j :: j in keys && j != i ==> BinChoice(w, r, p)(j) == 0.0;
    forall j | 1 <= j < |cp.binLimits| && j != i
      ensures p(ComputeBinSelected(w, r, j)) == 0.0 && p(QueueWaitBin(w, r, j)) == 0.0
    {
      assert j in keys && BinChoice(w, r, p)(j) == p(ComputeBinSelected(w, r, j));
      OffMeansNoWait(w, r, cp.maxWaitOfWorker(w), j, p);
    }
  }

  lemma OffMeansNoWait(w: WorkerId, r: int, bound: real, i: int, p: Point)
    requires BinWaitRow(w, r, bound, i, p) && p(ComputeBinSelected(w, r, i)) == 0.0
    ensures p(QueueWaitBin(w, r, i)) <= 0.0
  {
  }

  lemma OffBin(cp: ComputeProblem, w: WorkerId, r: int, p: Point, i: int, j: int)
    requires SelectedBin(cp, w, r, p, i) && j in Bins(cp) && j != i
    ensures LowerOf(cp, w, r, p)(j) == 0.0 && UpperOf(cp, w, r, p)(j) == 0.0
    ensures WaitOf(w, r, p)(j) == 0.0 && WeightedWaitOf(cp, w, r, p)(j) == 0.0
  {
    hide Limit;
    assert p(ComputeBinSelected(w, r, j)) == 0.0 && p(QueueWaitBin(w, r, j)) == 0.0;
  }

  lemma OnBin(cp: ComputeProblem, w: WorkerId, r: int, p: Point, i: int)
    requires SelectedBin(cp, w, r, p, i)
    ensures LowerOf(cp, w, r, p)(i) == Limit(cp, i - 1) && UpperOf(cp, w, r, p)(i) == Limit(cp, i)
    ensures WaitOf(w, r, p)(i) == p(QueueWaitBin(w, r, i))
    ensures WeightedWaitOf(cp, w, r, p)(i) == (1.0 - Limit(cp, i)) * p(QueueWaitBin(w, r, i))
  {
    hide Limit;
  }

  /** The sums over the bins, when bin i is selected. */
  lemma SumsAtBin(cp: ComputeProblem, w: WorkerId, r: int, p: Point, i: int)
    requires SelectedBin(cp, w, r, p, i)
    ensures SumOver(Bins(cp), LowerOf(cp, w, r, p)) == Limit(cp, i - 1)
    ensures SumOver(Bins(cp), UpperOf(cp, w, r, p)) == Limit(cp, i)
    ensures SumOver(Bins(cp), WaitOf(w, r, p)) == p(QueueWaitBin(w, r, i))
    ensures SumOver(Bins(cp), WeightedWaitOf(cp, w, r, p)) == (1.0 - Limit(cp, i)) * p(QueueWaitBin(w, r, i))
  {
    hide Limit, LowerOf, UpperOf, WaitOf, WeightedWaitOf, SumOver;
    forall j | j in Bins(cp) && j != i
      ensures LowerOf(cp, w, r, p)(j) == 0.0 && UpperOf(cp, w, r, p)(j) == 0.0
      ensures WaitOf(w, r, p)(j) == 0.0 && WeightedWaitOf(cp, w, r, p)(j) == 0.0
    {
      OffBin(cp, w, r, p, i, j);
    }
    OnBin(cp, w, r, p, i);
    SumSingle(Bins(cp), LowerOf(cp, w, r, p), i);
    SumSingle(Bins(cp), UpperOf(cp, w, r, p), i);
    SumSingle(Bins(cp), WaitOf(w, r, p), i);
    SumSingle(Bins(cp), WeightedWaitOf(cp, w, r, p), i);
  }

  /** One bin is selected, it holds the utilization, and it carries the whole wait. */
  lemma OneBin(cp: ComputeProblem, w: WorkerId, r: int, p: Point) returns (i: int)
    requires DiscretizationRows(cp, w, r, p) && BinDomain(cp, w, r, p)
    ensures SelectedBin(cp, w, r, p, i)
    ensures Limit(cp, i - 1) <= p(HigherPriorityUtilization(w, r)) <= Limit(cp, i)
    ensures p(QueueWait(w, r)) == p(QueueWaitBin(w, r, i))
    ensures p(WeightedQueueWait(w, r)) == (1.0 - Limit(cp, i)) * p(QueueWait(w, r))
  {
    hide Limit, BinWaitRow, LowerOf, UpperOf, WaitOf, WeightedWaitOf, BinDomain, SelectedBin;
    i := SomeBin(cp, w, r, p);
    SumsAtBin(cp, w, r, p, i);
  }

  /** The utilization at which the wait is rounded up: the upper end of the selected bin, exact for priority 1. */
  ghost function RoundedRho(cp: ComputeProblem, w: WorkerId, r: int, p: Point): real
    requires r >= 2 ==> DiscretizationRows(cp, w, r, p) && BinDomain(cp, w, r, p)
  {
    if r >= 2 then
      assert exists i :: SelectedBin(cp, w, r, p, i) by { var i := OneBin(cp, w, r, p); }
      var i :| SelectedBin(cp, w, r, p, i);
      Limit(cp, i)
    else 0.0
  }

  /** The least wait that the cone row admits. */
  ghost function LeastWait(cp: ComputeProblem, w: WorkerId, r: int, p: Point): real
    requires r >= 2 ==> DiscretizationRows(cp, w, r, p) && BinDomain(cp, w, r, p)
    requires (1.0 - RoundedRho(cp, w, r, p)) * (1.0 - RhoUpTo(cp, w, r, p)) != 0.0
  {
    SecondMoment(cp, w, p) / (2.0 * ((1.0 - RoundedRho(cp, w, r, p)) * (1.0 - RhoUpTo(cp, w, r, p))))
  }

  lemma DivisionBound(h: real, c: real, x: real)
    requires c > 0.0
    ensures x >= h / c <==> x * c >= h
    ensures (h / c) * c == h
  {
    var y := h / c;
    assert y * c == h;
    if x >= y { Scale(c, y, x); } else { ScaleStrict(c, x, y); }
  }

  /**
   At binary choices the rows admit a wait exactly when it is at least LeastWait. That is the wait of the
   non-preemptive priority queue, H / (2 (1 - rho_lt) (1 - rho_le)), up to the factor 1 + e.
   */
  lemma WaitWithinRelativeError(cp: ComputeProblem, e: real, w: WorkerId, r: int, p: Point)
    requires 0.0 < e && 0.0 < cp.utilizationLimit < 1.0 && GeometricGrid(cp.binLimits, cp.utilizationLimit, e)
    requires 1 <= r <= cp.priorityCount && RhoUpTo(cp, w, r, p) < 1.0 && SecondMoment(cp, w, p) >= 0.0
    requires p(RemainingCapacity(w, r)) == 1.0 - RhoUpTo(cp, w, r, p)
    requires r >= 2 ==> && DiscretizationRows(cp, w, r, p) && BinDomain(cp, w, r, p)
                        && p(HigherPriorityUtilization(w, r)) == RhoUpTo(cp, w, r - 1, p)
    ensures 1.0 - RoundedRho(cp, w, r, p) > 0.0
    ensures (1.0 - RoundedRho(cp, w, r, p)) * (1.0 - RhoUpTo(cp, w, r, p)) > 0.0
    ensures QueueRows(cp, w, r, p) <==> p(QueueWait(w, r)) >= LeastWait(cp, w, r, p)
    ensures var rhoLt := if r >= 2 then RhoUpTo(cp, w, r - 1, p) else 0.0;
            var factor := 2.0 * ((1.0 - rhoLt) * (1.0 - RhoUpTo(cp, w, r, p)));
            SecondMoment(cp, w, p) <= LeastWait(cp, w, r, p) * factor <= (1.0 + e) * SecondMoment(cp, w, p)
  {
    hide SecondMoment, RhoUpTo, DiscretizationRows, BinDomain, Limit, GeometricGrid, ConeRow, LeastWait, ConeWait;
    var rounded, remaining := 1.0 - RoundedRho(cp, w, r, p), 1.0 - RhoUpTo(cp, w, r, p);
    var rhoLt := if r >= 2 then RhoUpTo(cp, w, r - 1, p) else 0.0;
    RoundedWithin(cp, e, w, r, rhoLt, p);
    ScaleStrict(rounded, 0.0, remaining);
    ConeExact(cp, w, r, p);
    FactorBetween(SecondMoment(cp, w, p), LeastWait(cp, w, r, p), rounded, 1.0 - rhoLt, remaining, e);
  }

  /** The cone row, with the capacity that remains and the rounded one, is a lower bound on the wait. */
  lemma ConeExact(cp: ComputeProblem, w: WorkerId, r: int, p: Point)
    requires r >= 2 ==> DiscretizationRows(cp, w, r, p) && BinDomain(cp, w, r, p)
    requires RhoUpTo(cp, w, r, p) < 1.0 && RoundedRho(cp, w, r, p) < 1.0
    requires (1.0 - RoundedRho(cp, w, r, p)) * (1.0 - RhoUpTo(cp, w, r, p)) > 0.0
    requires p(RemainingCapacity(w, r)) == 1.0 - RhoUpTo(cp, w, r, p)
    requires ConeWait(w, r, p) == (1.0 - RoundedRho(cp, w, r, p)) * p(QueueWait(w, r))
    ensures ConeRow(cp, w, r, p) <==> p(QueueWait(w, r)) >= LeastWait(cp, w, r, p)
    ensures LeastWait(cp, w, r, p) * (2.0 * ((1.0 - RoundedRho(cp, w, r, p)) * (1.0 - RhoUpTo(cp, w, r, p))))
         == SecondMoment(cp, w, p)
  {
    hide SecondMoment, RhoUpTo, DiscretizationRows, BinDomain, RoundedRho, ConeWait;
    var rounded, remaining := 1.0 - RoundedRho(cp, w, r, p), 1.0 - RhoUpTo(cp, w, r, p);
    DivisionBound(SecondMoment(cp, w, p), 2.0 * (rounded * remaining), p(QueueWait(w, r)));
    Reorder(rounded, p(QueueWait(w, r)), remaining);
  }

  lemma Reorder(a: real, b: real, c: real)
    ensures 2.0 * (a * b) * c == b * (2.0 * (a * c))
  {
  }

  lemma RoundedWithin(cp: ComputeProblem, e: real, w: WorkerId, r: int, rhoLt: real, p: Point)
    requires 0.0 < e && 0.0 < cp.utilizationLimit < 1.0 && GeometricGrid(cp.binLimits, cp.utilizationLimit, e)
    requires r >= 2 ==> && DiscretizationRows(cp, w, r, p) && BinDomain(cp, w, r, p)
                        && p(HigherPriorityUtilization(w, r)) == rhoLt
    requires r < 2 ==> rhoLt == 0.0
    ensures 0.0 < 1.0 - RoundedRho(cp, w, r, p) <= 1.0 - rhoLt <= (1.0 + e) * (1.0 - RoundedRho(cp, w, r, p))
    ensures 0.0 <= RoundedRho(cp, w, r, p) <= cp.utilizationLimit
    ensures ConeWait(w, r, p) == (1.0 - RoundedRho(cp, w, r, p)) * p(QueueWait(w, r))
  {
    hide DiscretizationRows, BinDomain;
    if r >= 2 {
      var i := OneBin(cp, w, r, p);
      BinUnique(cp, w, r, p, i);
      GridOrdered(cp.binLimits, cp.utilizationLimit, e, i - 1, i);
      assert BinStep(cp.binLimits[i - 1], cp.binLimits[i], e);
    }
  }

  lemma BinUnique(cp: ComputeProblem, w: WorkerId, r: int, p: Point, i: int)
    requires r >= 2 && DiscretizationRows(cp, w, r, p) && BinDomain(cp, w, r, p) && SelectedBin(cp, w, r, p, i)
    ensures RoundedRho(cp, w, r, p) == Limit(cp, i)
  {
    hide DiscretizationRows, BinDomain;
    assert forall j :: SelectedBin(cp, w, r, p, j) ==> j == i;
  }

  lemma FactorBetween(h: real, least: real, rounded: real, exact: real, remaining: real, e: real)
    requires h >= 0.0 && 0.0 < rounded <= exact <= (1.0 + e) * rounded && remaining > 0.0 && e > 0.0
    requires least * (2.0 * (rounded * remaining)) == h
    ensures h <= least * (2.0 * (exact * remaining)) <= (1.0 + e) * h
  {
    var c := 2.0 * (rounded * remaining);
    ScaleStrict(remaining, 0.0, rounded);
    if least < 0.0 { ScaleStrict(c, least, 0.0); }
    Scale(remaining, rounded, exact);
    Scale(remaining, exact, (1.0 + e) * rounded);
    Scale(least, c, 2.0 * (exact * remaining));
    Scale(least, 2.0 * (exact * remaining), 2.0 * (((1.0 + e) * rounded) * remaining));
    Spread(least, rounded, remaining, e);
  }

  lemma Spread(least: real, rounded: real, remaining: real, e: real)
    ensures least * (2.0 * (((1.0 + e) * rounded) * remaining)) == (1.0 + e) * (least * (2.0 * (rounded * remaining)))
  {
    var x := rounded * remaining;
    assert ((1.0 + e) * rounded) * remaining == (1.0 + e) * x;
    SpreadOne(least, x, e);
  }

  lemma SpreadOne(least: real, x: real, e: real)
    ensures least * (2.0 * ((1.0 + e) * x)) == (1.0 + e) * (least * (2.0 * x))
  {
    assert (1.0 + e) * x == x + e * x;
    assert (1.0 + e) * (least * (2.0 * x)) == least * (2.0 * x) + e * (least * (2.0 * x));
    assert e * (least * (2.0 * x)) == least * (2.0 * (e * x));
  }
}
