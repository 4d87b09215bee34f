/** The rows of compact_network_queue.py and what they mean for a worker with a selected bin. */
module NetworkQueue {
  import opened Lp
  import opened Sums
  import opened ProcessorSharing
  import opened BinLimits

  datatype NetworkProblem = NetworkProblem(
    flows: seq<FlowId>,
    workers: seq<WorkerId>,
    workersByFlow: FlowId -> seq<WorkerId>,
    modelsByFlow: FlowId -> seq<ModelVariantId>,
    arrivalRate: (FlowId, ModelVariantId) -> real,
    binLimits: seq<real>,
    nominalUpper: (FlowId, WorkerId) -> real,
    maxComponents: int,
    utilizationLimit: real)

  predicate UsableLimits(limits: seq<real>)
  {
    |limits| > 0 && forall i :: 1 <= i < |limits| ==> limits[i] != 1.0
  }

  method AddProjectedPsEpigraph(
    m: Model, response: Var, nominal: LinExpr, upper: real, limits: seq<real>, selected: seq<Var>, ghost p: Point)
    requires UsableLimits(limits) && |selected| == |limits| - 1
    modifies m
    ensures m.Sat(p) <==> (
              && old(m.Sat(p))
              && ProjectedRows(p(response), nominal(p), upper, Multipliers(limits), Values(selected, p)))
  {
    hide ProjectedRow;
    var multipliers := Multipliers(limits);
    m.AddConstr((q: Point) => nominal(q) <= upper, p);
    for i := 0 to |multipliers|
      invariant m.Sat(p) <==> (
                  && old(m.Sat(p))
                  && nominal(p) <= upper
                  && forall k :: 0 <= k < i ==>
                       ProjectedRow(p(response), nominal(p), upper, multipliers, Values(selected, p), k))
    {
      m.AddConstr(
        (q: Point) => ProjectedRow(q(response), nominal(q), upper, multipliers, Values(selected, q), i), p);
    }
  }

  // ----- the queue of one worker

  function BinVars(problem: NetworkProblem, worker: WorkerId): (r: seq<Var>)
    requires UsableLimits(problem.binLimits)
    ensures |r| == |problem.binLimits| - 1
    ensures forall i :: 0 <= i < |r| ==> r[i] == NetworkBinSelected(worker, i + 1)
  {
    seq(|problem.binLimits| - 1, i => NetworkBinSelected(worker, i + 1))
  }

  function OfferedLoad(problem: NetworkProblem, worker: WorkerId): LinExpr
  {
    (p: Point) =>
      SumOver(problem.flows, (flow: FlowId) =>
        if worker in problem.workersByFlow(flow) then
          SumOver(problem.modelsByFlow(flow), (variant: ModelVariantId) =>
            SumOver(Range(1, problem.maxComponents), (cut: int) =>
              problem.arrivalRate(flow, variant) * p(TransmissionTime(flow, variant, cut, worker))))
        else 0.0)
  }

  ghost predicate WorkerRows(problem: NetworkProblem, worker: WorkerId, p: Point)
    requires UsableLimits(problem.binLimits)
  {
    var rho := p(NetworkUtilization(worker));
    var g := Values(BinVars(problem, worker), p);
    && rho == OfferedLoad(problem, worker)(p)
    && rho <= problem.utilizationLimit
    && Prefix(g, |g|) == 1.0
    && Cost(problem.binLimits[..|g|], g, |g|) <= rho <= Cost(problem.binLimits[1..], g, |g|)
  }

  method AddWorkerRows(m: Model, problem: NetworkProblem, worker: WorkerId, ghost p: Point)
    requires UsableLimits(problem.binLimits)
    modifies m
    ensures m.Sat(p) <==> old(m.Sat(p)) && WorkerRows(problem, worker, p)
  {
    var selected := BinVars(problem, worker);
    var rho := NetworkUtilization(worker);
    var lower, upper := problem.binLimits[..|selected|], problem.binLimits[1..];
    m.AddConstr((q: Point) => q(rho) == OfferedLoad(problem, worker)(q), p);
    m.AddConstr((q: Point) => q(rho) <= problem.utilizationLimit, p);
    m.AddConstr((q: Point) => Prefix(Values(selected, q), |selected|) == 1.0, p);
    m.AddConstr((q: Point) => Cost(lower, Values(selected, q), |selected|) <= q(rho), p);
    m.AddConstr((q: Point) => q(rho) <= Cost(upper, Values(selected, q), |selected|), p);
  }

  function NominalTime(problem: NetworkProblem, flow: FlowId, cut: int, worker: WorkerId): LinExpr
  {
    (p: Point) =>
      SumOver(problem.modelsByFlow(flow), (variant: ModelVariantId) => p(TransmissionTime(flow, variant, cut, worker)))
  }

  function TotalResponse(problem: NetworkProblem, flow: FlowId, cut: int): LinExpr
  {
    (p: Point) => SumOver(problem.workersByFlow(flow), (worker: WorkerId) => p(SourceResponse(flow, cut, worker)))
  }

  ghost predicate SourceRows(problem: NetworkProblem, flow: FlowId, cut: int, worker: WorkerId, p: Point)
    requires UsableLimits(problem.binLimits)
  {
    ProjectedRows(
      p(SourceResponse(flow, cut, worker)), NominalTime(problem, flow, cut, worker)(p),
      problem.nominalUpper(flow, worker), Multipliers(problem.binLimits), Values(BinVars(problem, worker), p))
  }

  ghost predicate CutRows(problem: NetworkProblem, flow: FlowId, cut: int, p: Point)
    requires UsableLimits(problem.binLimits)
  {
    && (forall i :: 0 <= i < |problem.workersByFlow(flow)| ==>
          SourceRows(problem, flow, cut, problem.workersByFlow(flow)[i], p))
    && p(TransmissionResponse(flow, cut)) >= TotalResponse(problem, flow, cut)(p)
  }

  method AddCutRows(m: Model, problem: NetworkProblem, flow: FlowId, cut: int, ghost p: Point)
    requires UsableLimits(problem.binLimits)
    modifies m
    ensures m.Sat(p) <==> old(m.Sat(p)) && CutRows(problem, flow, cut, p)
  {
    var workers := problem.workersByFlow(flow);
    for i := 0 to |workers|
      invariant m.Sat(p) <==> (
                  && old(m.Sat(p))
                  && forall k :: 0 <= k < i ==> SourceRows(problem, flow, cut, workers[k], p))
    {
      AddProjectedPsEpigraph(
        m, SourceResponse(flow, cut, workers[i]), NominalTime(problem, flow, cut, workers[i]),
        problem.nominalUpper(flow, workers[i]), problem.binLimits, BinVars(problem, workers[i]), p);
    }
    m.AddConstr((q: Point) => q(TransmissionResponse(flow, cut)) >= TotalResponse(problem, flow, cut)(q), p);
  }

  ghost predicate NetworkQueueRows(problem: NetworkProblem, p: Point)
    requires UsableLimits(problem.binLimits)
  {
    && (forall i :: 0 <= i < |problem.workers| ==> WorkerRows(problem, problem.workers[i], p))
    && (forall i, cut :: 0 <= i < |problem.flows| && 1 <= cut < problem.maxComponents ==>
          CutRows(problem, problem.flows[i], cut, p))
  }

  method AddCompactNetworkQueueConstraints(m: Model, problem: NetworkProblem, ghost p: Point)
    requires UsableLimits(problem.binLimits)
    modifies m
    ensures m.Sat(p) <==> old(m.Sat(p)) && NetworkQueueRows(problem, p)
  {
    for i := 0 to |problem.workers|
      invariant m.Sat(p) <==> (
                  && old(m.Sat(p))
                  && forall k :: 0 <= k < i ==> WorkerRows(problem, problem.workers[k], p))
    {
      AddWorkerRows(m, problem, problem.workers[i], p);
    }
    label WorkersDone:
    for i := 0 to |problem.flows|
      invariant m.Sat(p) <==> (
                  && old@WorkersDone(m.Sat(p))
                  && forall k, cut :: 0 <= k < i && 1 <= cut < problem.maxComponents ==>
                       CutRows(problem, problem.flows[k], cut, p))
    {
      label FlowStart:
      var cut := 1;
      while cut < problem.maxComponents
        invariant 1 <= cut && (cut <= problem.maxComponents || cut == 1)
        invariant m.Sat(p) <==> (
                    && old@FlowStart(m.Sat(p))
                    && forall c :: 1 <= c < cut ==> CutRows(problem, problem.flows[i], c, p))
      {
        AddCutRows(m, problem, problem.flows[i], cut, p);
        cut := cut + 1;
      }
    }
  }

  // ----- meaning at points with binary bin selections

  ghost predicate OneHot(g: seq<real>, k: nat)
  {
    k < |g| && g[k] == 1.0 && forall j :: 0 <= j < |g| && j != k ==> g[j] == 0.0
  }

  lemma {:induction false} PrefixAtMostOne(g: seq<real>, n: nat)
    requires n <= |g| && forall j :: 0 <= j < |g| ==> IsBinary(g[j])
    ensures Prefix(g, n) >= 0.0
    ensures Prefix(g, n) < 1.0 ==> Prefix(g, n) == 0.0 && forall j :: 0 <= j < n ==> g[j] == 0.0
    ensures Prefix(g, n) == 1.0 ==>
              exists k :: 0 <= k < n && g[k] == 1.0 && forall j :: 0 <= j < n && j != k ==> g[j] == 0.0
  {
    if n > 0 {
      PrefixAtMostOne(g, n - 1);
      if Prefix(g, n) == 1.0 {
        if g[n - 1] == 1.0 {
          assert forall j :: 0 <= j < n && j != n - 1 ==> g[j] == 0.0;
        } else {
          var k :| 0 <= k < n - 1 && g[k] == 1.0 && forall j :: 0 <= j < n - 1 && j != k ==> g[j] == 0.0;
          assert forall j :: 0 <= j < n && j != k ==> g[j] == 0.0;
        }
      }
    }
  }

  lemma {:induction false} OneHotCost(m: seq<real>, g: seq<real>, k: nat, n: nat)
    requires OneHot(g, k) && n <= |g| == |m|
    ensures Cost(m, g, n) == if k < n then m[k] else 0.0
    ensures Prefix(g, n) == if k < n then 1.0 else 0.0
  {
    if n > 0 {
      OneHotCost(m, g, k, n - 1);
    }
  }

  /** With bin k selected, all the projected rows together are one row: the bin's own multiplier. */
  lemma OneHotCollapse(response: real, nominal: real, upper: real, m: seq<real>, g: seq<real>, k: nat)
    requires |g| == |m| && OneHot(g, k) && Increasing(m) && 0.0 <= nominal
    ensures ProjectedRows(response, nominal, upper, m, g)
       <==> nominal <= upper && response >= m[k] * nominal
  {
    hide Correction;
    forall i | 0 <= i < |m|
      ensures Correction(m, g, m[i], i) == if k < i then m[i] - m[k] else 0.0
    {
      OneHotCost(m, g, k, i);
      CorrectionIsShortfall(m, g, m[i], i);
    }
    if ProjectedRows(response, nominal, upper, m, g) {
      assert ProjectedRow(response, nominal, upper, m, g, k);
    }
    if nominal <= upper && response >= m[k] * nominal {
      forall i | 0 <= i < |m| ensures ProjectedRow(response, nominal, upper, m, g, i) {
        if i <= k {
          ScaleOrder(nominal, m[i], m[k]);
        } else {
          ScaleOrder(m[i] - m[k], nominal, upper);
        }
      }
    }
  }

  /**
   At a point whose bins are binary, a worker has exactly one bin, its utilization lies in it, and the
   least response that the rows allow for a nominal time lies between the processor-sharing response
   nominal / (1 - rho) and (1 + e) times it.
   */
  lemma ResponseWithinRelativeError(
    problem: NetworkProblem, e: real, flow: FlowId, cut: int, worker: WorkerId, p: Point) returns (least: real)
    requires 0.0 < e && 0.0 < problem.utilizationLimit < 1.0
    requires GeometricGrid(problem.binLimits, problem.utilizationLimit, e) && UsableLimits(problem.binLimits)
    requires WorkerRows(problem, worker, p)
    requires forall i :: 1 <= i < |problem.binLimits| ==> IsBinary(p(NetworkBinSelected(worker, i)))
    requires 0.0 <= NominalTime(problem, flow, cut, worker)(p) <= problem.nominalUpper(flow, worker)
    ensures SourceRows(problem, flow, cut, worker, p) <==> p(SourceResponse(flow, cut, worker)) >= least
    ensures var nominal, idle := NominalTime(problem, flow, cut, worker)(p), 1.0 - p(NetworkUtilization(worker));
            idle > 0.0 && nominal <= least * idle <= (1.0 + e) * nominal
  {
    hide WorkerRows, ProjectedRows, NominalTime, BinStep, Values, BinVars, Multipliers, Increasing;
    var limits, m := problem.binLimits, Multipliers(problem.binLimits);
    var g := Values(BinVars(problem, worker), p);
    var rho, nominal := p(NetworkUtilization(worker)), NominalTime(problem, flow, cut, worker)(p);
    var k := SelectedBin(problem, worker, p);
    forall i, j | 0 <= i <= j < |limits| ensures limits[i] <= limits[j] < 1.0 {
      GridOrdered(limits, problem.utilizationLimit, e, i, j);
    }
    MultipliersIncrease(limits);
    least := m[k] * nominal;
    OneHotCollapse(p(SourceResponse(flow, cut, worker)), nominal, problem.nominalUpper(flow, worker), m, g, k);
    assert BinStep(limits[(k + 1) - 1], limits[k + 1], e);
    BinIdle(limits[k], limits[k + 1], rho, e);
    Reciprocal(1.0 - limits[k + 1]);
    LeastBetween(m[k], nominal, 1.0 - rho, 1.0 - limits[k + 1], e);
  }

  lemma Reciprocal(x: real)
    requires x != 0.0
    ensures (1.0 / x) * x == 1.0
  {
  }

  lemma BinIdle(lower: real, upper: real, rho: real, e: real)
    requires BinStep(lower, upper, e) && lower <= rho <= upper
    ensures 1.0 - upper <= 1.0 - rho <= (1.0 + e) * (1.0 - upper)
  {
  }

  /** The worker rows with binary bins pick one bin, and the utilization lies in it. */
  lemma SelectedBin(problem: NetworkProblem, worker: WorkerId, p: Point) returns (k: nat)
    requires UsableLimits(problem.binLimits) && WorkerRows(problem, worker, p)
    requires forall i :: 1 <= i < |problem.binLimits| ==> IsBinary(p(NetworkBinSelected(worker, i)))
    ensures OneHot(Values(BinVars(problem, worker), p), k)
    ensures problem.binLimits[k] <= p(NetworkUtilization(worker)) <= problem.binLimits[k + 1]
  {
    hide Cost, Prefix, OfferedLoad;
    var g := Values(BinVars(problem, worker), p);
    forall j | 0 <= j < |g| ensures IsBinary(g[j]) {
      assert g[j] == p(NetworkBinSelected(worker, j + 1));
    }
    k := OneSelected(g);
    OneHotCost(problem.binLimits[..|g|], g, k, |g|);
    OneHotCost(problem.binLimits[1..], g, k, |g|);
  }

  lemma OneSelected(g: seq<real>) returns (k: nat)
    requires Prefix(g, |g|) == 1.0 && forall j :: 0 <= j < |g| ==> IsBinary(g[j])
    ensures OneHot(g, k)
  {
    PrefixAtMostOne(g, |g|);
    k :| 0 <= k < |g| && g[k] == 1.0 && forall j :: 0 <= j < |g| && j != k ==> g[j] == 0.0;
  }

  lemma LeastBetween(multiplier: real, nominal: real, idle: real, idleAtLimit: real, e: real)
    requires multiplier > 0.0 && multiplier * idleAtLimit == 1.0 && 0.0 <= nominal && 0.0 < e
    requires idleAtLimit <= idle <= (1.0 + e) * idleAtLimit
    ensures nominal <= (multiplier * nominal) * idle <= (1.0 + e) * nominal
  {
    UnitScaling(multiplier, idle, idleAtLimit, e);
    ScaleOrder(nominal, 1.0, multiplier * idle);
    ScaleOrder(nominal, multiplier * idle, 1.0 + e);
    Rearrange(nominal, multiplier, idle);
  }

  lemma UnitScaling(a: real, x: real, y: real, e: real)
    requires a > 0.0 && a * y == 1.0 && y <= x <= (1.0 + e) * y
    ensures 1.0 <= a * x <= 1.0 + e
  {
    var z := (1.0 + e) * y;
    ScaleOrder(a, y, x);
    ScaleOrder(a, x, z);
    calc {
      a * z;
      (1.0 + e) * (a * y);
      1.0 + e;
    }
  }
}
