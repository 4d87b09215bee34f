/**
 The big-M rows of compact_execution.py, compact_transmission.py and compact_memory.py: at a placement the
 variables are at least the physical values, and the physical values satisfy every row.
 */
module BigM {
  import opened Lp
  import opened Sums
  import opened ModelTopology
  import opened Assignment
  import opened Structure

  // ----- sums over the layers of a component

  /** A coefficient per layer times its assignment to a component. */
  function LayerTerm(fp: FlowProblem, v: ModelVariantId, k: int, c: LayerKey -> real, p: Point): LayerKey -> real
  {
    l => c(l) * p(LayerComponent(fp.flow, v, l, k))
  }

  function InComponent(pl: Placement, v: ModelVariantId, k: int, c: LayerKey -> real): LayerKey -> real
  {
    l => if v == pl.variant && pl.componentOf(l) == k then c(l) else 0.0
  }

  /** The total of the coefficients over the layers of one component. */
  function ComponentSum(fp: FlowProblem, pl: Placement, v: ModelVariantId, k: int, c: LayerKey -> real): real
  {
    SumOver(Order(fp, v), InComponent(pl, v, k, c))
  }

  /** At a placement the linear expression is the total over the component, which is at most the total over all layers. */
  lemma ExpressionIsComponentSum(fp: FlowProblem, p: Point, pl: Placement, v: ModelVariantId, k: int,
                                 c: LayerKey -> real)
    requires Encodes(fp, p, pl) && v in fp.variants && 1 <= k <= fp.maxComponents
    requires forall l :: c(l) >= 0.0
    ensures SumOver(Order(fp, v), LayerTerm(fp, v, k, c, p)) == ComponentSum(fp, pl, v, k, c)
    ensures 0.0 <= ComponentSum(fp, pl, v, k, c) <= SumOver(Order(fp, v), c)
    ensures v != pl.variant ==> ComponentSum(fp, pl, v, k, c) == 0.0
  {
    assert EncodesVariant(fp, p, pl, v);
    forall l | l in Order(fp, v) ensures LayerTerm(fp, v, k, c, p)(l) == InComponent(pl, v, k, c)(l) { }
    SumCongruent(Order(fp, v), LayerTerm(fp, v, k, c, p), InComponent(pl, v, k, c));
    SumNonNegative(Order(fp, v), InComponent(pl, v, k, c));
    SumMonotone(Order(fp, v), InComponent(pl, v, k, c), c);
    if v != pl.variant {
      SumZero(Order(fp, v), InComponent(pl, v, k, c));
    }
  }

  // ----- execution

  /** Profiled execution times, and the local worker if it must not run inference. */
  datatype ExecutionData = ExecutionData(
    profiles: (ModelVariantId, WorkerId) -> map<LayerKey, real>, relayOnly: Option<WorkerId>)

  /** A relay-only worker keeps the input and output layers. */
  function Available(d: ExecutionData, t: Topology, v: ModelVariantId, w: WorkerId): map<LayerKey, real>
  {
    if d.relayOnly == Some(w) then map l | l in d.profiles(v, w) && (l in t.inputs || l in t.outputs) :: d.profiles(v, w)[l]
    else d.profiles(v, w)
  }

  function TimeOn(fp: FlowProblem, d: ExecutionData, v: ModelVariantId, w: WorkerId): LayerKey -> real
  {
    l => if l in Available(d, fp.topologyOf(v), v, w) then Available(d, fp.topologyOf(v), v, w)[l] else 0.0
  }

  ghost predicate TimesSensible(d: ExecutionData)
  {
    forall v, w, l :: l in d.profiles(v, w) ==> d.profiles(v, w)[l] >= 0.0
  }

  function Supports(fp: FlowProblem, d: ExecutionData, v: ModelVariantId, l: LayerKey): WorkerId -> bool
  {
    w => l in Available(d, fp.topologyOf(v), v, w)
  }

  /** `_minimum_execution_time_by_layer`: the least time over the workers that support the layer, 0 if none does. */
  function MinimumTime(fp: FlowProblem, d: ExecutionData, v: ModelVariantId, l: LayerKey, workers: seq<WorkerId>): real
  {
    if workers == [] then 0.0 else
    var init, w := workers[..|workers| - 1], workers[|workers| - 1];
    var rest := MinimumTime(fp, d, v, l, init);
    if !Supports(fp, d, v, l)(w) then rest
    else if exists u :: u in init && Supports(fp, d, v, l)(u) then (if rest <= TimeOn(fp, d, v, w)(l) then rest else TimeOn(fp, d, v, w)(l))
    else TimeOn(fp, d, v, w)(l)
  }

  function Minimum(fp: FlowProblem, d: ExecutionData, v: ModelVariantId): LayerKey -> real
  {
    l => MinimumTime(fp, d, v, l, fp.workers)
  }

  lemma {:induction false} MinimumIsLeast(
    fp: FlowProblem, d: ExecutionData, v: ModelVariantId, l: LayerKey, workers: seq<WorkerId>, w: WorkerId)
    requires TimesSensible(d)
    ensures w in workers && Supports(fp, d, v, l)(w) ==> MinimumTime(fp, d, v, l, workers) <= TimeOn(fp, d, v, w)(l)
    ensures MinimumTime(fp, d, v, l, workers) >= 0.0
  {
    if workers != [] {
      var init := workers[..|workers| - 1];
      MinimumIsLeast(fp, d, v, l, init, w);
      assert w in workers <==> w in init || w == workers[|workers| - 1];
    }
  }

  predicate UnsupportedRow(fp: FlowProblem, v: ModelVariantId, l: LayerKey, k: int, w: WorkerId, p: Point)
  {
    p(LayerComponent(fp.flow, v, l, k)) + p(ComponentWorker(fp.flow, k, w)) <= 1.0
  }

  predicate BigMRow(value: real, expression: real, upper: real, slack: real)
  {
    value >= expression - upper * slack
  }

  ghost predicate ExecutionRows(fp: FlowProblem, d: ExecutionData, v: ModelVariantId, k: int, w: WorkerId, p: Point)
  {
    var time, c := p(ExecutionTime(fp.flow, v, k, w)), TimeOn(fp, d, v, w);
    && UnsupportedLayersOff(fp, d, v, k, w, p)
    && 0.0 <= time <= SumOver(Order(fp, v), c)
    && BigMRow(time, SumOver(Order(fp, v), LayerTerm(fp, v, k, c, p)), SumOver(Order(fp, v), c),
               1.0 - p(ComponentWorker(fp.flow, k, w)))
  }

  function TimeVar(fp: FlowProblem, v: ModelVariantId, k: int, p: Point): WorkerId -> real
  {
    w => p(ExecutionTime(fp.flow, v, k, w))
  }

  ghost predicate MinimumRow(fp: FlowProblem, d: ExecutionData, v: ModelVariantId, k: int, p: Point)
  {
    SumOver(fp.workers, TimeVar(fp, v, k, p)) >= SumOver(Order(fp, v), LayerTerm(fp, v, k, Minimum(fp, d, v), p))
  }

  /** One worker of one component: the loop over the layers, then the epigraph row. */
  method AddExecutionRows(m: Model, fp: FlowProblem, d: ExecutionData, v: ModelVariantId, k: int, w: WorkerId,
                          ghost p: Point)
    modifies m
    ensures m.Sat(p) && p(ExecutionTime(fp.flow, v, k, w)) >= 0.0
       <==> (old(m.Sat(p)) && ExecutionRows(fp, d, v, k, w, p))
  {
    hide SumOver, BigMRow;
    var order, upper := Order(fp, v), 0.0;
    NothingSummed(TimeOn(fp, d, v, w));
    for i := 0 to |order|
      invariant upper == SumOver(order[..i], TimeOn(fp, d, v, w))
      invariant m.Sat(p) <==> (
                  && old(m.Sat(p))
                  && forall l :: l in order[..i] && !Supports(fp, d, v, l)(w) ==> UnsupportedRow(fp, v, l, k, w, p))
    {
      var l := order[i];
      if !Supports(fp, d, v, l)(w) {
        m.AddConstr((q: Point) => UnsupportedRow(fp, v, l, k, w, q), p);
      } else {
        upper := upper + TimeOn(fp, d, v, w)(l);
      }
      OneMore(order, i, TimeOn(fp, d, v, w));
      assert order[..i + 1] == order[..i] + [l];
    }
    assert order[..|order|] == order;
    m.AddConstr((q: Point) => q(ExecutionTime(fp.flow, v, k, w)) <= upper, p);
    m.AddConstr(
      (q: Point) => BigMRow(
        q(ExecutionTime(fp.flow, v, k, w)), SumOver(Order(fp, v), LayerTerm(fp, v, k, TimeOn(fp, d, v, w), q)), upper,
        1.0 - q(ComponentWorker(fp.flow, k, w))), p);
  }

  lemma NothingSummed(c: LayerKey -> real)
    ensures SumOver([], c) == 0.0
  {
  }

  lemma OneMore(order: seq<LayerKey>, i: nat, c: LayerKey -> real)
    requires i < |order|
    ensures SumOver(order[..i + 1], c) == SumOver(order[..i], c) + c(order[i])
  {
    assert order[..i + 1][..i] == order[..i];
  }

  /** The least of the times on the workers that support the layer is attained, if there is such a worker. */
  lemma {:induction false} MinimumIsAttained(
    fp: FlowProblem, d: ExecutionData, v: ModelVariantId, l: LayerKey, workers: seq<WorkerId>)
    ensures if exists w :: w in workers && Supports(fp, d, v, l)(w)
            then exists w :: w in workers && Supports(fp, d, v, l)(w) && MinimumTime(fp, d, v, l, workers) == TimeOn(fp, d, v, w)(l)
            else MinimumTime(fp, d, v, l, workers) == 0.0
  {
    hide Supports, TimeOn;
    if workers != [] {
      var init, last := workers[..|workers| - 1], workers[|workers| - 1];
      MinimumIsAttained(fp, d, v, l, init);
      assert forall w :: w in workers <==> w in init || w == last;
    }
  }

  /** The loop over the workers of `_minimum_execution_time_by_layer`. */
  method LeastTime(fp: FlowProblem, d: ExecutionData, v: ModelVariantId, l: LayerKey) returns (best: Option<real>)
    ensures best.Some? <==> exists w :: w in fp.workers && Supports(fp, d, v, l)(w)
    ensures best.Some? ==> best.value == MinimumTime(fp, d, v, l, fp.workers)
  {
    hide Supports, TimeOn;
    best := None;
    for i := 0 to |fp.workers|
      invariant best.Some? <==> exists w :: w in fp.workers[..i] && Supports(fp, d, v, l)(w)
      invariant best.Some? ==> best.value == MinimumTime(fp, d, v, l, fp.workers[..i])
    {
      var w := fp.workers[i];
      assert fp.workers[..i + 1] == fp.workers[..i] + [w] && fp.workers[..i + 1][..i] == fp.workers[..i];
      if Supports(fp, d, v, l)(w) {
        var time := TimeOn(fp, d, v, w)(l);
        best := Some(if best.Some? && best.value <= time then best.value else time);
        assert w in fp.workers[..i + 1];
      }
    }
    assert fp.workers[..|fp.workers|] == fp.workers;
  }

  function Entry(times: map<LayerKey, real>): LayerKey -> real
  {
    l => if l in times then times[l] else 0.0
  }

  /** `_minimum_execution_time_by_layer`: the layers that some worker supports, each with its least time. */
  method MinimumExecutionTimeByLayer(fp: FlowProblem, d: ExecutionData,
                                     v: ModelVariantId) returns (result: map<LayerKey, real>)
    ensures forall l :: l in result <==> l in Order(fp, v) && exists w :: w in fp.workers && Supports(fp, d, v, l)(w)
    ensures forall l :: l in Order(fp, v) ==> Entry(result)(l) == Minimum(fp, d, v)(l)
  {
    hide Supports, TimeOn, MinimumTime;
    var order := Order(fp, v);
    result := map[];
    for i := 0 to |order|
      invariant forall l :: l in result <==> l in order[..i] && exists w :: w in fp.workers && Supports(fp, d, v, l)(w)
      invariant forall l :: l in order[..i] ==> Entry(result)(l) == Minimum(fp, d, v)(l)
    {
      var l := order[i];
      var best := LeastTime(fp, d, v, l);
      MinimumIsAttained(fp, d, v, l, fp.workers);
      assert order[..i + 1] == order[..i] + [l];
      if best.Some? {
        result := result[l := best.value];
      }
    }
    assert order[..|order|] == order;
  }

  ghost predicate WorkersRows(fp: FlowProblem, d: ExecutionData, v: ModelVariantId, k: int, workers: seq<WorkerId>,
                              p: Point)
  {
    forall w :: w in workers ==> ExecutionRows(fp, d, v, k, w, p)
  }

  ghost predicate WorkersBounded(fp: FlowProblem, v: ModelVariantId, k: int, workers: seq<WorkerId>, p: Point)
  {
    forall w :: w in workers ==> p(ExecutionTime(fp.flow, v, k, w)) >= 0.0
  }

  /** One component: the rows of all its workers, then the strengthening by the least times. */
  method AddComponentExecution(m: Model, fp: FlowProblem, d: ExecutionData, v: ModelVariantId, k: int,
                               minimum: map<LayerKey, real>, ghost p: Point)
    requires forall l :: l in Order(fp, v) ==> Entry(minimum)(l) == Minimum(fp, d, v)(l)
    modifies m
    ensures m.Sat(p) && WorkersBounded(fp, v, k, fp.workers, p)
       <==> (old(m.Sat(p)) && WorkersRows(fp, d, v, k, fp.workers, p) && MinimumRow(fp, d, v, k, p))
  {
    hide ExecutionRows, SumOver, Entry, Minimum;
    for i := 0 to |fp.workers|
      invariant (m.Sat(p) && WorkersBounded(fp, v, k, fp.workers[..i], p))
           <==> (old(m.Sat(p)) && WorkersRows(fp, d, v, k, fp.workers[..i], p))
    {
      AddExecutionRows(m, fp, d, v, k, fp.workers[i], p);
      assert fp.workers[..i + 1] == fp.workers[..i] + [fp.workers[i]];
    }
    assert fp.workers[..|fp.workers|] == fp.workers;
    m.AddConstr(
      (q: Point) => SumOver(fp.workers, TimeVar(fp, v, k, q)) >= SumOver(Order(fp, v), LayerTerm(fp, v, k, Entry(minimum), q)), p);
    forall l | l in Order(fp, v)
      ensures LayerTerm(fp, v, k, Entry(minimum), p)(l) == LayerTerm(fp, v, k, Minimum(fp, d, v), p)(l) { }
    SumCongruent(Order(fp, v), LayerTerm(fp, v, k, Entry(minimum), p), LayerTerm(fp, v, k, Minimum(fp, d, v), p));
  }

  ghost predicate VariantExecution(fp: FlowProblem, d: ExecutionData, v: ModelVariantId, last: int, p: Point)
  {
    forall k :: 1 <= k <= last ==> WorkersRows(fp, d, v, k, fp.workers, p) && MinimumRow(fp, d, v, k, p)
  }

  ghost predicate VariantBounded(fp: FlowProblem, v: ModelVariantId, last: int, p: Point)
  {
    forall k :: 1 <= k <= last ==> WorkersBounded(fp, v, k, fp.workers, p)
  }

  /** `add_compact_execution_constraints` for one flow; the lower bounds come with the variables. */
  method AddCompactExecutionConstraints(m: Model, fp: FlowProblem, d: ExecutionData, ghost p: Point)
    requires fp.maxComponents >= 0
    modifies m
    ensures (m.Sat(p) && forall v :: v in fp.variants ==> VariantBounded(fp, v, fp.maxComponents, p))
       <==> (old(m.Sat(p)) && AllExecutionRows(fp, d, p))
  {
    hide WorkersRows, WorkersBounded, MinimumRow, Entry, Minimum, AllExecutionRows;
    for i := 0 to |fp.variants|
      invariant (m.Sat(p) && forall v :: v in fp.variants[..i] ==> VariantBounded(fp, v, fp.maxComponents, p))
           <==> (old(m.Sat(p)) && forall v :: v in fp.variants[..i] ==> VariantExecution(fp, d, v, fp.maxComponents, p))
    {
      var v := fp.variants[i];
      var minimum := MinimumExecutionTimeByLayer(fp, d, v);
      label Variant:
      for k := 1 to fp.maxComponents + 1
        invariant (m.Sat(p) && VariantBounded(fp, v, k - 1, p))
             <==> (old@Variant(m.Sat(p)) && VariantExecution(fp, d, v, k - 1, p))
      {
        AddComponentExecution(m, fp, d, v, k, minimum, p);
      }
      assert fp.variants[..i + 1] == fp.variants[..i] + [v];
    }
    assert fp.variants[..|fp.variants|] == fp.variants;
    AllRowsByVariant(fp, d, p);
  }

  lemma AllRowsByVariant(fp: FlowProblem, d: ExecutionData, p: Point)
    ensures AllExecutionRows(fp, d, p) <==> forall v :: v in fp.variants ==> VariantExecution(fp, d, v, fp.maxComponents, p)
  {
    hide ExecutionRows, MinimumRow;
    if AllExecutionRows(fp, d, p) {
      forall v, k | v in fp.variants && 1 <= k <= fp.maxComponents
        ensures WorkersRows(fp, d, v, k, fp.workers, p) && MinimumRow(fp, d, v, k, p)
      {
        assert forall w :: w in fp.workers ==> ExecutionRows(fp, d, v, k, w, p);
      }
    }
    if forall v :: v in fp.variants ==> VariantExecution(fp, d, v, fp.maxComponents, p) {
      forall v, k | v in fp.variants && 1 <= k <= fp.maxComponents ensures MinimumRow(fp, d, v, k, p) {
        assert VariantExecution(fp, d, v, fp.maxComponents, p);
      }
      forall v, k, w | v in fp.variants && 1 <= k <= fp.maxComponents && w in fp.workers
        ensures ExecutionRows(fp, d, v, k, w, p)
      {
        assert VariantExecution(fp, d, v, fp.maxComponents, p);
        assert WorkersRows(fp, d, v, k, fp.workers, p);
      }
    }
  }

  /** Every layer runs on a worker that supports it. */
  ghost predicate Supported(fp: FlowProblem, d: ExecutionData, pl: Placement)
  {
    forall l :: l in Order(fp, pl.variant) ==> Supports(fp, d, pl.variant, l)(pl.workerOf(pl.componentOf(l)))
  }

  /** The time that a component really takes: the times of its layers on its worker. */
  function PhysicalTime(fp: FlowProblem, d: ExecutionData, pl: Placement, v: ModelVariantId, k: int, w: WorkerId): real
  {
    if k <= pl.last && w == pl.workerOf(k) then ComponentSum(fp, pl, v, k, TimeOn(fp, d, v, w)) else 0.0
  }

  lemma TimesNonNegative(fp: FlowProblem, d: ExecutionData, v: ModelVariantId, w: WorkerId)
    requires TimesSensible(d)
    ensures forall l :: TimeOn(fp, d, v, w)(l) >= 0.0
  {
  }

  /** A big-M row is the physical bound when the placement is on, and holds for any value at least 0 when it is off. */
  lemma BigMMeaning(value: real, expression: real, upper: real, on: bool, slack: real)
    requires 0.0 <= expression <= upper && slack == Indicator(!on) && value >= 0.0
    ensures BigMRow(value, expression, upper, slack) <==> (on ==> value >= expression)
  {
  }

  lemma ExecutionRowsBoundTime(
    fp: FlowProblem, d: ExecutionData, p: Point, pl: Placement, v: ModelVariantId, k: int, w: WorkerId)
    requires Valid(fp, pl) && Encodes(fp, p, pl) && TimesSensible(d)
    requires v in fp.variants && w in fp.workers && 1 <= k <= fp.maxComponents
    requires p(ExecutionTime(fp.flow, v, k, w)) >= 0.0
    ensures ExecutionRows(fp, d, v, k, w, p)
       <==> (&& UnsupportedLayersOff(fp, d, v, k, w, p)
             && PhysicalTime(fp, d, pl, v, k, w) <= p(ExecutionTime(fp.flow, v, k, w)) <= SumOver(Order(fp, v), TimeOn(fp, d, v, w)))
  {
    hide BigMRow, TimeOn, ComponentSum, Valid, Encodes, LayerTerm, SumOver, UnsupportedLayersOff;
    assert EncodesWorkers(fp, p, pl, k) by { WorkersEncodedAt(fp, p, pl, k); }
    TimesNonNegative(fp, d, v, w);
    var c := TimeOn(fp, d, v, w);
    ExpressionIsComponentSum(fp, p, pl, v, k, c);
    BigMMeaning(p(ExecutionTime(fp.flow, v, k, w)), SumOver(Order(fp, v), LayerTerm(fp, v, k, c, p)), SumOver(Order(fp, v), c),
                k <= pl.last && w == pl.workerOf(k), 1.0 - p(ComponentWorker(fp.flow, k, w)));
  }

  lemma WorkersEncodedAt(fp: FlowProblem, p: Point, pl: Placement, k: int)
    requires Encodes(fp, p, pl) && 1 <= k <= fp.maxComponents
    ensures EncodesWorkers(fp, p, pl, k)
  {
  }

  ghost predicate UnsupportedRows(fp: FlowProblem, d: ExecutionData, p: Point)
  {
    forall v, k, w :: v in fp.variants && 1 <= k <= fp.maxComponents && w in fp.workers ==>
      UnsupportedLayersOff(fp, d, v, k, w, p)
  }

  ghost predicate UnsupportedLayersOff(
    fp: FlowProblem, d: ExecutionData, v: ModelVariantId, k: int, w: WorkerId, p: Point)
  {
    forall l :: l in Order(fp, v) && !Supports(fp, d, v, l)(w) ==> UnsupportedRow(fp, v, l, k, w, p)
  }

  /** The unsupported rows admit exactly the placements whose layers run where they are supported. */
  lemma UnsupportedMeaning(fp: FlowProblem, d: ExecutionData, p: Point, pl: Placement)
    requires Valid(fp, pl) && Encodes(fp, p, pl)
    ensures UnsupportedRows(fp, d, p) <==> Supported(fp, d, pl)
  {
    hide Supports;
    forall k | 1 <= k <= fp.maxComponents ensures EncodesWorkers(fp, p, pl, k) { }
    if UnsupportedRows(fp, d, p) {
      forall l | l in Order(fp, pl.variant) ensures Supports(fp, d, pl.variant, l)(pl.workerOf(pl.componentOf(l))) {
        var k := pl.componentOf(l);
        assert EncodesVariant(fp, p, pl, pl.variant) && EncodesWorkers(fp, p, pl, k);
        assert !UnsupportedRow(fp, pl.variant, l, k, pl.workerOf(k), p);
        assert UnsupportedLayersOff(fp, d, pl.variant, k, pl.workerOf(k), p);
      }
    }
    if Supported(fp, d, pl) {
      forall v, k, w, l | v in fp.variants && 1 <= k <= fp.maxComponents && w in fp.workers && l in Order(fp, v)
                          && !Supports(fp, d, v, l)(w)
        ensures UnsupportedRow(fp, v, l, k, w, p)
      {
        assert EncodesVariant(fp, p, pl, v) && EncodesWorkers(fp, p, pl, k);
      }
    }
  }

  /**
   The unsupported rows admit a placement exactly if every layer is profiled on its worker, and the relay-only worker
   has input and output layers only.
   */
  lemma RelayOnlyRelays(fp: FlowProblem, d: ExecutionData, p: Point, pl: Placement)
    requires Valid(fp, pl) && Encodes(fp, p, pl)
    ensures UnsupportedRows(fp, d, p) <==>
            forall l :: l in Order(fp, pl.variant) ==>
              && l in d.profiles(pl.variant, pl.workerOf(pl.componentOf(l)))
              && (d.relayOnly == Some(pl.workerOf(pl.componentOf(l))) ==>
                    l in fp.topologyOf(pl.variant).inputs || l in fp.topologyOf(pl.variant).outputs)
  {
    UnsupportedMeaning(fp, d, p, pl);
    forall l | l in Order(fp, pl.variant)
      ensures Supports(fp, d, pl.variant, l)(pl.workerOf(pl.componentOf(l))) <==>
              && l in d.profiles(pl.variant, pl.workerOf(pl.componentOf(l)))
              && (d.relayOnly == Some(pl.workerOf(pl.componentOf(l))) ==>
                    l in fp.topologyOf(pl.variant).inputs || l in fp.topologyOf(pl.variant).outputs)
    {
    }
  }

  /** The strengthening: a component needs, over all workers, at least the sum of the least times of its layers. */
  lemma MinimumRowMeans(fp: FlowProblem, d: ExecutionData, p: Point, pl: Placement, v: ModelVariantId, k: int)
    requires Encodes(fp, p, pl) && TimesSensible(d) && v in fp.variants && 1 <= k <= fp.maxComponents
    ensures MinimumRow(fp, d, v, k, p) <==>
              SumOver(fp.workers, TimeVar(fp, v, k, p)) >= ComponentSum(fp, pl, v, k, Minimum(fp, d, v))
  {
    hide TimeOn, Supports, LayerTerm, Encodes, ComponentSum;
    forall l ensures Minimum(fp, d, v)(l) >= 0.0 { MinimumIsLeast(fp, d, v, l, fp.workers, WorkerId(0)); }
    ExpressionIsComponentSum(fp, p, pl, v, k, Minimum(fp, d, v));
  }

  /** Physical times satisfy the strengthening by the fastest workers. */
  lemma PhysicalMinimum(fp: FlowProblem, d: ExecutionData, p: Point, pl: Placement, v: ModelVariantId, k: int)
    requires WellFormed(fp) && Valid(fp, pl) && Encodes(fp, p, pl) && TimesSensible(d) && Supported(fp, d, pl)
    requires v in fp.variants && 1 <= k <= fp.maxComponents
    requires forall w :: w in fp.workers ==> p(ExecutionTime(fp.flow, v, k, w)) == PhysicalTime(fp, d, pl, v, k, w)
    ensures MinimumRow(fp, d, v, k, p)
  {
    hide TimeOn, Supports, LayerTerm, Encodes;
    forall l ensures Minimum(fp, d, v)(l) >= 0.0 { MinimumIsLeast(fp, d, v, l, fp.workers, WorkerId(0)); }
    ExpressionIsComponentSum(fp, p, pl, v, k, Minimum(fp, d, v));
    if k <= pl.last {
      var w := pl.workerOf(k);
      SumSingle(fp.workers, TimeVar(fp, v, k, p), w);
      forall l | l in Order(fp, v)
        ensures InComponent(pl, v, k, Minimum(fp, d, v))(l) <= InComponent(pl, v, k, TimeOn(fp, d, v, w))(l)
      {
        MinimumIsLeast(fp, d, v, l, fp.workers, w);
      }
      SumMonotone(Order(fp, v), InComponent(pl, v, k, Minimum(fp, d, v)), InComponent(pl, v, k, TimeOn(fp, d, v, w)));
    } else {
      SumZero(fp.workers, TimeVar(fp, v, k, p));
      EmptyComponent(fp, pl, v, k, Minimum(fp, d, v));
    }
  }

  lemma EmptyComponent(fp: FlowProblem, pl: Placement, v: ModelVariantId, k: int, c: LayerKey -> real)
    requires Valid(fp, pl) && k > pl.last
    ensures ComponentSum(fp, pl, v, k, c) == 0.0
  {
    SumZero(Order(fp, v), InComponent(pl, v, k, c));
  }

  ghost predicate AllExecutionRows(fp: FlowProblem, d: ExecutionData, p: Point)
  {
    && (forall v, k, w :: v in fp.variants && 1 <= k <= fp.maxComponents && w in fp.workers ==>
          ExecutionRows(fp, d, v, k, w, p))
    && (forall v, k :: v in fp.variants && 1 <= k <= fp.maxComponents ==> MinimumRow(fp, d, v, k, p))
  }

  ghost predicate TimesArePhysical(fp: FlowProblem, d: ExecutionData, pl: Placement, p: Point)
  {
    forall v, k, w :: v in fp.variants && 1 <= k <= fp.maxComponents && w in fp.workers ==>
      p(ExecutionTime(fp.flow, v, k, w)) == PhysicalTime(fp, d, pl, v, k, w)
  }

  /**
   Execution rows: they make every time at least the physical one and every layer supported; and the
   physical times of a supported placement satisfy them all, with the upper bounds and the minimum rows.
   */
  lemma ExecutionExact(fp: FlowProblem, d: ExecutionData, p: Point, pl: Placement)
    requires WellFormed(fp) && Valid(fp, pl) && Encodes(fp, p, pl) && TimesSensible(d)
    ensures AllExecutionRows(fp, d, p) ==>
              && Supported(fp, d, pl)
              && forall v, k, w :: v in fp.variants && 1 <= k <= fp.maxComponents && w in fp.workers ==>
                   p(ExecutionTime(fp.flow, v, k, w)) >= PhysicalTime(fp, d, pl, v, k, w)
    ensures Supported(fp, d, pl) && TimesArePhysical(fp, d, pl, p) ==> AllExecutionRows(fp, d, p)
  {
    hide Valid, Encodes, WellFormed, TimesSensible, ExecutionRows, MinimumRow, PhysicalTime, UnsupportedLayersOff;
    if AllExecutionRows(fp, d, p) {
      forall v, k, w | v in fp.variants && 1 <= k <= fp.maxComponents && w in fp.workers
        ensures p(ExecutionTime(fp.flow, v, k, w)) >= PhysicalTime(fp, d, pl, v, k, w)
        ensures UnsupportedLayersOff(fp, d, v, k, w, p)
      {
        assert ExecutionRows(fp, d, v, k, w, p);
        TimeNotNegative(fp, d, v, k, w, p);
        ExecutionRowsBoundTime(fp, d, p, pl, v, k, w);
      }
      UnsupportedMeaning(fp, d, p, pl);
    }
    if Supported(fp, d, pl) && TimesArePhysical(fp, d, pl, p) {
      UnsupportedMeaning(fp, d, p, pl);
      forall v, k, w | v in fp.variants && 1 <= k <= fp.maxComponents && w in fp.workers
        ensures ExecutionRows(fp, d, v, k, w, p)
      {
        PhysicalTimeBounds(fp, d, p, pl, v, k, w);
        ExecutionRowsBoundTime(fp, d, p, pl, v, k, w);
      }
      forall v, k | v in fp.variants && 1 <= k <= fp.maxComponents ensures MinimumRow(fp, d, v, k, p) {
        PhysicalMinimum(fp, d, p, pl, v, k);
      }
    }
  }

  lemma TimeNotNegative(fp: FlowProblem, d: ExecutionData, v: ModelVariantId, k: int, w: WorkerId, p: Point)
    requires ExecutionRows(fp, d, v, k, w, p)
    ensures p(ExecutionTime(fp.flow, v, k, w)) >= 0.0
  {
  }

  lemma PhysicalTimeBounds(
    fp: FlowProblem, d: ExecutionData, p: Point, pl: Placement, v: ModelVariantId, k: int, w: WorkerId)
    requires Encodes(fp, p, pl) && TimesSensible(d) && v in fp.variants && 1 <= k <= fp.maxComponents
    ensures 0.0 <= PhysicalTime(fp, d, pl, v, k, w) <= SumOver(Order(fp, v), TimeOn(fp, d, v, w))
  {
    hide TimeOn, Encodes, ComponentSum;
    TimesNonNegative(fp, d, v, w);
    ExpressionIsComponentSum(fp, p, pl, v, k, TimeOn(fp, d, v, w));
  }
}
