/** The response time of a flow: gurobi_qos_constraints.py. */
module ResponseTime {
  import opened Lp
  import opened Sums
  import opened Assignment
  import opened TensorCrossing
  import B = BigM

  /** Batch fill times, round-trip times of links, and the required mean response time of each flow. */
  datatype QosData = QosData(
    batchFill: (FlowId, ModelVariantId) -> real, roundTrip: (WorkerId, WorkerId) -> real, required: FlowId -> real)

  type Links = set<(WorkerId, WorkerId)>

  // ----- the terms of the response

  function BatchTerm(fp: FlowProblem, q: QosData, p: Point): ModelVariantId -> real
  {
    v => q.batchFill(fp.flow, v) * p(ModelSelected(fp.flow, v))
  }

  function ComponentTime(fp: FlowProblem, v: ModelVariantId, p: Point): int -> real
  {
    k => SumOver(fp.workers, B.TimeVar(fp, v, k, p))
  }

  function VariantTime(fp: FlowProblem, p: Point): ModelVariantId -> real
  {
    v => SumOver(Range(1, fp.maxComponents + 1), ComponentTime(fp, v, p))
  }

  function WaitTerm(fp: FlowProblem, p: Point): int -> real
  {
    k => p(ComponentQueueWait(fp.flow, k))
  }

  function SendTerm(fp: FlowProblem, p: Point): int -> real
  {
    cut => p(TransmissionResponse(fp.flow, cut))
  }

  /** Half the round-trip time of a link, nothing within a worker. */
  function Delay(q: QosData, s: WorkerId, t: WorkerId): real
  {
    if s == t then 0.0 else q.roundTrip(s, t) / 2.0
  }

  function LinkDelay(fp: FlowProblem, q: QosData, links: Links, cut: int, s: WorkerId, p: Point): WorkerId -> real
  {
    t => if Arc(links, s, t) then Delay(q, s, t) * p(AdjacentWorkers(fp.flow, cut, s, t)) else 0.0
  }

  function SourceDelay(fp: FlowProblem, q: QosData, links: Links, cut: int, p: Point): WorkerId -> real
  {
    s => SumOver(fp.workers, LinkDelay(fp, q, links, cut, s, p))
  }

  function DelayTerm(fp: FlowProblem, q: QosData, links: Links, p: Point): int -> real
  {
    cut => SumOver(fp.workers, SourceDelay(fp, q, links, cut, p))
  }

  function Response(fp: FlowProblem, q: QosData, links: Links): LinExpr
  {
    (p: Point) =>
      SumOver(fp.variants, BatchTerm(fp, q, p)) + SumOver(fp.variants, VariantTime(fp, p))
      + SumOver(Range(1, fp.maxComponents + 1), WaitTerm(fp, p)) + SumOver(Range(1, fp.maxComponents), SendTerm(fp, p))
      + SumOver(Range(1, fp.maxComponents), DelayTerm(fp, q, links, p))
  }

  // ----- the rows

  predicate ResponseRow(fp: FlowProblem, q: QosData, links: Links, p: Point)
  {
    p(Var.ResponseTime(fp.flow)) == Response(fp, q, links)(p)
  }

  predicate RequirementRow(fp: FlowProblem, q: QosData, p: Point)
  {
    p(Var.ResponseTime(fp.flow)) <= q.required(fp.flow)
  }

  ghost predicate FlowResponseRows(fp: FlowProblem, q: QosData, links: Links, required: bool, p: Point)
  {
    ResponseRow(fp, q, links, p) && (required ==> RequirementRow(fp, q, p))
  }

  method AddFlowResponse(m: Model, fp: FlowProblem, q: QosData, links: Links, required: bool, ghost p: Point)
    modifies m
    ensures m.Sat(p) <==> (old(m.Sat(p)) && FlowResponseRows(fp, q, links, required, p))
  {
    m.AddConstr((x: Point) => ResponseRow(fp, q, links, x), p);
    if required {
      m.AddConstr((x: Point) => RequirementRow(fp, q, x), p);
    }
  }

  /** The requirement is a row for two of the four objectives: the mean response time and the accuracy. */
  method AddResponseTimeConstraints(
    m: Model, fps: seq<FlowProblem>, q: QosData, links: Links, required: bool, ghost p: Point)
    modifies m
    ensures m.Sat(p) <==> (old(m.Sat(p)) && forall fp :: fp in fps ==> FlowResponseRows(fp, q, links, required, p))
  {
    hide FlowResponseRows;
    for i := 0 to |fps|
      invariant m.Sat(p) <==> (
                  && old(m.Sat(p))
                  && forall fp :: fp in fps[..i] ==> FlowResponseRows(fp, q, links, required, p))
    {
      AddFlowResponse(m, fps[i], q, links, required, p);
      assert fps[..i + 1] == fps[..i] + [fps[i]];
    }
    assert fps[..|fps|] == fps;
  }
}
