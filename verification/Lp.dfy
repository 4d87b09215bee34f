/**
 The optimisation model that the controller hands to the solver.

 The solver is an oracle: it returns some point that satisfies every emitted row. A row is therefore
 represented by the comparison it makes on a point, and the model object by the rows added so far.
 */
module Lp {

  datatype FlowId = FlowId(id: nat)
  datatype WorkerId = WorkerId(id: nat)
  datatype ModelVariantId = ModelVariantId(id: nat)
  type LayerKey = string
  type TensorKey = string

  /** One constructor for each family of decision variables. */
  datatype Var =
    | ModelSelected(flow: FlowId, variant: ModelVariantId)
    | LayerComponent(flow: FlowId, variant: ModelVariantId, layer: LayerKey, component: int)
    | ComponentWorker(flow: FlowId, component: int, worker: WorkerId)
    | ComponentActive(flow: FlowId, component: int)
    | ComponentLast(flow: FlowId, component: int)
    | TensorCrossing(flow: FlowId, variant: ModelVariantId, tensor: TensorKey, cut: int)
    | AdjacentWorkers(flow: FlowId, cut: int, source: WorkerId, target: WorkerId)
    | ExecutionTime(flow: FlowId, variant: ModelVariantId, component: int, worker: WorkerId)
    | TransmissionTime(flow: FlowId, variant: ModelVariantId, cut: int, worker: WorkerId)
    | ComponentPriority(flow: FlowId, component: int, worker: WorkerId, priority: int)
    | PriorityUsed(worker: WorkerId, priority: int)
    | PriorityClassUtilization(flow: FlowId, component: int, worker: WorkerId, priority: int)
    | HigherPriorityUtilization(worker: WorkerId, priority: int)
    | ComputeBinSelected(worker: WorkerId, priority: int, bin: int)
    | QueueWaitBin(worker: WorkerId, priority: int, bin: int)
    | QueueWait(worker: WorkerId, priority: int)
    | WeightedQueueWait(worker: WorkerId, priority: int)
    | RemainingCapacity(worker: WorkerId, priority: int)
    | ComponentQueueWait(flow: FlowId, component: int)
    | NetworkUtilization(worker: WorkerId)
    | NetworkBinSelected(worker: WorkerId, bin: int)
    | TransmissionResponse(flow: FlowId, cut: int)
    | SourceResponse(flow: FlowId, cut: int, worker: WorkerId)
    | ComponentWeight(flow: FlowId, variant: ModelVariantId, component: int, worker: WorkerId)
    | MaxActivation(worker: WorkerId)
    | ResponseTime(flow: FlowId)
    | LayerBefore(layer: LayerKey)
    | TensorCut(tensor: TensorKey)

  /** An assignment of a value to every decision variable. */
  type Point = Var -> real

  /** A linear expression, by its value at a point. */
  type LinExpr = Point -> real

  type Row = Point -> bool

  class Model {
    var rows: seq<Row>

    constructor ()
      ensures rows == []
    {
      rows := [];
    }

    /** The point satisfies every row added so far. */
    ghost predicate Sat(p: Point)
      reads this
    {
      forall i :: 0 <= i < |rows| ==> rows[i](p)
    }

    /** `model.addConstr`; the ghost point stands for any point one wants to ask about. */
    method AddConstr(row: Row, ghost p: Point)
      modifies this
      ensures rows == old(rows) + [row]
      ensures Sat(p) <==> old(Sat(p)) && row(p)
    {
      rows := rows + [row];
      assert row == rows[|rows| - 1];
      assert forall i :: 0 <= i < |old(rows)| ==> rows[i] == old(rows)[i];
    }
  }
}
