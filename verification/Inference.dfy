/**
 What a model computes: every layer is an uninterpreted function of the tensors it reads. A partition
 executor is assumed to evaluate the layers of its partition.
 */
module Inference {
  import opened Lp
  import opened ModelTopology
  import opened Assignment
  import opened FlowSolutions
  import opened FlowRoutes

  datatype Tensor = Tensor(shape: seq<nat>, data: seq<real>)

  type Bundle = map<TensorKey, Tensor>

  /** The tensor that a layer emits under a name, from the tensors it reads. */
  type LayerFunction = (LayerKey, Bundle, TensorKey) -> Tensor

  function Reads(t: Topology, l: LayerKey): set<TensorKey>
  {
    set e, x | e in t.edges && e.target == l && x in e.tensors :: x
  }

  predicate Known(t: Topology, x: TensorKey)
  {
    Acyclic(t) && SingleSource(t.edges) && x in RoutedTensors(t.edges)
  }

  function Depth(t: Topology, x: TensorKey): nat
    requires Known(t, x)
  {
    Index(t.order, Producer(t.edges, x))
  }

  /** What a layer reads is produced earlier in the topological order. */
  lemma {:induction false} ReadsBefore(t: Topology, x: TensorKey)
    requires Known(t, x)
    ensures forall y :: y in Reads(t, Producer(t.edges, x)) ==> Known(t, y) && Depth(t, y) < Depth(t, x)
  {
    forall y | y in Reads(t, Producer(t.edges, x)) ensures Known(t, y) && Depth(t, y) < Depth(t, x) {
      var e :| e in t.edges && e.target == Producer(t.edges, x) && y in e.tensors;
      assert y in RoutedTensors(t.edges);
      EdgeProduces(t, e, y);
    }
  }

  lemma {:induction false} EdgeProduces(t: Topology, e: Edge, x: TensorKey)
    requires SingleSource(t.edges) && e in t.edges && x in e.tensors
    ensures x in RoutedTensors(t.edges) && Producer(t.edges, x) == e.source
  {
    assert x in RoutedTensors(t.edges);
    var f :| f in t.edges && x in f.tensors && f.source == Producer(t.edges, x);
  }

  /** The whole model evaluated on the tensors that the input layers emit. */
  ghost function Evaluate(t: Topology, f: LayerFunction, entry: Bundle, x: TensorKey): Tensor
    requires Known(t, x) && EntryTensors(t) <= entry.Keys
    decreases Depth(t, x), 1
  {
    var l := Producer(t.edges, x);
    if l in t.inputs then
      assert x in EntryTensors(t);
      entry[x]
    else
      f(l, EvaluateReads(t, f, entry, x), x)
  }

  /** What the producer of a tensor reads. */
  ghost function EvaluateReads(t: Topology, f: LayerFunction, entry: Bundle, x: TensorKey): Bundle
    requires Known(t, x) && EntryTensors(t) <= entry.Keys
    decreases Depth(t, x), 0
  {
    ReadsBefore(t, x);
    map y | y in Reads(t, Producer(t.edges, x)) :: Evaluate(t, f, entry, y)
  }

  // ----- a partition executor

  /** The tensors that enter a set of layers, and those that leave it. */
  function Consumed(t: Topology, layers: set<LayerKey>): set<TensorKey>
  {
    set e, x | e in t.edges && e.target in layers && e.source !in layers && x in e.tensors :: x
  }

  function Emitted(t: Topology, layers: set<LayerKey>): set<TensorKey>
  {
    set e, x | e in t.edges && e.source in layers && e.target !in layers && x in e.tensors :: x
  }

  lemma {:induction false} InsideOrConsumed(t: Topology, layers: set<LayerKey>, x: TensorKey)
    requires Known(t, x) && Producer(t.edges, x) in layers
    ensures forall y :: y in Reads(t, Producer(t.edges, x)) ==>
              Known(t, y) && (Producer(t.edges, y) in layers || y in Consumed(t, layers))
  {
    ReadsBefore(t, x);
    forall y | y in Reads(t, Producer(t.edges, x)) && Producer(t.edges, y) !in layers
      ensures y in Consumed(t, layers)
    {
      var e :| e in t.edges && e.target == Producer(t.edges, x) && y in e.tensors;
      EdgeProduces(t, e, y);
    }
  }

  /** A tensor produced inside the partition, from the values of what the partition consumes. */
  ghost function Compute(t: Topology, f: LayerFunction, layers: set<LayerKey>, payload: Bundle, x: TensorKey): Tensor
    requires Known(t, x) && Producer(t.edges, x) in layers && Consumed(t, layers) <= payload.Keys
    decreases Depth(t, x), 1
  {
    f(Producer(t.edges, x), ComputeReads(t, f, layers, payload, x), x)
  }

  ghost function ComputeReads(t: Topology, f: LayerFunction, layers: set<LayerKey>, payload: Bundle,
                              x: TensorKey): Bundle
    requires Known(t, x) && Producer(t.edges, x) in layers && Consumed(t, layers) <= payload.Keys
    decreases Depth(t, x), 0
  {
    ReadsBefore(t, x);
    InsideOrConsumed(t, layers, x);
    map y | y in Reads(t, Producer(t.edges, x)) ::
      if Producer(t.edges, y) in layers then Compute(t, f, layers, payload, y) else payload[y]
  }

  lemma {:induction false} EmittedKnown(t: Topology, layers: set<LayerKey>, x: TensorKey)
    requires Acyclic(t) && SingleSource(t.edges) && x in Emitted(t, layers)
    ensures Known(t, x) && Producer(t.edges, x) in layers
  {
    var e :| e in t.edges && e.source in layers && e.target !in layers && x in e.tensors;
    EdgeProduces(t, e, x);
  }

  /** The executor fails when an input is missing, and otherwise returns exactly what the layers emit. */
  ghost function Execute(t: Topology, f: LayerFunction, layers: set<LayerKey>, payload: Bundle): Result<Bundle>
    requires Acyclic(t) && SingleSource(t.edges)
  {
    if !(Consumed(t, layers) <= payload.Keys) then Err("Required input is missing") else
    Ok(map x | x in Emitted(t, layers) :: (EmittedKnown(t, layers, x); Compute(t, f, layers, payload, x)))
  }

  /** The executor fails exactly if a tensor that enters the partition is missing. */
  lemma ExecuteFailsExactly(t: Topology, f: LayerFunction, layers: set<LayerKey>, payload: Bundle)
    requires Acyclic(t) && SingleSource(t.edges)
    ensures Execute(t, f, layers, payload).Err? <==>
            exists e, x :: e in t.edges && e.source !in layers && e.target in layers && x in e.tensors && x !in payload
  {
    if e, x :| e in t.edges && e.source !in layers && e.target in layers && x in e.tensors && x !in payload {
      assert x in Consumed(t, layers);
    }
  }

  /** A bundle holds the whole-model values of the given tensors. */
  ghost predicate Carrying(t: Topology, f: LayerFunction, entry: Bundle, tensors: set<TensorKey>, b: Bundle)
    requires EntryTensors(t) <= entry.Keys
  {
    tensors <= b.Keys && forall x :: x in b ==> Known(t, x) && b[x] == Evaluate(t, f, entry, x)
  }

  /** Computing a partition from correct inputs gives the values of the whole model. */
  lemma {:induction false} ComputeIsEvaluate(
    t: Topology, f: LayerFunction, entry: Bundle, layers: set<LayerKey>, payload: Bundle, x: TensorKey)
    requires Known(t, x) && Producer(t.edges, x) in layers && layers !! t.inputs
    requires EntryTensors(t) <= entry.Keys && Carrying(t, f, entry, Consumed(t, layers), payload)
    ensures Compute(t, f, layers, payload, x) == Evaluate(t, f, entry, x)
    decreases Depth(t, x)
  {
    hide Acyclic, SingleSource, RoutedTensors, Producer, Reads, Consumed, EntryTensors, Index, Depth;
    hide ComputeReads, EvaluateReads, Compute, Evaluate;
    ReadsBefore(t, x);
    var local, global := ComputeReads(t, f, layers, payload, x), EvaluateReads(t, f, entry, x);
    forall y ensures y in local <==> y in global
    ensures y in local ==> local[y] == global[y]
    {
      if y in Reads(t, Producer(t.edges, x)) && Producer(t.edges, y) in layers {
        ComputeIsEvaluate(t, f, entry, layers, payload, y);
      }
      ReadAgrees(t, f, entry, layers, payload, x, y);
    }
    SameReadsSameValue(t, f, entry, layers, payload, x);
  }

  lemma {:induction false} SameReadsSameValue(
    t: Topology, f: LayerFunction, entry: Bundle, layers: set<LayerKey>, payload: Bundle, x: TensorKey)
    requires Known(t, x) && Producer(t.edges, x) in layers && layers !! t.inputs
    requires EntryTensors(t) <= entry.Keys && Consumed(t, layers) <= payload.Keys
    requires ComputeReads(t, f, layers, payload, x) == EvaluateReads(t, f, entry, x)
    ensures Compute(t, f, layers, payload, x) == Evaluate(t, f, entry, x)
  {
    hide Producer, Reads, Consumed, EntryTensors, Index, Depth, ComputeReads, EvaluateReads;
  }

  lemma {:induction false} ReadAgrees(t: Topology, f: LayerFunction, entry: Bundle, layers: set<LayerKey>,
                                      payload: Bundle,
                   x: TensorKey, y: TensorKey)
    requires Known(t, x) && Producer(t.edges, x) in layers
    requires EntryTensors(t) <= entry.Keys && Carrying(t, f, entry, Consumed(t, layers), payload)
    requires y in Reads(t, Producer(t.edges, x)) ==> Known(t, y)
    requires y in Reads(t, Producer(t.edges, x)) && Producer(t.edges, y) in layers ==>
               Compute(t, f, layers, payload, y) == Evaluate(t, f, entry, y)
    ensures y in ComputeReads(t, f, layers, payload, x) <==> y in EvaluateReads(t, f, entry, x)
    ensures y in ComputeReads(t, f, layers, payload, x) ==>
              ComputeReads(t, f, layers, payload, x)[y] == EvaluateReads(t, f, entry, x)[y]
  {
    InsideOrConsumed(t, layers, x);
    hide Acyclic, SingleSource, Producer, Reads, Consumed, EntryTensors, Index, Depth, Compute, Evaluate, RoutedTensors;
  }

  lemma ExecuteCorrect(t: Topology, f: LayerFunction, entry: Bundle, layers: set<LayerKey>, payload: Bundle)
    requires Acyclic(t) && SingleSource(t.edges) && layers !! t.inputs
    requires EntryTensors(t) <= entry.Keys && Carrying(t, f, entry, Consumed(t, layers), payload)
    ensures Execute(t, f, layers, payload).Ok?
    ensures Execute(t, f, layers, payload).value.Keys == Emitted(t, layers)
    ensures Carrying(t, f, entry, Emitted(t, layers), Execute(t, f, layers, payload).value)
  {
    hide Acyclic, SingleSource, RoutedTensors, Producer, Reads, Consumed, Emitted, EntryTensors, Index, Compute;
    hide Evaluate;
    forall x | x in Emitted(t, layers)
      ensures Known(t, x) && Producer(t.edges, x) in layers
      ensures Compute(t, f, layers, payload, x) == Evaluate(t, f, entry, x)
    {
      EmittedKnown(t, layers, x);
      ComputeIsEvaluate(t, f, entry, layers, payload, x);
    }
  }
}
