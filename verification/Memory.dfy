/** The memory rows of compact_memory.py: feasible exactly when every worker can hold what is placed on it. */
module Memory {
  import opened Lp
  import opened Sums
  import opened Assignment
  import opened Structure
  import opened BigM

  datatype MemoryData = MemoryData(
    weight: (ModelVariantId, LayerKey) -> real, activation: ModelVariantId -> real, capacity: WorkerId -> real)

  ghost predicate Sensible(d: MemoryData)
  {
    (forall v, l :: d.weight(v, l) >= 0.0) && forall v :: d.activation(v) >= 0.0
  }

  function WeightOf(d: MemoryData, v: ModelVariantId): LayerKey -> real
  {
    l => d.weight(v, l)
  }

  // ----- the rows

  predicate WeightRow(fp: FlowProblem, d: MemoryData, v: ModelVariantId, k: int, w: WorkerId, p: Point)
  {
    BigMRow(p(ComponentWeight(fp.flow, v, k, w)), SumOver(Order(fp, v), LayerTerm(fp, v, k, WeightOf(d, v), p)),
            SumOver(Order(fp, v), WeightOf(d, v)), 1.0 - p(ComponentWorker(fp.flow, k, w)))
  }

  predicate ActivationRow(fp: FlowProblem, d: MemoryData, v: ModelVariantId, k: int, w: WorkerId, p: Point)
  {
    p(MaxActivation(w)) >= d.activation(v) * (p(ModelSelected(fp.flow, v)) + p(ComponentWorker(fp.flow, k, w)) - 1.0)
  }

  ghost predicate FlowRows(fp: FlowProblem, d: MemoryData, p: Point)
  {
    forall v, k, w :: v in fp.variants && 1 <= k <= fp.maxComponents && w in fp.workers ==>
      WeightRow(fp, d, v, k, w, p) && ActivationRow(fp, d, v, k, w, p)
  }

  function ComponentWeightAt(fp: FlowProblem, v: ModelVariantId, w: WorkerId, p: Point): int -> real
  {
    k => p(ComponentWeight(fp.flow, v, k, w))
  }

  function VariantWeight(fp: FlowProblem, w: WorkerId, p: Point): ModelVariantId -> real
  {
    v => SumOver(Range(1, fp.maxComponents + 1), ComponentWeightAt(fp, v, w, p))
  }

  function FlowWeight(w: WorkerId, p: Point): FlowProblem -> real
  {
    (fp: FlowProblem) => if w in fp.workers then SumOver(fp.variants, VariantWeight(fp, w, p)) else 0.0
  }

  predicate CapacityRow(fps: seq<FlowProblem>, d: MemoryData, w: WorkerId, p: Point)
  {
    SumOver(fps, FlowWeight(w, p)) + p(MaxActivation(w)) <= d.capacity(w)
  }

  method AddComponentRows(m: Model, fp: FlowProblem, d: MemoryData, v: ModelVariantId, k: int, ghost p: Point)
    modifies m
    ensures m.Sat(p) <==> (
              && old(m.Sat(p))
              && forall w :: w in fp.workers ==> WeightRow(fp, d, v, k, w, p) && ActivationRow(fp, d, v, k, w, p))
  {
    hide WeightRow, ActivationRow;
    for i := 0 to |fp.workers|
      invariant m.Sat(p) <==> (
                  && old(m.Sat(p))
                  && forall w :: w in fp.workers[..i] ==> WeightRow(fp, d, v, k, w, p) && ActivationRow(fp, d, v, k, w, p))
    {
      var w := fp.workers[i];
      m.AddConstr((q: Point) => WeightRow(fp, d, v, k, w, q), p);
      m.AddConstr((q: Point) => ActivationRow(fp, d, v, k, w, q), p);
      assert fp.workers[..i + 1] == fp.workers[..i] + [w];
    }
    assert fp.workers[..|fp.workers|] == fp.workers;
  }

  method AddCapacityRows(m: Model, fps: seq<FlowProblem>, d: MemoryData, workers: seq<WorkerId>, ghost p: Point)
    modifies m
    ensures m.Sat(p) <==> (old(m.Sat(p)) && forall w :: w in workers ==> CapacityRow(fps, d, w, p))
  {
    hide CapacityRow;
    for i := 0 to |workers|
      invariant m.Sat(p) <==> (old(m.Sat(p)) && forall w :: w in workers[..i] ==> CapacityRow(fps, d, w, p))
    {
      var w := workers[i];
      m.AddConstr((q: Point) => CapacityRow(fps, d, w, q), p);
      assert workers[..i + 1] == workers[..i] + [w];
    }
    assert workers[..|workers|] == workers;
  }

  // ----- what is really held

  /** The weights of the layers of a component, on its own worker. */
  function PhysicalWeight(fp: FlowProblem, d: MemoryData, pl: Placement, v: ModelVariantId, k: int, w: WorkerId): real
  {
    if k <= pl.last && w == pl.workerOf(k) then ComponentSum(fp, pl, v, k, WeightOf(d, v)) else 0.0
  }

  /** Some component of the flow runs on the worker. */
  ghost predicate Hosts(fp: FlowProblem, pl: Placement, w: WorkerId)
  {
    exists k :: 1 <= k <= pl.last && w == pl.workerOf(k)
  }

  lemma WeightRowMeaning(fp: FlowProblem, d: MemoryData, p: Point, pl: Placement, v: ModelVariantId, k: int,
                         w: WorkerId)
    requires Valid(fp, pl) && Encodes(fp, p, pl) && Sensible(d)
    requires v in fp.variants && w in fp.workers && 1 <= k <= fp.maxComponents
    requires p(ComponentWeight(fp.flow, v, k, w)) >= 0.0
    ensures WeightRow(fp, d, v, k, w, p) <==> p(ComponentWeight(fp.flow, v, k, w)) >= PhysicalWeight(fp, d, pl, v, k, w)
    ensures PhysicalWeight(fp, d, pl, v, k, w) >= 0.0
  {
    hide BigMRow, ComponentSum, Valid, Encodes, LayerTerm, SumOver;
    WorkersEncodedAt(fp, p, pl, k);
    ExpressionIsComponentSum(fp, p, pl, v, k, WeightOf(d, v));
    BigMMeaning(p(ComponentWeight(fp.flow, v, k, w)), SumOver(Order(fp, v), LayerTerm(fp, v, k, WeightOf(d, v), p)),
                SumOver(Order(fp, v), WeightOf(d, v)), k <= pl.last && w == pl.workerOf(k),
                1.0 - p(ComponentWorker(fp.flow, k, w)));
  }

  lemma ActivationFactor(value: real, activation: real, factor: real)
    requires value >= 0.0 && activation >= 0.0 && (factor == 1.0 || factor == 0.0 || factor == -1.0)
    ensures value >= activation * factor <==> (factor == 1.0 ==> value >= activation)
  {
  }

  lemma ActivationRowMeaning(fp: FlowProblem, d: MemoryData, p: Point, pl: Placement, v: ModelVariantId, k: int,
                             w: WorkerId)
    requires Valid(fp, pl) && Encodes(fp, p, pl) && Sensible(d)
    requires v in fp.variants && w in fp.workers && 1 <= k <= fp.maxComponents && p(MaxActivation(w)) >= 0.0
    ensures ActivationRow(fp, d, v, k, w, p)
       <==> (v == pl.variant && k <= pl.last && w == pl.workerOf(k) ==> p(MaxActivation(w)) >= d.activation(v))
  {
    WorkersEncodedAt(fp, p, pl, k);
    ActivationFactor(p(MaxActivation(w)), d.activation(v),
                     p(ModelSelected(fp.flow, v)) + p(ComponentWorker(fp.flow, k, w)) - 1.0);
  }

  ghost predicate NonNegative(fp: FlowProblem, p: Point)
  {
    forall v, k, w :: v in fp.variants && 1 <= k <= fp.maxComponents && w in fp.workers ==>
      p(ComponentWeight(fp.flow, v, k, w)) >= 0.0 && p(MaxActivation(w)) >= 0.0
  }

  ghost predicate AtLeastPhysical(fp: FlowProblem, d: MemoryData, pl: Placement, p: Point)
  {
    && (forall v, k, w :: v in fp.variants && 1 <= k <= fp.maxComponents && w in fp.workers ==>
          p(ComponentWeight(fp.flow, v, k, w)) >= PhysicalWeight(fp, d, pl, v, k, w))
    && (forall w :: w in fp.workers && Hosts(fp, pl, w) ==> p(MaxActivation(w)) >= d.activation(pl.variant))
  }

  /** The rows of a flow say exactly that weights and activation buffers are at least the physical ones. */
  lemma FlowRowsExact(fp: FlowProblem, d: MemoryData, p: Point, pl: Placement)
    requires Valid(fp, pl) && Encodes(fp, p, pl) && Sensible(d) && NonNegative(fp, p)
    ensures FlowRows(fp, d, p) <==> AtLeastPhysical(fp, d, pl, p)
  {
    hide PhysicalWeight, WeightRow, ActivationRow, Encodes, Sensible, Populated;
    forall v, k, w | v in fp.variants && 1 <= k <= fp.maxComponents && w in fp.workers
      ensures WeightRow(fp, d, v, k, w, p) <==> p(ComponentWeight(fp.flow, v, k, w)) >= PhysicalWeight(fp, d, pl, v, k, w)
      ensures ActivationRow(fp, d, v, k, w, p)
         <==> (v == pl.variant && k <= pl.last && w == pl.workerOf(k) ==> p(MaxActivation(w)) >= d.activation(v))
    {
      WeightRowMeaning(fp, d, p, pl, v, k, w);
      ActivationRowMeaning(fp, d, p, pl, v, k, w);
    }
    if FlowRows(fp, d, p) {
      forall w | w in fp.workers && Hosts(fp, pl, w) ensures p(MaxActivation(w)) >= d.activation(pl.variant) {
        var k :| 1 <= k <= pl.last && w == pl.workerOf(k);
        assert ActivationRow(fp, d, pl.variant, k, w, p);
      }
    }
  }

  // ----- capacity

  function PhysicalWeightAt(fp: FlowProblem, d: MemoryData, pl: Placement, v: ModelVariantId, w: WorkerId): int -> real
  {
    k => PhysicalWeight(fp, d, pl, v, k, w)
  }

  function PhysicalVariantWeight(fp: FlowProblem, d: MemoryData, pl: Placement, w: WorkerId): ModelVariantId -> real
  {
    v => SumOver(Range(1, fp.maxComponents + 1), PhysicalWeightAt(fp, d, pl, v, w))
  }

  /** The weights that the placements put on a worker. */
  function HeldWeight(d: MemoryData, placements: FlowProblem -> Placement, w: WorkerId): FlowProblem -> real
  {
    (fp: FlowProblem) => if w in fp.workers then SumOver(fp.variants, PhysicalVariantWeight(fp, d, placements(fp), w)) else 0.0
  }

  lemma FlowWeightAtLeastHeld(fp: FlowProblem, d: MemoryData, placements: FlowProblem -> Placement, w: WorkerId,
                              p: Point)
    requires AtLeastPhysical(fp, d, placements(fp), p)
    ensures FlowWeight(w, p)(fp) >= HeldWeight(d, placements, w)(fp)
  {
    hide PhysicalWeight;
    if w in fp.workers {
      var pl, keys := placements(fp), Range(1, fp.maxComponents + 1);
      forall v | v in fp.variants ensures PhysicalVariantWeight(fp, d, pl, w)(v) <= VariantWeight(fp, w, p)(v) {
        SumMonotone(keys, PhysicalWeightAt(fp, d, pl, v, w), ComponentWeightAt(fp, v, w, p));
      }
      SumMonotone(fp.variants, PhysicalVariantWeight(fp, d, pl, w), VariantWeight(fp, w, p));
    }
  }

  ghost predicate WeightsArePhysical(fp: FlowProblem, d: MemoryData, pl: Placement, p: Point)
  {
    forall v, k, w :: v in fp.variants && 1 <= k <= fp.maxComponents && w in fp.workers ==>
      p(ComponentWeight(fp.flow, v, k, w)) == PhysicalWeight(fp, d, pl, v, k, w)
  }

  lemma FlowWeightIsHeld(fp: FlowProblem, d: MemoryData, placements: FlowProblem -> Placement, w: WorkerId, p: Point)
    requires WeightsArePhysical(fp, d, placements(fp), p)
    ensures FlowWeight(w, p)(fp) == HeldWeight(d, placements, w)(fp)
  {
    hide PhysicalWeight;
    if w in fp.workers {
      var pl, keys := placements(fp), Range(1, fp.maxComponents + 1);
      forall v | v in fp.variants ensures PhysicalVariantWeight(fp, d, pl, w)(v) == VariantWeight(fp, w, p)(v) {
        SumCongruent(keys, PhysicalWeightAt(fp, d, pl, v, w), ComponentWeightAt(fp, v, w, p));
      }
      SumCongruent(fp.variants, PhysicalVariantWeight(fp, d, pl, w), VariantWeight(fp, w, p));
    }
  }

  /**
   The capacity of a worker: when the rows hold, the weights placed on it and the activation buffer of any
   model that runs there fit; and when they fit with a buffer that covers all those models, the physical
   weights satisfy the row.
   */
  lemma {:induction false} CapacityExact(fps: seq<FlowProblem>, d: MemoryData,
                                         placements: FlowProblem -> Placement, w: WorkerId, p: Point)
    requires forall fp :: fp in fps ==> AtLeastPhysical(fp, d, placements(fp), p)
    ensures CapacityRow(fps, d, w, p) ==>
              && SumOver(fps, HeldWeight(d, placements, w)) + p(MaxActivation(w)) <= d.capacity(w)
              && forall fp :: fp in fps && w in fp.workers && Hosts(fp, placements(fp), w) ==>
                   SumOver(fps, HeldWeight(d, placements, w)) + d.activation(placements(fp).variant) <= d.capacity(w)
    ensures (forall fp :: fp in fps ==> WeightsArePhysical(fp, d, placements(fp), p))
            && SumOver(fps, HeldWeight(d, placements, w)) + p(MaxActivation(w)) <= d.capacity(w)
            ==> CapacityRow(fps, d, w, p)
  {
    hide AtLeastPhysical, WeightsArePhysical, FlowWeight, HeldWeight;
    forall fp | fp in fps ensures HeldWeight(d, placements, w)(fp) <= FlowWeight(w, p)(fp) {
      FlowWeightAtLeastHeld(fp, d, placements, w, p);
    }
    SumMonotone(fps, HeldWeight(d, placements, w), FlowWeight(w, p));
    forall fp | fp in fps && w in fp.workers && Hosts(fp, placements(fp), w)
      ensures p(MaxActivation(w)) >= d.activation(placements(fp).variant)
    {
      BufferCovers(fp, d, placements(fp), w, p);
    }
    if forall fp :: fp in fps ==> WeightsArePhysical(fp, d, placements(fp), p) {
      forall fp | fp in fps ensures HeldWeight(d, placements, w)(fp) == FlowWeight(w, p)(fp) {
        FlowWeightIsHeld(fp, d, placements, w, p);
      }
      SumCongruent(fps, HeldWeight(d, placements, w), FlowWeight(w, p));
    }
  }

  lemma BufferCovers(fp: FlowProblem, d: MemoryData, pl: Placement, w: WorkerId, p: Point)
    requires AtLeastPhysical(fp, d, pl, p) && w in fp.workers && Hosts(fp, pl, w)
    ensures p(MaxActivation(w)) >= d.activation(pl.variant)
  {
  }
}
