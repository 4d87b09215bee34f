/**
 The assignment rows admit exactly the placements: although only the layer and priority variables are
 declared binary, every other assignment variable is forced to 0 or 1.
 */
module Structure {
  import opened Lp
  import opened Sums
  import opened ModelTopology
  import opened Assignment

  /** One model variant cut into the components 1, ..., last, each on one worker. */
  datatype Placement = Placement(
    variant: ModelVariantId, last: int, componentOf: LayerKey -> int, workerOf: int -> WorkerId)

  ghost predicate Valid(fp: FlowProblem, pl: Placement)
  {
    var t := fp.topologyOf(pl.variant);
    && pl.variant in fp.variants
    && 1 <= pl.last <= fp.maxComponents
    && (forall l :: l in t.order ==> 1 <= pl.componentOf(l) <= pl.last)
    && (forall k :: 1 <= k <= pl.last ==> Populated(t, pl, k) && pl.workerOf(k) in fp.workers)
    && (forall k :: 1 <= k < pl.last ==> pl.workerOf(k) != pl.workerOf(k + 1))
    && (forall l :: l in t.order && l in t.inputs ==> pl.componentOf(l) == 1)
    && (forall l :: l in t.order && l in t.outputs ==> pl.componentOf(l) == pl.last)
    && (forall e :: e in t.edges ==> pl.componentOf(e.source) <= pl.componentOf(e.target))
    && (fp.ingress.Some? ==> pl.workerOf(1) == fp.ingress.value)
    && (fp.sink.Some? ==> pl.workerOf(pl.last) == fp.sink.value)
  }

  ghost predicate Populated(t: Topology, pl: Placement, k: int)
  {
    exists l :: l in t.order && pl.componentOf(l) == k
  }

  function Indicator(b: bool): real { if b then 1.0 else 0.0 }

  ghost predicate Encodes(fp: FlowProblem, p: Point, pl: Placement)
  {
    && (forall v :: v in fp.variants ==> p(ModelSelected(fp.flow, v)) == Indicator(v == pl.variant))
    && (forall v :: v in fp.variants ==> EncodesVariant(fp, p, pl, v))
    && (forall k :: 1 <= k <= fp.maxComponents ==>
          && p(ComponentActive(fp.flow, k)) == Indicator(k <= pl.last)
          && p(ComponentLast(fp.flow, k)) == Indicator(k == pl.last)
          && EncodesWorkers(fp, p, pl, k))
  }

  ghost predicate EncodesVariant(fp: FlowProblem, p: Point, pl: Placement, v: ModelVariantId)
  {
    forall l, k :: l in Order(fp, v) && 1 <= k <= fp.maxComponents ==>
      p(LayerComponent(fp.flow, v, l, k)) == Indicator(v == pl.variant && pl.componentOf(l) == k)
  }

  ghost predicate EncodesWorkers(fp: FlowProblem, p: Point, pl: Placement, k: int)
  {
    forall w :: w in fp.workers ==>
      p(ComponentWorker(fp.flow, k, w)) == Indicator(k <= pl.last && w == pl.workerOf(k))
  }

  /** The variable types of the compact formulation, and the row that ties placements to priorities. */
  ghost predicate Domain(fp: FlowProblem, p: Point)
  {
    && (forall v :: v in fp.variants ==> LayersBinary(fp, p, v))
    && (forall v :: v in fp.variants ==> 0.0 <= p(ModelSelected(fp.flow, v)) <= 1.0)
    && (forall k :: 1 <= k <= fp.maxComponents ==> ComponentDomain(fp, p, k))
  }

  ghost predicate LayersBinary(fp: FlowProblem, p: Point, v: ModelVariantId)
  {
    forall l, k :: l in Order(fp, v) && 1 <= k <= fp.maxComponents ==> IsBinary(p(LayerComponent(fp.flow, v, l, k)))
  }

  ghost predicate ComponentDomain(fp: FlowProblem, p: Point, k: int)
  {
    && 0.0 <= p(ComponentActive(fp.flow, k)) <= 1.0
    && 0.0 <= p(ComponentLast(fp.flow, k)) <= 1.0
    && forall w :: w in fp.workers ==> WorkerDomain(fp, p, k, w)
  }

  ghost predicate WorkerDomain(fp: FlowProblem, p: Point, k: int, w: WorkerId)
  {
    && 0.0 <= p(ComponentWorker(fp.flow, k, w)) <= 1.0
    && (forall r :: 1 <= r <= fp.priorityCount ==> IsBinary(p(ComponentPriority(fp.flow, k, w, r))))
    && SumOver(Range(1, fp.priorityCount + 1), PriorityAt(fp, k, w, p)) == p(ComponentWorker(fp.flow, k, w))
  }

  // ----- implied integrality

  /** A binary sum that is bounded by one is binary. */
  lemma {:induction false} BoundedBinarySum<T>(keys: seq<T>, f: T -> real)
    requires Distinct(keys) && forall k :: k in keys ==> IsBinary(f(k))
    requires SumOver(keys, f) <= 1.0
    ensures IsBinary(SumOver(keys, f))
  {
    BinarySum(keys, f);
  }

  lemma WorkerBinary(fp: FlowProblem, p: Point, k: int, w: WorkerId)
    requires WorkerDomain(fp, p, k, w)
    ensures IsBinary(p(ComponentWorker(fp.flow, k, w)))
  {
    BoundedBinarySum(Range(1, fp.priorityCount + 1), PriorityAt(fp, k, w, p));
  }

  /** A layer of a variant is in exactly one component, or in none, and the variant variable says which. */
  lemma LayerChoice(fp: FlowProblem, p: Point, v: ModelVariantId, l: LayerKey)
    requires v in fp.variants && l in Order(fp, v) && LayersBinary(fp, p, v)
    requires AssignedRow(fp, v, l, p) && p(ModelSelected(fp.flow, v)) <= 1.0
    ensures IsBinary(p(ModelSelected(fp.flow, v)))
    ensures p(ModelSelected(fp.flow, v)) == 0.0 ==>
              forall k :: 1 <= k <= fp.maxComponents ==> p(LayerComponent(fp.flow, v, l, k)) == 0.0
    ensures p(ModelSelected(fp.flow, v)) == 1.0 ==>
              exists a :: 1 <= a <= fp.maxComponents && LayerIn(fp, p, v, l, a)
  {
    var f := X(fp, v, l, p);
    var keys := Range(1, fp.maxComponents + 1);
    forall k | k in keys ensures IsBinary(f(k)) {
      assert f(k) == p(LayerComponent(fp.flow, v, l, k));
    }
    BinarySum(keys, f);
    if SumOver(keys, f) == 1.0 {
      var a :| a in keys && f(a) == 1.0 && forall k :: k in keys && k != a ==> f(k) == 0.0;
      assert LayerIn(fp, p, v, l, a) by {
        forall k | 1 <= k <= fp.maxComponents
          ensures p(LayerComponent(fp.flow, v, l, k)) == Indicator(k == a)
        {
          assert k in keys && f(k) == p(LayerComponent(fp.flow, v, l, k));
        }
      }
    } else {
      forall k | 1 <= k <= fp.maxComponents ensures p(LayerComponent(fp.flow, v, l, k)) == 0.0 {
        assert k in keys && f(k) == p(LayerComponent(fp.flow, v, l, k));
      }
    }
  }

  ghost predicate LayerIn(fp: FlowProblem, p: Point, v: ModelVariantId, l: LayerKey, a: int)
  {
    forall k :: 1 <= k <= fp.maxComponents ==> p(LayerComponent(fp.flow, v, l, k)) == Indicator(k == a)
  }

  ghost function ComponentOf(fp: FlowProblem, p: Point, v: ModelVariantId, l: LayerKey): int
  {
    if exists a :: 1 <= a <= fp.maxComponents && LayerIn(fp, p, v, l, a)
    then var a :| 1 <= a <= fp.maxComponents && LayerIn(fp, p, v, l, a); a
    else 0
  }

  lemma VariantChoice(fp: FlowProblem, p: Point) returns (v: ModelVariantId)
    requires WellFormed(fp) && Domain(fp, p) && AssignmentRows(fp, p)
    ensures v in fp.variants
    ensures forall u :: u in fp.variants ==> p(ModelSelected(fp.flow, u)) == Indicator(u == v)
  {
    forall u | u in fp.variants ensures IsBinary(Selected(fp, p)(u)) {
      var l :| l in Order(fp, u) && l in fp.topologyOf(u).inputs;
      assert VariantRows(fp, u, p);
      LayerChoice(fp, p, u, l);
    }
    BinarySum(fp.variants, Selected(fp, p));
    v :| v in fp.variants && Selected(fp, p)(v) == 1.0
         && forall u :: u in fp.variants && u != v ==> Selected(fp, p)(u) == 0.0;
    forall u | u in fp.variants ensures p(ModelSelected(fp.flow, u)) == Indicator(u == v) {
      assert Selected(fp, p)(u) == p(ModelSelected(fp.flow, u));
    }
  }

  /** An active component has one worker, an inactive one has none. */
  lemma WorkerChoice(fp: FlowProblem, p: Point, k: int)
    requires WellFormed(fp) && 1 <= k <= fp.maxComponents && ComponentDomain(fp, p, k) && ComponentRows(fp, k, p)
    ensures IsBinary(p(ComponentActive(fp.flow, k)))
    ensures p(ComponentActive(fp.flow, k)) == 0.0 ==>
              forall w :: w in fp.workers ==> p(ComponentWorker(fp.flow, k, w)) == 0.0
    ensures p(ComponentActive(fp.flow, k)) == 1.0 ==> exists a :: a in fp.workers && OnWorker(fp, p, k, a)
  {
    var f := PlacementAt(fp, k, p);
    forall w | w in fp.workers ensures IsBinary(f(w)) { WorkerBinary(fp, p, k, w); }
    BinarySum(fp.workers, f);
    if SumOver(fp.workers, f) == 1.0 {
      var a :| a in fp.workers && f(a) == 1.0 && forall w :: w in fp.workers && w != a ==> f(w) == 0.0;
      forall w | w in fp.workers ensures p(ComponentWorker(fp.flow, k, w)) == Indicator(w == a) {
        assert f(w) == p(ComponentWorker(fp.flow, k, w));
      }
      assert OnWorker(fp, p, k, a);
    } else {
      forall w | w in fp.workers ensures p(ComponentWorker(fp.flow, k, w)) == 0.0 {
        assert f(w) == p(ComponentWorker(fp.flow, k, w));
      }
    }
  }

  ghost predicate OnWorker(fp: FlowProblem, p: Point, k: int, a: WorkerId)
  {
    forall w :: w in fp.workers ==> p(ComponentWorker(fp.flow, k, w)) == Indicator(w == a)
  }

  ghost function WorkerOf(fp: FlowProblem, p: Point, k: int): WorkerId
  {
    if exists a :: a in fp.workers && OnWorker(fp, p, k, a)
    then var a :| a in fp.workers && OnWorker(fp, p, k, a); a
    else WorkerId(0)
  }

  ghost predicate ActiveStep(fp: FlowProblem, p: Point, k: int)
  {
    IsBinary(p(ComponentActive(fp.flow, k))) && ActiveAt(fp, k + 1, p) <= ActiveAt(fp, k, p)
  }

  /** The active components form a prefix. */
  lemma {:induction false} ActivePrefix(fp: FlowProblem, p: Point, k: int) returns (n: int)
    requires 0 <= k <= fp.maxComponents
    requires forall j :: 1 <= j <= fp.maxComponents ==> ActiveStep(fp, p, j)
    ensures 0 <= n <= k
    ensures forall j :: 1 <= j <= k ==> p(ComponentActive(fp.flow, j)) == Indicator(j <= n)
  {
    if k == 0 {
      n := 0;
    } else {
      n := ActivePrefix(fp, p, k - 1);
      assert ActiveStep(fp, p, k);
      if n == k - 1 {
        n := if p(ComponentActive(fp.flow, k)) == 1.0 then k else k - 1;
      } else {
        assert ActiveStep(fp, p, k - 1);
      }
    }
  }

  // ----- from rows to a placement

  /** The sum of a layer's assignments to the components 1, ..., k is the test componentOf(l) <= k. */
  lemma UpToIndicator(fp: FlowProblem, p: Point, v: ModelVariantId, l: LayerKey, a: int, k: int)
    requires 0 <= k <= fp.maxComponents && 1 <= a <= fp.maxComponents && LayerIn(fp, p, v, l, a)
    ensures UpTo(fp, v, l, k, p) == Indicator(a <= k)
  {
    var keys, f := Range(1, k + 1), X(fp, v, l, p);
    forall j | j in keys ensures f(j) == Indicator(j == a) {
      assert f(j) == p(LayerComponent(fp.flow, v, l, j));
    }
    if a <= k {
      SumSingle(keys, f, a);
    } else {
      SumZero(keys, f);
    }
  }

  lemma PlacementOfPoint(fp: FlowProblem, p: Point) returns (pl: Placement)
    requires WellFormed(fp) && Domain(fp, p) && AssignmentRows(fp, p)
    ensures Valid(fp, pl) && Encodes(fp, p, pl)
  {
    var v := VariantChoice(fp, p);
    forall k | 1 <= k <= fp.maxComponents ensures ActiveStep(fp, p, k) {
      assert ComponentRows(fp, k, p);
      WorkerChoice(fp, p, k);
    }
    var n := ActivePrefix(fp, p, fp.maxComponents);
    pl := Placement(v, n, l => ComponentOf(fp, p, v, l), k => WorkerOf(fp, p, k));
    VariantEncoded(fp, p, pl);
    WorkersEncoded(fp, p, pl);
    LayersWithinActive(fp, p, pl);
    BoundariesPlaced(fp, p, pl);
    PrecedencePlaced(fp, p, pl);
    EndpointsPlaced(fp, p, pl);
  }

  /** What is known of the decoded placement before its validity is shown. */
  ghost predicate Decoded(fp: FlowProblem, p: Point, pl: Placement)
  {
    && WellFormed(fp) && Domain(fp, p) && AssignmentRows(fp, p)
    && pl.variant in fp.variants && 0 <= pl.last <= fp.maxComponents
    && (forall u :: u in fp.variants ==> p(ModelSelected(fp.flow, u)) == Indicator(u == pl.variant))
    && (forall j :: 1 <= j <= fp.maxComponents ==> p(ComponentActive(fp.flow, j)) == Indicator(j <= pl.last))
    && (forall l :: pl.componentOf(l) == ComponentOf(fp, p, pl.variant, l))
    && (forall k :: pl.workerOf(k) == WorkerOf(fp, p, k))
  }

  lemma LayerDecoded(fp: FlowProblem, p: Point, pl: Placement, l: LayerKey)
    requires Decoded(fp, p, pl) && l in Order(fp, pl.variant)
    ensures 1 <= pl.componentOf(l) <= fp.maxComponents
    ensures LayerIn(fp, p, pl.variant, l, pl.componentOf(l))
  {
    assert VariantRows(fp, pl.variant, p);
    LayerChoice(fp, p, pl.variant, l);
  }

  lemma VariantEncoded(fp: FlowProblem, p: Point, pl: Placement)
    requires Decoded(fp, p, pl)
    ensures forall v :: v in fp.variants ==> EncodesVariant(fp, p, pl, v)
  {
    forall v, l, k | v in fp.variants && l in Order(fp, v) && 1 <= k <= fp.maxComponents
      ensures p(LayerComponent(fp.flow, v, l, k)) == Indicator(v == pl.variant && pl.componentOf(l) == k)
    {
      assert VariantRows(fp, v, p);
      LayerChoice(fp, p, v, l);
      if v == pl.variant {
        LayerDecoded(fp, p, pl, l);
      }
    }
  }

  lemma WorkersEncoded(fp: FlowProblem, p: Point, pl: Placement)
    requires Decoded(fp, p, pl)
    ensures forall k :: 1 <= k <= fp.maxComponents ==>
              EncodesWorkers(fp, p, pl, k) && p(ComponentLast(fp.flow, k)) == Indicator(k == pl.last)
    ensures forall k :: 1 <= k <= pl.last ==> pl.workerOf(k) in fp.workers
    ensures forall k :: 1 <= k < pl.last ==> pl.workerOf(k) != pl.workerOf(k + 1)
  {
    forall k | 1 <= k <= fp.maxComponents
      ensures EncodesWorkers(fp, p, pl, k) && p(ComponentLast(fp.flow, k)) == Indicator(k == pl.last)
      ensures k <= pl.last ==> pl.workerOf(k) in fp.workers
    {
      hide *;
      WorkerEncodedAt(fp, p, pl, k);
    }
    forall k | 1 <= k < pl.last ensures pl.workerOf(k) != pl.workerOf(k + 1) {
      assert DifferentWorkers(fp, k, p);
      assert EncodesWorkers(fp, p, pl, k) && EncodesWorkers(fp, p, pl, k + 1);
    }
  }

  lemma WorkerEncodedAt(fp: FlowProblem, p: Point, pl: Placement, k: int)
    requires Decoded(fp, p, pl) && 1 <= k <= fp.maxComponents
    ensures EncodesWorkers(fp, p, pl, k) && p(ComponentLast(fp.flow, k)) == Indicator(k == pl.last)
    ensures k <= pl.last ==> pl.workerOf(k) in fp.workers
  {
    hide VariantRows, DifferentWorkers, LayersBinary, WorkerDomain, WellFormedTopology;
    assert ComponentRows(fp, k, p);
    WorkerChoice(fp, p, k);
  }

  lemma LayersWithinActive(fp: FlowProblem, p: Point, pl: Placement)
    requires Decoded(fp, p, pl)
    ensures 1 <= pl.last
    ensures forall l :: l in Order(fp, pl.variant) ==> 1 <= pl.componentOf(l) <= pl.last
    ensures forall k :: 1 <= k <= pl.last ==> Populated(fp.topologyOf(pl.variant), pl, k)
  {
    forall l | l in Order(fp, pl.variant) ensures 1 <= pl.componentOf(l) <= pl.last {
      LayerDecoded(fp, p, pl, l);
      assert ComponentRows(fp, pl.componentOf(l), p);
      assert ActiveIfVariantLayer(fp, pl.variant, pl.componentOf(l), p);
    }
    assert WellFormedTopology(fp.topologyOf(pl.variant));
    forall k | 1 <= k <= pl.last ensures Populated(fp.topologyOf(pl.variant), pl, k) {
      assert ComponentRows(fp, k, p);
      if !Populated(fp.topologyOf(pl.variant), pl, k) {
        NoLayersNoActivity(fp, p, pl, k);
      }
    }
  }

  lemma NoLayersNoActivity(fp: FlowProblem, p: Point, pl: Placement, k: int)
    requires Decoded(fp, p, pl) && 1 <= k <= fp.maxComponents
    requires !Populated(fp.topologyOf(pl.variant), pl, k)
    ensures LayersAt(fp, k, p) == 0.0
  {
    VariantEncoded(fp, p, pl);
    forall v | v in fp.variants ensures VariantLayersAt(fp, k, p)(v) == 0.0 {
      forall l | l in Order(fp, v) ensures LayerAt(fp, v, k, p)(l) == 0.0 {
        assert EncodesVariant(fp, p, pl, v);
      }
      SumZero(Order(fp, v), LayerAt(fp, v, k, p));
    }
    SumZero(fp.variants, VariantLayersAt(fp, k, p));
  }

  lemma BoundariesPlaced(fp: FlowProblem, p: Point, pl: Placement)
    requires Decoded(fp, p, pl)
    ensures forall l :: l in Order(fp, pl.variant) && l in fp.topologyOf(pl.variant).inputs ==> pl.componentOf(l) == 1
    ensures forall l :: l in Order(fp, pl.variant) && l in fp.topologyOf(pl.variant).outputs ==>
              pl.componentOf(l) == pl.last
  {
    assert VariantRows(fp, pl.variant, p);
    forall l | l in Order(fp, pl.variant) && l in fp.topologyOf(pl.variant).inputs ensures pl.componentOf(l) == 1 {
      LayerDecoded(fp, p, pl, l);
      assert InputRow(fp, pl.variant, l, p);
    }
    WorkersEncoded(fp, p, pl);
    LayersWithinActive(fp, p, pl);
    forall l | l in Order(fp, pl.variant) && l in fp.topologyOf(pl.variant).outputs
      ensures pl.componentOf(l) == pl.last
    {
      LayerDecoded(fp, p, pl, l);
      assert OutputRow(fp, pl.variant, l, pl.last, p);
    }
  }

  lemma PrecedencePlaced(fp: FlowProblem, p: Point, pl: Placement)
    requires Decoded(fp, p, pl)
    ensures forall e :: e in fp.topologyOf(pl.variant).edges ==> pl.componentOf(e.source) <= pl.componentOf(e.target)
  {
    var v := pl.variant;
    assert VariantRows(fp, v, p) && WellFormedTopology(fp.topologyOf(v));
    forall e | e in fp.topologyOf(v).edges ensures pl.componentOf(e.source) <= pl.componentOf(e.target) {
      LayerDecoded(fp, p, pl, e.source);
      LayerDecoded(fp, p, pl, e.target);
      var k := pl.componentOf(e.target);
      assert PrecedenceRow(fp, v, e, k, p);
      UpToIndicator(fp, p, v, e.source, pl.componentOf(e.source), k);
      UpToIndicator(fp, p, v, e.target, k, k);
    }
  }

  lemma EndpointsPlaced(fp: FlowProblem, p: Point, pl: Placement)
    requires Decoded(fp, p, pl)
    requires fp.ingress.Some? ==> fp.ingress.value in fp.workers
    requires fp.sink.Some? ==> fp.sink.value in fp.workers
    ensures fp.ingress.Some? ==> pl.workerOf(1) == fp.ingress.value
    ensures fp.sink.Some? ==> pl.workerOf(pl.last) == fp.sink.value
  {
    hide ComponentRows, VariantRows, DifferentWorkers, Domain, WellFormed, Populated;
    WorkersEncoded(fp, p, pl);
    LayersWithinActive(fp, p, pl);
    assert EncodesWorkers(fp, p, pl, 1) && EncodesWorkers(fp, p, pl, pl.last);
    if fp.sink.Some? {
      assert SinkRow(fp, pl.last, p);
    }
  }

  // ----- and back

  lemma LayerEncodedIn(fp: FlowProblem, p: Point, pl: Placement, v: ModelVariantId, l: LayerKey, k: int)
    requires Valid(fp, pl) && Encodes(fp, p, pl) && v in fp.variants && l in Order(fp, v)
    requires 0 <= k <= fp.maxComponents
    ensures UpTo(fp, v, l, k, p) == Indicator(v == pl.variant && pl.componentOf(l) <= k)
  {
    assert EncodesVariant(fp, p, pl, v);
    if v == pl.variant {
      UpToIndicator(fp, p, v, l, pl.componentOf(l), k);
    } else {
      forall j | j in Range(1, k + 1) ensures X(fp, v, l, p)(j) == 0.0 { }
      SumZero(Range(1, k + 1), X(fp, v, l, p));
    }
  }

  lemma PlacementSatisfiesVariantRows(fp: FlowProblem, p: Point, pl: Placement, v: ModelVariantId)
    requires WellFormed(fp) && Valid(fp, pl) && Encodes(fp, p, pl) && v in fp.variants
    ensures VariantRows(fp, v, p)
  {
    var t := fp.topologyOf(v);
    assert EncodesVariant(fp, p, pl, v);
    forall l | l in t.order ensures AssignedRow(fp, v, l, p) {
      LayerEncodedIn(fp, p, pl, v, l, fp.maxComponents);
    }
    forall e | e in t.edges ensures PrecedenceRows(fp, v, e, p) {
      assert WellFormedTopology(t);
      forall k | 1 <= k <= fp.maxComponents ensures PrecedenceRow(fp, v, e, k, p) {
        LayerEncodedIn(fp, p, pl, v, e.source, k);
        LayerEncodedIn(fp, p, pl, v, e.target, k);
      }
    }
  }

  lemma PlacementSatisfiesComponentRows(fp: FlowProblem, p: Point, pl: Placement, k: int)
    requires WellFormed(fp) && Valid(fp, pl) && Encodes(fp, p, pl) && 1 <= k <= fp.maxComponents
    ensures ComponentRows(fp, k, p)
  {
    assert EncodesWorkers(fp, p, pl, k);
    var f := PlacementAt(fp, k, p);
    forall w | w in fp.workers ensures f(w) == p(ComponentWorker(fp.flow, k, w)) { }
    if k <= pl.last {
      SumSingle(fp.workers, f, pl.workerOf(k));
      assert Populated(fp.topologyOf(pl.variant), pl, k);
      ActiveHasLayer(fp, p, pl, k);
    } else {
      SumZero(fp.workers, f);
      LayersAtNonNegative(fp, p, pl, k);
    }
    forall v | v in fp.variants ensures ActiveIfVariantLayer(fp, v, k, p) {
      assert EncodesVariant(fp, p, pl, v);
    }
  }

  lemma LayersAtNonNegative(fp: FlowProblem, p: Point, pl: Placement, k: int)
    requires Encodes(fp, p, pl) && 1 <= k <= fp.maxComponents
    ensures LayersAt(fp, k, p) >= 0.0
    ensures forall v :: v in fp.variants ==> VariantLayersAt(fp, k, p)(v) >= 0.0
  {
    forall v | v in fp.variants ensures VariantLayersAt(fp, k, p)(v) >= 0.0 {
      assert EncodesVariant(fp, p, pl, v);
      SumNonNegative(Order(fp, v), LayerAt(fp, v, k, p));
    }
    SumNonNegative(fp.variants, VariantLayersAt(fp, k, p));
  }

  lemma ActiveHasLayer(fp: FlowProblem, p: Point, pl: Placement, k: int)
    requires Valid(fp, pl) && Encodes(fp, p, pl) && 1 <= k <= fp.maxComponents
    requires Populated(fp.topologyOf(pl.variant), pl, k)
    ensures LayersAt(fp, k, p) >= 1.0
  {
    var v := pl.variant;
    assert EncodesVariant(fp, p, pl, v);
    var l :| l in Order(fp, v) && pl.componentOf(l) == k;
    forall j | j in Order(fp, v) ensures LayerAt(fp, v, k, p)(j) >= 0.0 { }
    TermAtMostSum(Order(fp, v), LayerAt(fp, v, k, p), l);
    LayersAtNonNegative(fp, p, pl, k);
    TermAtMostSum(fp.variants, VariantLayersAt(fp, k, p), v);
  }

  lemma PlacementSatisfiesRows(fp: FlowProblem, p: Point, pl: Placement)
    requires WellFormed(fp) && Valid(fp, pl) && Encodes(fp, p, pl)
    ensures AssignmentRows(fp, p)
  {
    forall v | v in fp.variants ensures Selected(fp, p)(v) == Indicator(v == pl.variant) { }
    SumSingle(fp.variants, Selected(fp, p), pl.variant);
    forall k | 1 <= k <= fp.maxComponents ensures ComponentRows(fp, k, p) {
      PlacementSatisfiesComponentRows(fp, p, pl, k);
    }
    forall v | v in fp.variants ensures VariantRows(fp, v, p) {
      PlacementSatisfiesVariantRows(fp, p, pl, v);
    }
    assert EncodesWorkers(fp, p, pl, 1);
    forall cut | 1 <= cut < fp.maxComponents ensures DifferentWorkers(fp, cut, p) {
      assert EncodesWorkers(fp, p, pl, cut) && EncodesWorkers(fp, p, pl, cut + 1);
    }
    if fp.sink.Some? {
      forall k | 1 <= k <= fp.maxComponents ensures SinkRow(fp, k, p) {
        assert EncodesWorkers(fp, p, pl, k);
      }
    }
  }

  /** The rows, with the relaxed variable types, describe exactly the valid placements. */
  lemma RowsAreExactlyPlacements(fp: FlowProblem, p: Point)
    requires WellFormed(fp) && Domain(fp, p)
    ensures AssignmentRows(fp, p) <==> exists pl :: Valid(fp, pl) && Encodes(fp, p, pl)
  {
    if AssignmentRows(fp, p) {
      var pl := PlacementOfPoint(fp, p);
    }
    if exists pl :: Valid(fp, pl) && Encodes(fp, p, pl) {
      var pl :| Valid(fp, pl) && Encodes(fp, p, pl);
      PlacementSatisfiesRows(fp, p, pl);
    }
  }

  // ----- the compact strengthening row

  /** The first output layer of a variant in topological order. */
  function FirstOutput(t: Topology): LayerKey
    requires exists l :: l in t.order && l in t.outputs
  {
    FirstOutputOf(t.order, t.outputs)
  }

  function FirstOutputOf(order: seq<LayerKey>, outputs: set<LayerKey>): (l: LayerKey)
    requires exists l :: l in order && l in outputs
    ensures l in order && l in outputs
  {
    if order[0] in outputs then order[0] else FirstOutputOf(order[1..], outputs)
  }

  ghost function OutputAt(fp: FlowProblem, k: int, p: Point): ModelVariantId -> real
  {
    v => if WellFormedTopology(fp.topologyOf(v))
         then p(LayerComponent(fp.flow, v, FirstOutput(fp.topologyOf(v)), k)) else 0.0
  }

  ghost predicate CompactOutputRow(fp: FlowProblem, k: int, p: Point)
  {
    SumOver(fp.variants, OutputAt(fp, k, p)) == p(ComponentLast(fp.flow, k))
  }

  /** The strengthening removes no point that the other rows admit. */
  lemma CompactRowRedundant(fp: FlowProblem, p: Point, k: int)
    requires WellFormed(fp) && Domain(fp, p) && AssignmentRows(fp, p) && 1 <= k <= fp.maxComponents
    ensures CompactOutputRow(fp, k, p)
  {
    var pl := PlacementOfPoint(fp, p);
    forall v | v in fp.variants ensures OutputAt(fp, k, p)(v) == Indicator(v == pl.variant && k == pl.last) {
      assert WellFormedTopology(fp.topologyOf(v)) && EncodesVariant(fp, p, pl, v);
    }
    SumSingle(fp.variants, OutputAt(fp, k, p), pl.variant);
  }
}
