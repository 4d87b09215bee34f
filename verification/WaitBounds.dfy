/** The a-priori bounds on queue waits of compact_bounds.py never cut off a real placement. */
module WaitBounds {
  import opened Lp
  import opened Sums
  import opened Structure
  import opened BinLimits
  import opened ExecutionQueue

  /** Execution profiles: the layers of a variant, and the time of a layer on a worker, 0 without a profile. */
  datatype Profiles = Profiles(
    layersOf: ModelVariantId -> seq<LayerKey>, time: (ModelVariantId, LayerKey, WorkerId) -> real)

  // ----- the computed bounds

  function LayerTime(pr: Profiles, m: ModelVariantId, w: WorkerId): LayerKey -> real
  {
    l => pr.time(m, l, w)
  }

  /** The time of a whole variant on one worker. */
  function WholeTime(pr: Profiles, m: ModelVariantId, w: WorkerId): real
  {
    SumOver(pr.layersOf(m), LayerTime(pr, m, w))
  }

  function Max(a: real, b: real): real { if a >= b then a else b }

  /** The largest value over the keys, or 0. */
  function MaxOver<T>(keys: seq<T>, g: T -> real): (r: real)
    ensures r >= 0.0
  {
    if keys == [] then 0.0 else Max(MaxOver(keys[..|keys| - 1], g), g(keys[|keys| - 1]))
  }

  function Weighted(rate: real, time: real): real { rate * time * time }

  function Candidate(cp: ComputeProblem, pr: Profiles, f: FlowId, w: WorkerId): ModelVariantId -> real
  {
    m => Weighted(cp.rate(f, m), WholeTime(pr, m, w))
  }

  function WholeTimeOf(pr: Profiles, w: WorkerId): ModelVariantId -> real
  {
    m => WholeTime(pr, m, w)
  }

  function FlowBound(cp: ComputeProblem, pr: Profiles, w: WorkerId): FlowId -> real
  {
    f => MaxOver(cp.modelsByFlow(f), Candidate(cp, pr, f, w))
  }

  function FlowTime(cp: ComputeProblem, pr: Profiles, w: WorkerId): FlowId -> real
  {
    f => MaxOver(cp.modelsByFlow(f), WholeTimeOf(pr, w))
  }

  function MomentBound(cp: ComputeProblem, pr: Profiles, w: WorkerId): real
  {
    SumOver(Relevant(cp, w), FlowBound(cp, pr, w))
  }

  function TimeBound(cp: ComputeProblem, pr: Profiles, w: WorkerId): real
  {
    MaxOver(Relevant(cp, w), FlowTime(cp, pr, w))
  }

  function Product(x: real, y: real): (r: real)
    ensures x > 0.0 && y > 0.0 ==> r > 0.0
  {
    if x > 0.0 && y > 0.0 then ScaleStrict(x, 0.0, y); x * y else x * y
  }

  function Square(x: real): (r: real)
    ensures x > 0.0 ==> r > 0.0
  {
    Product(x, x)
  }

  predicate IsQuotient(q: real, c: real, a: real) { q * c == a }

  predicate AtMostTimes(h: real, a: real, c: real) { h <= a * c }

  function Quotient(a: real, c: real): (q: real)
    requires c > 0.0
    ensures IsQuotient(q, c, a)
  {
    a / c
  }

  /** 2 (1 - limit)^2. */
  function Twice(limit: real): (r: real)
    requires limit < 1.0
    ensures r > 0.0
  {
    2.0 * Square(1.0 - limit)
  }

  function LimitedTime(limit: real, time: real): real { limit * time }

  /** min(moment, limit * time) / (2 (1 - limit)^2). */
  function BoundOf(limit: real, moment: real, time: real): (bound: real)
    requires limit < 1.0
    ensures IsQuotient(bound, Twice(limit), Min(moment, LimitedTime(limit, time)))
  {
    hide IsQuotient;
    Quotient(Min(moment, LimitedTime(limit, time)), Twice(limit))
  }

  function WaitBound(cp: ComputeProblem, pr: Profiles, w: WorkerId): real
    requires cp.utilizationLimit < 1.0
  {
    BoundOf(cp.utilizationLimit, MomentBound(cp, pr, w), TimeBound(cp, pr, w))
  }

  /** The bound in full: the smaller of both bounds on the second moment, over 2 (1 - limit)^2. */
  lemma WaitBoundIs(cp: ComputeProblem, pr: Profiles, w: WorkerId)
    requires cp.utilizationLimit < 1.0
    ensures var idle, moment := 1.0 - cp.utilizationLimit, MomentBound(cp, pr, w);
            var load := cp.utilizationLimit * TimeBound(cp, pr, w);
            WaitBound(cp, pr, w) * (2.0 * (idle * idle)) == if moment <= load then moment else load
  {
    hide MomentBound, TimeBound;
  }

  ghost predicate Sensible(cp: ComputeProblem, pr: Profiles)
  {
    && 0.0 < cp.utilizationLimit < 1.0
    && Distinct(cp.flows) && (forall f :: f in cp.flows ==> Distinct(cp.modelsByFlow(f)))
    && (forall f, m :: cp.rate(f, m) >= 0.0)
    && (forall m, l, w :: pr.time(m, l, w) >= 0.0)
  }

  lemma {:induction false} MaxOverAtLeast<T>(keys: seq<T>, g: T -> real, k: T)
    requires k in keys
    ensures g(k) <= MaxOver(keys, g)
  {
    if k in keys[..|keys| - 1] {
      MaxOverAtLeast(keys[..|keys| - 1], g, k);
    }
  }

  /** The two inner loops of `prepare_compact_problem` for one worker. */
  method BoundWorker(cp: ComputeProblem, pr: Profiles, w: WorkerId) returns (wait: real)
    requires Sensible(cp, pr)
    ensures wait == WaitBound(cp, pr, w)
  {
    hide WholeTime, Weighted, BoundOf;
    var relevant := Relevant(cp, w);
    var secondMoment, maximumTime := 0.0, 0.0;
    for i := 0 to |relevant|
      invariant secondMoment == SumOver(relevant[..i], FlowBound(cp, pr, w))
      invariant maximumTime == MaxOver(relevant[..i], FlowTime(cp, pr, w))
    {
      var f := relevant[i];
      var models := cp.modelsByFlow(f);
      var best, longest := 0.0, 0.0;
      for j := 0 to |models|
        invariant best == MaxOver(models[..j], Candidate(cp, pr, f, w))
        invariant longest == MaxOver(models[..j], WholeTimeOf(pr, w))
      {
        var time := WholeTime(pr, models[j], w);
        longest := Max(longest, time);
        best := Max(best, Weighted(cp.rate(f, models[j]), time));
        assert models[..j + 1][..j] == models[..j];
      }
      assert models[..|models|] == models;
      maximumTime := Max(maximumTime, longest);
      secondMoment := secondMoment + best;
      assert relevant[..i + 1][..i] == relevant[..i];
    }
    assert relevant[..|relevant|] == relevant;
    wait := BoundOf(cp.utilizationLimit, secondMoment, maximumTime);
  }

  /** `prepare_compact_problem`: the bound of every worker, and of every flow the largest one of its workers. */
  method PrepareCompactProblem(cp: ComputeProblem, pr: Profiles)
    returns (waits: map<WorkerId, real>, flowWaits: map<FlowId, real>)
    requires Sensible(cp, pr)
    requires forall f, w :: f in cp.flows && w in cp.workersByFlow(f) ==> w in cp.workers
    ensures waits.Keys == (set w | w in cp.workers) && flowWaits.Keys == (set f | f in cp.flows)
    ensures forall w :: w in waits ==> waits[w] == WaitBound(cp, pr, w)
    ensures forall f :: f in flowWaits ==> flowWaits[f] == MaxOver(cp.workersByFlow(f), WaitBoundOf(cp, pr))
  {
    hide WaitBound;
    waits := map[];
    for i := 0 to |cp.workers|
      invariant waits.Keys == set w | w in cp.workers[..i]
      invariant forall w :: w in waits ==> waits[w] == WaitBound(cp, pr, w)
    {
      var wait := BoundWorker(cp, pr, cp.workers[i]);
      waits := waits[cp.workers[i] := wait];
      assert cp.workers[..i + 1] == cp.workers[..i] + [cp.workers[i]];
    }
    assert cp.workers[..|cp.workers|] == cp.workers;
    flowWaits := map[];
    for i := 0 to |cp.flows|
      invariant flowWaits.Keys == set f | f in cp.flows[..i]
      invariant forall f :: f in flowWaits ==> flowWaits[f] == MaxOver(cp.workersByFlow(f), WaitBoundOf(cp, pr))
    {
      var f := cp.flows[i];
      var longest := LongestWait(cp, pr, cp.workersByFlow(f), waits);
      flowWaits := flowWaits[f := longest];
      assert cp.flows[..i + 1] == cp.flows[..i] + [f];
    }
    assert cp.flows[..|cp.flows|] == cp.flows;
  }

  method LongestWait(cp: ComputeProblem, pr: Profiles, workers: seq<WorkerId>, waits: map<WorkerId, real>)
    returns (longest: real)
    requires cp.utilizationLimit < 1.0
    requires forall w :: w in workers ==> w in waits && waits[w] == WaitBound(cp, pr, w)
    ensures longest == MaxOver(workers, WaitBoundOf(cp, pr))
  {
    hide WaitBound;
    longest := 0.0;
    for j := 0 to |workers|
      invariant longest == MaxOver(workers[..j], WaitBoundOf(cp, pr))
    {
      longest := Max(longest, waits[workers[j]]);
      assert workers[..j + 1][..j] == workers[..j];
    }
    assert workers[..|workers|] == workers;
  }

  function WaitBoundOf(cp: ComputeProblem, pr: Profiles): WorkerId -> real
    requires cp.utilizationLimit < 1.0
  {
    w => WaitBound(cp, pr, w)
  }

  // ----- physical execution times

  function TimeIn(pr: Profiles, c: Placement, w: WorkerId, k: int): LayerKey -> real
  {
    l => if c.componentOf(l) == k then pr.time(c.variant, l, w) else 0.0
  }

  /** The time of component k on its own worker, and 0 everywhere else. */
  function PhysicalTime(pr: Profiles, c: Placement, m: ModelVariantId, k: int, w: WorkerId): real
  {
    if m == c.variant && 1 <= k <= c.last && c.workerOf(k) == w
    then SumOver(pr.layersOf(m), TimeIn(pr, c, w, k)) else 0.0
  }

  function PhysicalTimeAt(pr: Profiles, c: Placement, m: ModelVariantId, w: WorkerId): int -> real
  {
    k => PhysicalTime(pr, c, m, k, w)
  }

  /** The point has the physical execution times of the given placements. */
  ghost predicate Physical(cp: ComputeProblem, pr: Profiles, cuts: FlowId -> Placement, p: Point)
  {
    && (forall f :: f in cp.flows ==> cuts(f).variant in cp.modelsByFlow(f))
    && (forall f, m, k, w :: p(ExecutionTime(f, m, k, w)) == PhysicalTime(pr, cuts(f), m, k, w))
  }

  lemma TimesNonNegative(cp: ComputeProblem, pr: Profiles, c: Placement, m: ModelVariantId, k: int, w: WorkerId)
    requires Sensible(cp, pr)
    ensures PhysicalTime(pr, c, m, k, w) >= 0.0
  {
    SumNonNegative(pr.layersOf(c.variant), TimeIn(pr, c, w, k));
  }

  /** The components of a variant on one worker take no longer than the whole variant there. */
  lemma TimesWithinWhole(cp: ComputeProblem, pr: Profiles, c: Placement, w: WorkerId)
    requires Sensible(cp, pr)
    ensures SumOver(Range(1, cp.maxComponents + 1), PhysicalTimeAt(pr, c, c.variant, w)) <= WholeTime(pr, c.variant, w)
  {
    hide Sensible;
    var keys, layers := Range(1, cp.maxComponents + 1), pr.layersOf(c.variant);
    var inComponent := (k: int) => SumOver(layers, TimeIn(pr, c, w, k));
    forall k | k in keys ensures PhysicalTimeAt(pr, c, c.variant, w)(k) <= inComponent(k) {
      EachNonNegative(cp, pr, c, w, k);
      SumNonNegative(layers, TimeIn(pr, c, w, k));
    }
    SumMonotone(keys, PhysicalTimeAt(pr, c, c.variant, w), inComponent);
    var column := (l: LayerKey) => (k: int) => TimeIn(pr, c, w, k)(l);
    var ofLayer := (l: LayerKey) => SumOver(keys, column(l));
    SumSwap(keys, layers, (k: int) => TimeIn(pr, c, w, k), column, inComponent, ofLayer);
    forall l | l in layers ensures ofLayer(l) <= LayerTime(pr, c.variant, w)(l) {
      LayerOnce(cp, pr, c, w, l, keys, column(l));
    }
    SumMonotone(layers, ofLayer, LayerTime(pr, c.variant, w));
  }

  lemma EachNonNegative(cp: ComputeProblem, pr: Profiles, c: Placement, w: WorkerId, k: int)
    requires Sensible(cp, pr)
    ensures forall l :: TimeIn(pr, c, w, k)(l) >= 0.0
  {
  }

  /** A layer is in at most one component. */
  lemma {:induction false} LayerOnce(cp: ComputeProblem, pr: Profiles, c: Placement, w: WorkerId, l: LayerKey,
                                     keys: seq<int>, g: int -> real)
    requires Sensible(cp, pr) && Distinct(keys)
    requires forall k :: k in keys ==> g(k) == TimeIn(pr, c, w, k)(l)
    ensures SumOver(keys, g) <= pr.time(c.variant, l, w)
  {
    if c.componentOf(l) in keys {
      SumSingle(keys, g, c.componentOf(l));
    } else {
      forall k | k in keys ensures g(k) == 0.0 {
        assert g(k) == TimeIn(pr, c, w, k)(l);
      }
      SumZero(keys, g);
    }
  }

  // ----- second moments

  /** The sum of squares is at most the square of the sum. */
  lemma {:induction false} SumOfSquares(keys: seq<int>, g: int -> real)
    requires forall k :: k in keys ==> g(k) >= 0.0
    ensures SumOver(keys, SquaresOf(g)) <= Square(SumOver(keys, g))
  {
    hide Square;
    if keys != [] {
      var init, last := keys[..|keys| - 1], keys[|keys| - 1];
      SumOfSquares(init, g);
      SumNonNegative(init, g);
      SquareOfSum(SumOver(init, g), g(last), SumOver(keys, g));
    } else {
      SquareOfZero(SumOver(keys, g));
    }
  }

  lemma SquareOfZero(x: real)
    requires x == 0.0
    ensures Square(x) == 0.0
  {
  }

  lemma SquareOfSum(a: real, b: real, c: real)
    requires a >= 0.0 && b >= 0.0 && c == a + b
    ensures Square(a) + Square(b) <= Square(c)
  {
    Scale(a, 0.0, b);
    assert c * c == a * a + 2.0 * (a * b) + b * b;
  }

  lemma SquareMonotone(a: real, b: real)
    requires 0.0 <= a <= b
    ensures a * a <= b * b
  {
    Scale(a, a, b);
    Scale(b, a, b);
  }

  function SquaresOf(g: int -> real): int -> real { k => Square(g(k)) }

  lemma WeightedIsSquare(rate: real, x: real)
    ensures rate * x * x == Weighted(rate, x) == rate * Square(x)
  {
  }

  lemma ModelMomentBound(cp: ComputeProblem, pr: Profiles, cuts: FlowId -> Placement, f: FlowId, w: WorkerId, p: Point)
    requires Sensible(cp, pr) && Physical(cp, pr, cuts, p) && f in cp.flows
    ensures ModelMoment(cp, f, w, p)(cuts(f).variant) <= Candidate(cp, pr, f, w)(cuts(f).variant)
  {
    hide Sensible, WholeTime, PhysicalTime, Square, Weighted, PhysicalTimeAt, Scaled;
    var keys, c, m := Range(1, cp.maxComponents + 1), cuts(f), cuts(f).variant;
    var rate, g := cp.rate(f, m), PhysicalTimeAt(pr, c, m, w);
    var term := (k: int) => Weighted(rate, g(k));
    forall k | k in keys ensures g(k) >= 0.0 {
      PhysicalAt(cp, pr, c, m, k, w);
    }
    forall k | k in keys ensures term(k) == Scaled(rate, SquaresOf(g))(k) {
      ScaledSquare(rate, g, k);
    }
    SumCongruent(keys, term, Scaled(rate, SquaresOf(g)));
    SumScaled(keys, rate, SquaresOf(g));
    SumOfSquares(keys, g);
    SumNonNegative(keys, g);
    TimesWithinWhole(cp, pr, c, w);
    RateNonNegative(cp, pr, f, m);
    MomentArithmetic(rate, SumOver(keys, SquaresOf(g)), SumOver(keys, g), WholeTime(pr, m, w));
    MomentIsWeighted(cp, pr, cuts, f, w, p, term);
  }

  lemma ScaledSquare(rate: real, g: int -> real, k: int)
    ensures Weighted(rate, g(k)) == Scaled(rate, SquaresOf(g))(k)
  {
    WeightedIsSquare(rate, g(k));
  }

  lemma MomentIsWeighted(cp: ComputeProblem, pr: Profiles, cuts: FlowId -> Placement, f: FlowId, w: WorkerId, p: Point,
                         term: int -> real)
    requires Physical(cp, pr, cuts, p)
    requires forall k :: term(k) == Weighted(cp.rate(f, cuts(f).variant), PhysicalTimeAt(pr, cuts(f), cuts(f).variant, w)(k))
    ensures ModelMoment(cp, f, w, p)(cuts(f).variant) == SumOver(Range(1, cp.maxComponents + 1), term)
  {
    hide PhysicalTime;
    var keys, m := Range(1, cp.maxComponents + 1), cuts(f).variant;
    var g := (k: int) => cp.rate(f, m) * p(ExecutionTime(f, m, k, w)) * p(ExecutionTime(f, m, k, w));
    forall k | k in keys ensures g(k) == term(k) {
      assert p(ExecutionTime(f, m, k, w)) == PhysicalTimeAt(pr, cuts(f), m, w)(k);
    }
    SumCongruent(keys, g, term);
  }

  lemma PhysicalAt(cp: ComputeProblem, pr: Profiles, c: Placement, m: ModelVariantId, k: int, w: WorkerId)
    requires Sensible(cp, pr)
    ensures PhysicalTimeAt(pr, c, m, w)(k) >= 0.0
  {
    TimesNonNegative(cp, pr, c, m, k, w);
  }

  lemma MomentArithmetic(rate: real, squares: real, sum: real, whole: real)
    requires rate >= 0.0 && squares <= Square(sum) && 0.0 <= sum <= whole
    ensures rate * squares <= Weighted(rate, whole)
  {
    SquareMonotone(sum, whole);
    Scale(rate, squares, whole * whole);
    WeightedIsSquare(rate, whole);
  }

  lemma RateNonNegative(cp: ComputeProblem, pr: Profiles, f: FlowId, m: ModelVariantId)
    requires Sensible(cp, pr)
    ensures cp.rate(f, m) >= 0.0
  {
  }

  lemma OtherModelsIdle(
    cp: ComputeProblem, pr: Profiles, cuts: FlowId -> Placement, f: FlowId, m: ModelVariantId, w: WorkerId, p: Point)
    requires Physical(cp, pr, cuts, p) && m != cuts(f).variant
    ensures ModelMoment(cp, f, w, p)(m) == 0.0
  {
    var g := (k: int) => cp.rate(f, m) * p(ExecutionTime(f, m, k, w)) * p(ExecutionTime(f, m, k, w));
    forall k ensures g(k) == 0.0 {
      assert p(ExecutionTime(f, m, k, w)) == 0.0;
    }
    SumZero(Range(1, cp.maxComponents + 1), g);
  }

  /** The second moment stays within the sum over flows of the heaviest variant. */
  lemma MomentWithinBound(cp: ComputeProblem, pr: Profiles, cuts: FlowId -> Placement, w: WorkerId, p: Point)
    requires Sensible(cp, pr) && Physical(cp, pr, cuts, p)
    ensures SecondMoment(cp, w, p) <= MomentBound(cp, pr, w)
  {
    hide ModelMoment, Candidate, Physical, Sensible;
    forall f | f in Relevant(cp, w) ensures FlowMoment(cp, w, p)(f) <= FlowBound(cp, pr, w)(f) {
      FlowMomentBound(cp, pr, cuts, f, w, p);
    }
    SumMonotone(Relevant(cp, w), FlowMoment(cp, w, p), FlowBound(cp, pr, w));
  }

  lemma FlowMomentBound(cp: ComputeProblem, pr: Profiles, cuts: FlowId -> Placement, f: FlowId, w: WorkerId, p: Point)
    requires Sensible(cp, pr) && Physical(cp, pr, cuts, p) && f in cp.flows
    ensures FlowMoment(cp, w, p)(f) <= FlowBound(cp, pr, w)(f)
  {
    hide ModelMoment, Candidate, PhysicalTime;
    var m := cuts(f).variant;
    forall n | n != m ensures ModelMoment(cp, f, w, p)(n) == 0.0 {
      OtherModelsIdle(cp, pr, cuts, f, n, w, p);
    }
    ModelMomentBound(cp, pr, cuts, f, w, p);
    SumSingle(cp.modelsByFlow(f), ModelMoment(cp, f, w, p), m);
    MaxOverAtLeast(cp.modelsByFlow(f), Candidate(cp, pr, f, w), m);
  }

  // ----- utilization

  function ModelLoad(cp: ComputeProblem, f: FlowId, w: WorkerId, p: Point): ModelVariantId -> real
  {
    m => SumOver(Range(1, cp.maxComponents + 1), LoadIn(cp, f, m, w, p))
  }

  function LoadIn(cp: ComputeProblem, f: FlowId, m: ModelVariantId, w: WorkerId, p: Point): int -> real
  {
    k => cp.rate(f, m) * p(ExecutionTime(f, m, k, w))
  }

  /** The utilization of a flow on a worker, summed variant by variant. */
  lemma FlowLoad(cp: ComputeProblem, f: FlowId, w: WorkerId, p: Point)
    ensures FlowUtilization(cp, w, p)(f) == SumOver(cp.modelsByFlow(f), ModelLoad(cp, f, w, p))
  {
    var keys := Range(1, cp.maxComponents + 1);
    var row := (k: int) => ClassUtilization(cp, f, k, w, p);
    SumSwap(keys, cp.modelsByFlow(f), (k: int) => Load(cp, f, k, w, p), (m: ModelVariantId) => LoadIn(cp, f, m, w, p),
            row, ModelLoad(cp, f, w, p));
    SumCongruent(keys, row, (k: int) => ClassUtilization(cp, f, k, w, p));
  }

  lemma TimeWithinBound(cp: ComputeProblem, pr: Profiles, cuts: FlowId -> Placement, f: FlowId, m: ModelVariantId,
                        k: int, w: WorkerId)
    requires Sensible(cp, pr) && f in Relevant(cp, w) && cuts(f).variant in cp.modelsByFlow(f)
    requires 1 <= k <= cp.maxComponents
    ensures 0.0 <= PhysicalTime(pr, cuts(f), m, k, w) <= TimeBound(cp, pr, w)
  {
    hide Sensible, WholeTime, PhysicalTime, Relevant;
    var c, keys := cuts(f), Range(1, cp.maxComponents + 1);
    TimesNonNegative(cp, pr, c, m, k, w);
    OnlyOwnVariant(pr, c, m, k, w);
    if m == c.variant {
      forall j | j in keys ensures PhysicalTimeAt(pr, c, m, w)(j) >= 0.0 { PhysicalAt(cp, pr, c, m, j, w); }
      TermAtMostSum(keys, PhysicalTimeAt(pr, c, m, w), k);
      TimesWithinWhole(cp, pr, c, w);
      MaxOverAtLeast(cp.modelsByFlow(f), WholeTimeOf(pr, w), m);
      MaxOverAtLeast(Relevant(cp, w), FlowTime(cp, pr, w), f);
    }
  }

  lemma OnlyOwnVariant(pr: Profiles, c: Placement, m: ModelVariantId, k: int, w: WorkerId)
    ensures m != c.variant ==> PhysicalTime(pr, c, m, k, w) == 0.0
  {
  }

  lemma MomentTerm(rate: real, time: real, longest: real)
    requires rate >= 0.0 && 0.0 <= time <= longest
    ensures rate * time * time <= longest * (rate * time)
    ensures rate * time >= 0.0
  {
    Scale(rate, 0.0, time);
    Scale(rate * time, time, longest);
  }

  function MomentIn(cp: ComputeProblem, f: FlowId, m: ModelVariantId, w: WorkerId, p: Point): int -> real
  {
    k => cp.rate(f, m) * p(ExecutionTime(f, m, k, w)) * p(ExecutionTime(f, m, k, w))
  }

  lemma ModelMomentIs(cp: ComputeProblem, f: FlowId, m: ModelVariantId, w: WorkerId, p: Point)
    ensures ModelMoment(cp, f, w, p)(m) == SumOver(Range(1, cp.maxComponents + 1), MomentIn(cp, f, m, w, p))
  {
    SumCongruent(Range(1, cp.maxComponents + 1), MomentIn(cp, f, m, w, p), (k: int) =>
      cp.rate(f, m) * p(ExecutionTime(f, m, k, w)) * p(ExecutionTime(f, m, k, w)));
  }

  lemma TermWithinLoad(cp: ComputeProblem, pr: Profiles, cuts: FlowId -> Placement, f: FlowId, m: ModelVariantId,
                       k: int,
                       w: WorkerId, p: Point)
    requires Sensible(cp, pr) && Physical(cp, pr, cuts, p) && f in Relevant(cp, w) && 1 <= k <= cp.maxComponents
    ensures MomentIn(cp, f, m, w, p)(k) <= Scaled(TimeBound(cp, pr, w), LoadIn(cp, f, m, w, p))(k)
    ensures LoadIn(cp, f, m, w, p)(k) >= 0.0
  {
    hide PhysicalTime, TimeBound;
    assert f in cp.flows;
    TimeWithinBound(cp, pr, cuts, f, m, k, w);
    assert p(ExecutionTime(f, m, k, w)) == PhysicalTime(pr, cuts(f), m, k, w);
    MomentTerm(cp.rate(f, m), p(ExecutionTime(f, m, k, w)), TimeBound(cp, pr, w));
  }

  lemma ModelMomentWithinLoad(cp: ComputeProblem, pr: Profiles, cuts: FlowId -> Placement, f: FlowId, m: ModelVariantId,
                              w: WorkerId, p: Point)
    requires Sensible(cp, pr) && Physical(cp, pr, cuts, p) && f in Relevant(cp, w)
    ensures ModelMoment(cp, f, w, p)(m) <= Scaled(TimeBound(cp, pr, w), ModelLoad(cp, f, w, p))(m)
  {
    hide TimeBound, Relevant, Sensible, Physical, MomentIn, LoadIn, ModelMoment, Scaled;
    var keys, longest := Range(1, cp.maxComponents + 1), TimeBound(cp, pr, w);
    forall k | k in keys ensures MomentIn(cp, f, m, w, p)(k) <= Scaled(longest, LoadIn(cp, f, m, w, p))(k) {
      TermWithinLoad(cp, pr, cuts, f, m, k, w, p);
    }
    SumMonotone(keys, MomentIn(cp, f, m, w, p), Scaled(longest, LoadIn(cp, f, m, w, p)));
    SumScaled(keys, longest, LoadIn(cp, f, m, w, p));
    ModelMomentIs(cp, f, m, w, p);
    ScaledIs(longest, ModelLoad(cp, f, w, p), m);
  }

  /** The second moment stays within the longest time times the utilization. */
  lemma MomentWithinLoad(cp: ComputeProblem, pr: Profiles, cuts: FlowId -> Placement, w: WorkerId, p: Point)
    requires Sensible(cp, pr) && Physical(cp, pr, cuts, p)
    ensures AtMostTimes(SecondMoment(cp, w, p), TimeBound(cp, pr, w), TotalUtilization(cp, w, p))
  {
    hide Sensible, Physical, TimeBound, ModelMoment, ModelLoad, FlowUtilization, Relevant, Scaled;
    var longest := TimeBound(cp, pr, w);
    forall f | f in Relevant(cp, w)
      ensures FlowMoment(cp, w, p)(f) <= Scaled(longest, FlowUtilization(cp, w, p))(f)
    {
      forall m | m in cp.modelsByFlow(f)
        ensures ModelMoment(cp, f, w, p)(m) <= Scaled(longest, ModelLoad(cp, f, w, p))(m)
      {
        ModelMomentWithinLoad(cp, pr, cuts, f, m, w, p);
      }
      SumMonotone(cp.modelsByFlow(f), ModelMoment(cp, f, w, p), Scaled(longest, ModelLoad(cp, f, w, p)));
      SumScaled(cp.modelsByFlow(f), longest, ModelLoad(cp, f, w, p));
      FlowLoad(cp, f, w, p);
      ScaledIs(longest, FlowUtilization(cp, w, p), f);
    }
    SumMonotone(Relevant(cp, w), FlowMoment(cp, w, p), Scaled(longest, FlowUtilization(cp, w, p)));
    SumScaled(Relevant(cp, w), longest, FlowUtilization(cp, w, p));
  }

  lemma ScaledIs<T>(a: real, f: T -> real, k: T)
    ensures Scaled(a, f)(k) == a * f(k)
  {
  }

  // ----- priorities share the utilization of the worker

  ghost predicate ClassesOk(cp: ComputeProblem, w: WorkerId, p: Point)
  {
    && cp.priorityCount >= 0
    && forall f, k :: f in Relevant(cp, w) && 1 <= k <= cp.maxComponents ==>
         ClassRows(cp, f, k, w, p) && ClassDomain(cp, f, k, w, p)
  }

  function PriorityRho(cp: ComputeProblem, f: FlowId, w: WorkerId, p: Point): int -> real
  {
    r => FlowRho(cp, f, w, r, p)
  }

  function ComponentRho(f: FlowId, w: WorkerId, r: int, p: Point): int -> real
  {
    k => p(PriorityClassUtilization(f, k, w, r))
  }

  /** Over all priorities, the utilization variables of a flow add up to its utilization. */
  lemma FlowRhoTotal(cp: ComputeProblem, f: FlowId, w: WorkerId, p: Point)
    requires ClassesOk(cp, w, p) && f in Relevant(cp, w)
    ensures SumOver(Range(1, cp.priorityCount + 1), PriorityRho(cp, f, w, p)) == FlowUtilization(cp, w, p)(f)
  {
    hide Relevant, ClassUtilization;
    var components, priorities := Range(1, cp.maxComponents + 1), Range(1, cp.priorityCount + 1);
    var perComponent := (k: int) => ClassUtilization(cp, f, k, w, p);
    forall r | r in priorities
      ensures PriorityRho(cp, f, w, p)(r) == SumOver(components, ComponentRho(f, w, r, p))
    {
      SumCongruent(components, ComponentRho(f, w, r, p), (k: int) => p(PriorityClassUtilization(f, k, w, r)));
    }
    forall k | k in components
      ensures perComponent(k) == SumOver(priorities, RhoBar(f, k, w, p))
    {
      assert ClassRows(cp, f, k, w, p);
    }
    SumSwap(priorities, components, (r: int) => ComponentRho(f, w, r, p), (k: int) => RhoBar(f, k, w, p),
            PriorityRho(cp, f, w, p), perComponent);
    SumCongruent(components, perComponent, (k: int) => ClassUtilization(cp, f, k, w, p));
  }

  lemma AllPrioritiesTotal(cp: ComputeProblem, w: WorkerId, p: Point)
    requires ClassesOk(cp, w, p)
    ensures RhoUpTo(cp, w, cp.priorityCount, p) == TotalUtilization(cp, w, p)
  {
    hide Relevant, FlowUtilization, FlowRho, ClassesOk;
    var priorities := Range(1, cp.priorityCount + 1);
    var perPriority := (r: int) => (f: FlowId) => FlowRho(cp, f, w, r, p);
    forall r | r in priorities ensures ClassRho(cp, w, p)(r) == SumOver(Relevant(cp, w), perPriority(r)) {
      SumCongruent(Relevant(cp, w), perPriority(r), (f: FlowId) => FlowRho(cp, f, w, r, p));
    }
    forall f | f in Relevant(cp, w)
      ensures FlowUtilization(cp, w, p)(f) == SumOver(priorities, PriorityRho(cp, f, w, p))
    {
      FlowRhoTotal(cp, f, w, p);
    }
    SumSwap(priorities, Relevant(cp, w), perPriority, (f: FlowId) => PriorityRho(cp, f, w, p),
            ClassRho(cp, w, p), FlowUtilization(cp, w, p));
  }

  lemma ClassRhoNonNegative(cp: ComputeProblem, w: WorkerId, r: int, p: Point)
    requires ClassesOk(cp, w, p) && 1 <= r <= cp.priorityCount
    ensures ClassRho(cp, w, p)(r) >= 0.0
  {
    hide Relevant, ClassRows;
    var perFlow := (f: FlowId) => FlowRho(cp, f, w, r, p);
    forall f | f in Relevant(cp, w) ensures perFlow(f) >= 0.0 {
      var g := (k: int) => p(PriorityClassUtilization(f, k, w, r));
      forall k | k in Range(1, cp.maxComponents + 1) ensures g(k) >= 0.0 {
        assert ClassDomain(cp, f, k, w, p);
      }
      SumNonNegative(Range(1, cp.maxComponents + 1), g);
    }
    SumNonNegative(Relevant(cp, w), perFlow);
  }

  /** The utilization of the first r priorities is at most that of all. */
  lemma RhoWithinTotal(cp: ComputeProblem, w: WorkerId, r: int, p: Point)
    requires ClassesOk(cp, w, p) && 0 <= r <= cp.priorityCount
    ensures 0.0 <= RhoUpTo(cp, w, r, p) <= TotalUtilization(cp, w, p)
  {
    hide ClassRho, Relevant, ClassesOk, TotalUtilization;
    var front, back := Range(1, r + 1), Range(r + 1, cp.priorityCount + 1);
    assert front + back == Range(1, cp.priorityCount + 1);
    forall q | q in front + back ensures ClassRho(cp, w, p)(q) >= 0.0 {
      ClassRhoNonNegative(cp, w, q, p);
    }
    SumConcat(front, back, ClassRho(cp, w, p));
    SumNonNegative(front, ClassRho(cp, w, p));
    SumNonNegative(back, ClassRho(cp, w, p));
    AllPrioritiesTotal(cp, w, p);
  }

  // ----- the rounded waits fit

  /** wait <= bound (1 - limit) / (1 - l), without the division. */
  predicate ScaledWithin(wait: real, l: real, bound: real, limit: real)
  {
    wait * (1.0 - l) <= bound * (1.0 - limit)
  }

  /** wait == h / (2 (1 - l) (1 - rhoLe)), without the division. */
  predicate WaitEquation(wait: real, l: real, rhoLe: real, h: real)
  {
    wait * (2.0 * ((1.0 - l) * (1.0 - rhoLe))) == h
  }

  /**
   The wait of a queue, rounded up to the bin limit l, against the a-priori bound: it stays below the
   bound scaled by (1 - limit) / (1 - l), here without the division.
   */
  lemma RoundedWaitFits(wait: real, h: real, l: real, rhoLe: real, limit: real, bound: real)
    requires 0.0 < limit < 1.0 && 0.0 <= rhoLe <= limit && 0.0 <= l <= limit && 0.0 <= h
    requires WaitEquation(wait, l, rhoLe, h) && AtMostTimes(h, bound, Twice(limit))
    ensures 0.0 <= wait && ScaledWithin(wait, l, bound, limit) && wait <= bound
  {
    var rest, room, remaining := 1.0 - limit, 1.0 - l, 1.0 - rhoLe;
    var x := wait * room;
    assert x * (2.0 * remaining) == h by { Regroup(wait, room, remaining); }
    if x < 0.0 { ScaleStrict(2.0 * remaining, x, 0.0); }
    Scale(x, 2.0 * rest, 2.0 * remaining);
    assert bound * (2.0 * (rest * rest)) == (bound * rest) * (2.0 * rest) by { Regroup(bound, rest, rest); }
    if bound * rest < x { ScaleStrict(2.0 * rest, bound * rest, x); }
    if wait < 0.0 { ScaleStrict(room, wait, 0.0); }
    Scale(wait, rest, room);
    if bound < wait { ScaleStrict(rest, bound, wait); }
  }

  lemma Regroup(a: real, b: real, c: real)
    ensures (a * b) * (2.0 * c) == a * (2.0 * (b * c))
  {
  }

  /** The problem after `prepare_compact_problem`. */
  ghost predicate Prepared(cp: ComputeProblem, pr: Profiles)
  {
    && Sensible(cp, pr)
    && (forall w :: cp.maxWaitOfWorker(w) == WaitBound(cp, pr, w))
    && (forall f :: f in cp.flows ==> cp.maxWaitOfFlow(f) == MaxOver(cp.workersByFlow(f), WaitBoundOf(cp, pr)))
  }

  /** A worker at which a real placement runs with physical times and within the utilization limit. */
  ghost predicate RealWorker(cp: ComputeProblem, pr: Profiles, cuts: FlowId -> Placement, w: WorkerId, p: Point)
  {
    && Prepared(cp, pr) && Physical(cp, pr, cuts, p) && ClassesOk(cp, w, p)
    && TotalUtilization(cp, w, p) <= cp.utilizationLimit
  }

  lemma MomentNonNegative(cp: ComputeProblem, pr: Profiles, cuts: FlowId -> Placement, w: WorkerId, p: Point)
    requires Sensible(cp, pr) && Physical(cp, pr, cuts, p)
    ensures SecondMoment(cp, w, p) >= 0.0
  {
    hide Relevant, ModelMoment, PhysicalTime;
    forall f | f in Relevant(cp, w) ensures FlowMoment(cp, w, p)(f) >= 0.0 {
      forall m | m in cp.modelsByFlow(f) ensures ModelMoment(cp, f, w, p)(m) >= 0.0 {
        forall k | k in Range(1, cp.maxComponents + 1) ensures MomentIn(cp, f, m, w, p)(k) >= 0.0 {
          WeightedNonNegative(cp.rate(f, m), p(ExecutionTime(f, m, k, w)));
        }
        SumNonNegative(Range(1, cp.maxComponents + 1), MomentIn(cp, f, m, w, p));
        ModelMomentIs(cp, f, m, w, p);
      }
      SumNonNegative(cp.modelsByFlow(f), ModelMoment(cp, f, w, p));
    }
    SumNonNegative(Relevant(cp, w), FlowMoment(cp, w, p));
  }

  lemma WeightedNonNegative(rate: real, x: real)
    requires rate >= 0.0
    ensures rate * x * x >= 0.0
  {
    if x >= 0.0 { Scale(x, 0.0, x); } else { Scale(-x, 0.0, -x); assert (-x) * (-x) == x * x; }
    Scale(rate, 0.0, x * x);
    assert rate * x * x == rate * (x * x);
  }

  /** Both a-priori bounds on the second moment hold. */
  lemma MomentFits(cp: ComputeProblem, pr: Profiles, cuts: FlowId -> Placement, w: WorkerId, p: Point)
    requires RealWorker(cp, pr, cuts, w, p)
    ensures 0.0 <= SecondMoment(cp, w, p)
    ensures AtMostTimes(SecondMoment(cp, w, p), cp.maxWaitOfWorker(w), Twice(cp.utilizationLimit))
  {
    hide SecondMoment, MomentBound, TimeBound, TotalUtilization, Physical, ClassesOk, BoundOf, Twice;
    hide IsQuotient, AtMostTimes, LimitedTime;
    var limit, moment, time := cp.utilizationLimit, MomentBound(cp, pr, w), TimeBound(cp, pr, w);
    MomentNonNegative(cp, pr, cuts, w, p);
    MomentWithinBound(cp, pr, cuts, w, p);
    MomentWithinLoad(cp, pr, cuts, w, p);
    TimeBoundNonNegative(cp, pr, w);
    WithinLimit(SecondMoment(cp, w, p), time, TotalUtilization(cp, w, p), limit);
    Transfer(SecondMoment(cp, w, p), BoundOf(limit, moment, time), Twice(limit), Min(moment, LimitedTime(limit, time)));
    assert cp.maxWaitOfWorker(w) == WaitBound(cp, pr, w) == BoundOf(limit, moment, time);
  }

  lemma WithinLimit(h: real, time: real, load: real, limit: real)
    requires AtMostTimes(h, time, load) && load <= limit && time >= 0.0
    ensures h <= LimitedTime(limit, time)
  {
    Scale(time, load, limit);
  }

  lemma Transfer(h: real, q: real, c: real, a: real)
    requires IsQuotient(q, c, a) && h <= a
    ensures AtMostTimes(h, q, c)
  {
  }

  lemma TimeBoundNonNegative(cp: ComputeProblem, pr: Profiles, w: WorkerId)
    ensures TimeBound(cp, pr, w) >= 0.0
  {
  }

  // ----- rounded waits satisfy every row and every bound

  function RoundingLimit(cp: ComputeProblem, r: int, bin: int): real
  {
    if r >= 2 then Limit(cp, bin) else 0.0
  }

  /** The variables of one queue hold the wait H / (2 (1 - l)(1 - rho_le)), with l the upper end of the bin of rho_lt. */
  ghost predicate RoundedQueue(cp: ComputeProblem, w: WorkerId, r: int, bin: int, p: Point)
  {
    && p(RemainingCapacity(w, r)) == 1.0 - RhoUpTo(cp, w, r, p)
    && WaitEquation(p(QueueWait(w, r)), RoundingLimit(cp, r, bin), RhoUpTo(cp, w, r, p), SecondMoment(cp, w, p))
    && (r >= 2 ==>
          && SelectedBin(cp, w, r, p, bin)
          && p(HigherPriorityUtilization(w, r)) == RhoUpTo(cp, w, r - 1, p)
          && Limit(cp, bin - 1) <= RhoUpTo(cp, w, r - 1, p) <= Limit(cp, bin)
          && p(QueueWaitBin(w, r, bin)) == p(QueueWait(w, r))
          && p(WeightedQueueWait(w, r)) == (1.0 - Limit(cp, bin)) * p(QueueWait(w, r)))
  }

  lemma LimitWithin(cp: ComputeProblem, e: real, i: int)
    requires GeometricGrid(cp.binLimits, cp.utilizationLimit, e) && 0 <= i < |cp.binLimits|
    ensures 0.0 <= Limit(cp, i) <= cp.utilizationLimit
  {
    GridOrdered(cp.binLimits, cp.utilizationLimit, e, i, i);
  }

  /** The wait of a queue of a real placement stays within the bounds. */
  lemma QueueWaitFits(cp: ComputeProblem, pr: Profiles, cuts: FlowId -> Placement, e: real, w: WorkerId, r: int,
                      bin: int,
                      p: Point)
    requires RealWorker(cp, pr, cuts, w, p) && 1 <= r <= cp.priorityCount
    requires GeometricGrid(cp.binLimits, cp.utilizationLimit, e) && RoundedQueue(cp, w, r, bin, p)
    ensures 0.0 <= RoundingLimit(cp, r, bin) <= cp.utilizationLimit
    ensures 0.0 <= p(QueueWait(w, r)) <= cp.maxWaitOfWorker(w)
    ensures ScaledWithin(p(QueueWait(w, r)), RoundingLimit(cp, r, bin), cp.maxWaitOfWorker(w), cp.utilizationLimit)
  {
    hide SecondMoment, TotalUtilization, Physical, ClassesOk, RhoUpTo, GeometricGrid, Twice, AtMostTimes, Limit;
    hide WaitEquation, ScaledWithin;
    MomentFits(cp, pr, cuts, w, p);
    RhoWithinTotal(cp, w, r, p);
    if r >= 2 { LimitWithin(cp, e, bin); }
    RoundedWaitFits(p(QueueWait(w, r)), SecondMoment(cp, w, p), RoundingLimit(cp, r, bin), RhoUpTo(cp, w, r, p),
                    cp.utilizationLimit, cp.maxWaitOfWorker(w));
  }

  lemma BinBoundHolds(cp: ComputeProblem, w: WorkerId, i: int, wait: real)
    requires 0.0 <= Limit(cp, i) <= cp.utilizationLimit < 1.0
    requires ScaledWithin(wait, Limit(cp, i), cp.maxWaitOfWorker(w), cp.utilizationLimit)
    ensures wait <= BinUpper(cp, w, i)
  {
    hide Limit;
    var rest, a := 1.0 - Limit(cp, i), cp.maxWaitOfWorker(w) * (1.0 - cp.utilizationLimit);
    var q := a / rest;
    assert q * rest == a;
    if q < wait { ScaleStrict(rest, q, wait); }
  }

  /** All rows and bounds of the queue of a real placement hold at its rounded wait. */
  lemma RoundedQueueFeasible(cp: ComputeProblem, pr: Profiles, cuts: FlowId -> Placement, e: real, w: WorkerId, r: int,
                             bin: int, p: Point)
    requires RealWorker(cp, pr, cuts, w, p) && 1 <= r <= cp.priorityCount
    requires GeometricGrid(cp.binLimits, cp.utilizationLimit, e) && RoundedQueue(cp, w, r, bin, p)
    ensures QueueRows(cp, w, r, p) && CompactQueueRows(cp, w, r, p)
  {
    hide SecondMoment, RhoUpTo, GeometricGrid, Limit, RealWorker, BinUpper, BinWaitRow, DiscretizationRows, ConeRow;
    QueueWaitFits(cp, pr, cuts, e, w, r, bin, p);
    LimitsSensible(cp, pr, cuts, w, p);
    ConeHolds(cp, w, r, bin, p);
    if r >= 2 {
      RoundedDiscretization(cp, w, r, bin, p);
      BinBoundHolds(cp, w, bin, p(QueueWait(w, r)));
      forall i | 1 <= i < |cp.binLimits| ensures BinWaitRow(w, r, BinUpper(cp, w, i), i, p) {
        BinRowHolds(cp, w, r, bin, i, BinUpper(cp, w, i), p);
      }
    }
  }

  lemma RoundedDiscretization(cp: ComputeProblem, w: WorkerId, r: int, bin: int, p: Point)
    requires RoundedQueue(cp, w, r, bin, p) && r >= 2 && p(QueueWait(w, r)) <= cp.maxWaitOfWorker(w)
    ensures DiscretizationRows(cp, w, r, p)
  {
    hide SecondMoment, RhoUpTo, Limit, BinWaitRow, WaitEquation, SumOver, LowerOf, UpperOf, WaitOf, WeightedWaitOf;
    SumsAtBin(cp, w, r, p, bin);
    BinsSumToOne(cp, w, r, p, bin);
    forall i | 1 <= i < |cp.binLimits| ensures BinWaitRow(w, r, cp.maxWaitOfWorker(w), i, p) {
      BinRowHolds(cp, w, r, bin, i, cp.maxWaitOfWorker(w), p);
    }
  }

  lemma LimitsSensible(cp: ComputeProblem, pr: Profiles, cuts: FlowId -> Placement, w: WorkerId, p: Point)
    requires RealWorker(cp, pr, cuts, w, p)
    ensures 0.0 < cp.utilizationLimit < 1.0
  {
  }

  lemma ConeHolds(cp: ComputeProblem, w: WorkerId, r: int, bin: int, p: Point)
    requires RoundedQueue(cp, w, r, bin, p)
    ensures ConeRow(cp, w, r, p)
  {
    hide SecondMoment, RhoUpTo, Limit, SelectedBin;
    Reorder(1.0 - RoundingLimit(cp, r, bin), p(QueueWait(w, r)), p(RemainingCapacity(w, r)));
  }

  lemma BinsSumToOne(cp: ComputeProblem, w: WorkerId, r: int, p: Point, bin: int)
    requires SelectedBin(cp, w, r, p, bin)
    ensures SumOver(Bins(cp), BinChoice(w, r, p)) == 1.0
  {
    forall j | j in Bins(cp) && j != bin ensures BinChoice(w, r, p)(j) == 0.0 {
      assert p(ComputeBinSelected(w, r, j)) == 0.0;
    }
    SumSingle(Bins(cp), BinChoice(w, r, p), bin);
  }

  lemma BinRowHolds(cp: ComputeProblem, w: WorkerId, r: int, bin: int, i: int, bound: real, p: Point)
    requires SelectedBin(cp, w, r, p, bin) && 1 <= i < |cp.binLimits|
    requires i == bin ==> p(QueueWaitBin(w, r, bin)) <= bound
    ensures BinWaitRow(w, r, bound, i, p)
  {
  }

  // ----- the wait of a component

  /** The component runs at the given worker and priority and waits there, or it is not active and does not wait. */
  ghost predicate RoundedComponent(cp: ComputeProblem, f: FlowId, k: int, w: WorkerId, r: int, p: Point)
  {
    && p(ComponentActive(f, k)) == 1.0 && w in cp.workersByFlow(f) && 1 <= r <= cp.priorityCount
    && p(ComponentPriority(f, k, w, r)) == 1.0
    && OtherChoicesOff(cp, f, k, w, r, p)
    && p(ComponentQueueWait(f, k)) == p(QueueWait(w, r))
  }

  ghost predicate OtherChoicesOff(cp: ComputeProblem, f: FlowId, k: int, w: WorkerId, r: int, p: Point)
  {
    forall v, q :: v in cp.workersByFlow(f) && 1 <= q <= cp.priorityCount && (v != w || q != r) ==>
      p(ComponentPriority(f, k, v, q)) == 0.0
  }

  ghost predicate IdleComponent(cp: ComputeProblem, f: FlowId, k: int, p: Point)
  {
    && p(ComponentActive(f, k)) == 0.0 && p(ComponentQueueWait(f, k)) == 0.0
    && forall v, q :: v in cp.workersByFlow(f) && 1 <= q <= cp.priorityCount ==>
         p(ComponentPriority(f, k, v, q)) == 0.0
  }

  /** Every queue that the flow may use has a wait within its bound. */
  ghost predicate WaitsFit(cp: ComputeProblem, f: FlowId, p: Point)
  {
    forall v, q :: v in cp.workersByFlow(f) && 1 <= q <= cp.priorityCount ==>
      0.0 <= p(QueueWait(v, q)) <= WaitUpper(cp, v, q) && WaitUpper(cp, v, q) <= cp.maxWaitOfWorker(v)
  }

  lemma ActivationHolds(f: FlowId, k: int, w: WorkerId, r: int, bound: real, p: Point)
    requires p(QueueWait(w, r)) <= bound && p(ComponentQueueWait(f, k)) >= 0.0
    requires p(ComponentPriority(f, k, w, r)) == 0.0
             || (p(ComponentPriority(f, k, w, r)) == 1.0 && p(ComponentQueueWait(f, k)) == p(QueueWait(w, r)))
    ensures ActivationRow(f, k, w, r, bound, p)
  {
  }

  lemma RoundedComponentFeasible(cp: ComputeProblem, pr: Profiles, f: FlowId, k: int, w: WorkerId, r: int, p: Point)
    requires Prepared(cp, pr) && f in cp.flows && Distinct(cp.workersByFlow(f))
    requires RoundedComponent(cp, f, k, w, r, p) && WaitsFit(cp, f, p)
    ensures ComponentWaitRows(cp, f, k, p)
  {
    hide WaitUpper, Prepared, ActivationRow;
    forall v | v in cp.workersByFlow(f) ensures ActivationRows(cp, f, k, v, p) {
      forall q | 1 <= q <= cp.priorityCount
        ensures ActivationRow(f, k, v, q, cp.maxWaitOfWorker(v), p) && ActivationRow(f, k, v, q, WaitUpper(cp, v, q), p)
      {
        ActivationHolds(f, k, v, q, cp.maxWaitOfWorker(v), p);
        ActivationHolds(f, k, v, q, WaitUpper(cp, v, q), p);
      }
    }
    ChosenSum(cp, f, k, w, r, p);
    FlowBoundCovers(cp, pr, f, w);
    assert InactiveRow(cp, f, k, p);
  }

  lemma FlowBoundCovers(cp: ComputeProblem, pr: Profiles, f: FlowId, w: WorkerId)
    requires Prepared(cp, pr) && f in cp.flows && w in cp.workersByFlow(f)
    ensures cp.maxWaitOfWorker(w) <= cp.maxWaitOfFlow(f)
  {
    hide WaitBound;
    MaxOverAtLeast(cp.workersByFlow(f), WaitBoundOf(cp, pr), w);
  }

  lemma ChosenSum(cp: ComputeProblem, f: FlowId, k: int, w: WorkerId, r: int, p: Point)
    requires RoundedComponent(cp, f, k, w, r, p) && Distinct(cp.workersByFlow(f))
    ensures SumOver(cp.workersByFlow(f), ChosenUpperOf(cp, f, k, p)) == WaitUpper(cp, w, r)
  {
    hide WaitUpper;
    var keys := Range(1, cp.priorityCount + 1);
    forall v, q | v in cp.workersByFlow(f) && q in keys && (v != w || q != r)
      ensures ChosenUpper(cp, f, k, v, p)(q) == 0.0
    {
      assert p(ComponentPriority(f, k, v, q)) == 0.0;
    }
    forall v | v in cp.workersByFlow(f) && v != w ensures ChosenUpperOf(cp, f, k, p)(v) == 0.0 {
      SumZero(keys, ChosenUpper(cp, f, k, v, p));
    }
    SumSingle(keys, ChosenUpper(cp, f, k, w, p), r);
    SumSingle(cp.workersByFlow(f), ChosenUpperOf(cp, f, k, p), w);
  }

  lemma IdleComponentFeasible(cp: ComputeProblem, f: FlowId, k: int, p: Point)
    requires IdleComponent(cp, f, k, p) && WaitsFit(cp, f, p)
    ensures ComponentWaitRows(cp, f, k, p)
  {
    hide WaitUpper, ActivationRow;
    forall v | v in cp.workersByFlow(f) ensures ActivationRows(cp, f, k, v, p) {
      forall q | 1 <= q <= cp.priorityCount
        ensures ActivationRow(f, k, v, q, cp.maxWaitOfWorker(v), p) && ActivationRow(f, k, v, q, WaitUpper(cp, v, q), p)
      {
        ActivationHolds(f, k, v, q, cp.maxWaitOfWorker(v), p);
        ActivationHolds(f, k, v, q, WaitUpper(cp, v, q), p);
      }
    }
    var keys := Range(1, cp.priorityCount + 1);
    forall v | v in cp.workersByFlow(f) ensures ChosenUpperOf(cp, f, k, p)(v) == 0.0 {
      forall q | q in keys ensures ChosenUpper(cp, f, k, v, p)(q) == 0.0 {
        assert p(ComponentPriority(f, k, v, q)) == 0.0;
      }
      SumZero(keys, ChosenUpper(cp, f, k, v, p));
    }
    SumZero(cp.workersByFlow(f), ChosenUpperOf(cp, f, k, p));
    assert InactiveRow(cp, f, k, p);
  }

  /**
   A-priori bounds never cut off a real placement: wherever execution times are physical and utilization is
   within the limit, the bin-rounded waits satisfy all rows of the queues and of the components, with every
   bound per worker, priority, bin and flow.
   */
  lemma BoundsKeepRealPlacements(cp: ComputeProblem, pr: Profiles, cuts: FlowId -> Placement, e: real,
                                 bins: (WorkerId, int) -> int, p: Point)
    requires Prepared(cp, pr) && GeometricGrid(cp.binLimits, cp.utilizationLimit, e)
    requires forall f, w :: f in cp.flows && w in cp.workersByFlow(f) ==> w in cp.workers
    requires forall f :: f in cp.flows ==> Distinct(cp.workersByFlow(f))
    requires forall w :: w in cp.workers ==> RealWorker(cp, pr, cuts, w, p)
    requires forall w, r :: w in cp.workers && 1 <= r <= cp.priorityCount ==> RoundedQueue(cp, w, r, bins(w, r), p)
    requires forall f, k :: f in cp.flows && 1 <= k <= cp.maxComponents ==>
               IdleComponent(cp, f, k, p) || exists w, r :: RoundedComponent(cp, f, k, w, r, p)
    ensures forall w, r :: w in cp.workers && 1 <= r <= cp.priorityCount ==>
              QueueRows(cp, w, r, p) && CompactQueueRows(cp, w, r, p)
    ensures forall f, k :: f in cp.flows && 1 <= k <= cp.maxComponents ==> ComponentWaitRows(cp, f, k, p)
  {
    hide Prepared, RealWorker, RoundedQueue, IdleComponent, RoundedComponent, GeometricGrid, QueueRows, CompactQueueRows;
    hide ComponentWaitRows, WaitUpper, Distinct;
    forall w, r | w in cp.workers && 1 <= r <= cp.priorityCount
      ensures QueueRows(cp, w, r, p) && CompactQueueRows(cp, w, r, p)
      ensures 0.0 <= p(QueueWait(w, r)) <= WaitUpper(cp, w, r) <= cp.maxWaitOfWorker(w)
    {
      RoundedQueueFeasible(cp, pr, cuts, e, w, r, bins(w, r), p);
      WaitWithinUpper(cp, pr, cuts, e, w, r, bins(w, r), p);
    }
    forall f, k | f in cp.flows && 1 <= k <= cp.maxComponents ensures ComponentWaitRows(cp, f, k, p) {
      assert WaitsFit(cp, f, p);
      if IdleComponent(cp, f, k, p) {
        IdleComponentFeasible(cp, f, k, p);
      } else {
        var w, r :| RoundedComponent(cp, f, k, w, r, p);
        RoundedComponentFeasible(cp, pr, f, k, w, r, p);
      }
    }
  }

  lemma WaitWithinUpper(cp: ComputeProblem, pr: Profiles, cuts: FlowId -> Placement, e: real, w: WorkerId, r: int,
                        bin: int,
                        p: Point)
    requires RealWorker(cp, pr, cuts, w, p) && 1 <= r <= cp.priorityCount
    requires GeometricGrid(cp.binLimits, cp.utilizationLimit, e) && RoundedQueue(cp, w, r, bin, p)
    ensures 0.0 <= p(QueueWait(w, r)) <= WaitUpper(cp, w, r) <= cp.maxWaitOfWorker(w)
  {
    hide RealWorker, RoundedQueue, GeometricGrid;
    QueueWaitFits(cp, pr, cuts, e, w, r, bin, p);
    LimitsSensible(cp, pr, cuts, w, p);
    Scale(cp.maxWaitOfWorker(w), 1.0 - cp.utilizationLimit, 1.0);
  }
}
