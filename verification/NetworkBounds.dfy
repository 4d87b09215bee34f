/**
 The bounds that add_compact_network_variables and the profiled largest cut give the transmission rows: no
 placement exceeds them, so physical transmission times satisfy every row.
 */
module NetworkBounds {
  import opened Lp
  import opened Sums
  import opened BinLimits
  import opened ModelTopology
  import opened Assignment
  import opened Structure
  import opened TensorCrossing
  import M = MaxCut
  import N = NetworkQueue
  import T = Transmission

  // ----- the computed bound of one source

  /** The longest time that the profiled largest cut of some variant takes on some link of the source. */
  ghost predicate IsNominalUpper(fp: FlowProblem, d: T.LinkData, s: WorkerId, upper: real)
  {
    && (forall v, t :: v in fp.variants && t in T.Destinations(fp, d, s) ==> CutTime(d, v, s, t) <= upper)
    && (if fp.variants == [] || T.Destinations(fp, d, s) == [] then upper == 0.0
        else exists v, t :: v in fp.variants && t in T.Destinations(fp, d, s) && upper == CutTime(d, v, s, t))
  }

  function CutTime(d: T.LinkData, v: ModelVariantId, s: WorkerId, t: WorkerId): real
  {
    d.cutUpper(v) / T.Bandwidth(d, s, t)
  }

  /** What the maximum over the pairs looked at so far knows. */
  ghost predicate LargestSoFar(d: T.LinkData, s: WorkerId, pairs: set<(ModelVariantId, WorkerId)>, best: Option<real>)
  {
    && (best.None? <==> pairs == {})
    && (best.Some? ==>
          && (forall v, t :: (v, t) in pairs ==> CutTime(d, v, s, t) <= best.value)
          && exists v, t :: (v, t) in pairs && CutTime(d, v, s, t) == best.value)
  }

  lemma OneMorePair(d: T.LinkData, s: WorkerId, pairs: set<(ModelVariantId, WorkerId)>, best: Option<real>,
                    v: ModelVariantId, t: WorkerId, best': Option<real>)
    requires LargestSoFar(d, s, pairs, best)
    requires best' == if best.Some? && best.value >= CutTime(d, v, s, t) then best else Some(CutTime(d, v, s, t))
    ensures LargestSoFar(d, s, pairs + {(v, t)}, best')
  {
    hide CutTime;
    assert (v, t) in pairs + {(v, t)};
    if best.Some? {
      var u, r :| (u, r) in pairs && CutTime(d, u, s, r) == best.value;
      assert (u, r) in pairs + {(v, t)};
    }
  }

  function Pairs(variants: seq<ModelVariantId>, targets: seq<WorkerId>): set<(ModelVariantId, WorkerId)>
  {
    set v, t | v in variants && t in targets :: (v, t)
  }

  /** The generator over variants and destinations, for one source. */
  method NominalUpper(fp: FlowProblem, d: T.LinkData, s: WorkerId) returns (upper: real)
    ensures IsNominalUpper(fp, d, s, upper)
  {
    hide CutTime, T.Destinations;
    var targets := T.Destinations(fp, d, s);
    var best: Option<real> := None;
    assert LargestSoFar(d, s, Pairs(fp.variants[..0], targets), best);
    for i := 0 to |fp.variants|
      invariant LargestSoFar(d, s, Pairs(fp.variants[..i], targets), best)
    {
      hide LargestSoFar;
      var v := fp.variants[i];
      ghost var done := Pairs(fp.variants[..i], targets);
      assert done + Pairs([v], targets[..0]) == done;
      for j := 0 to |targets|
        invariant LargestSoFar(d, s, done + Pairs([v], targets[..j]), best)
      {
        var time := CutTime(d, v, s, targets[j]);
        ghost var before := best;
        best := if best.Some? && best.value >= time then best else Some(time);
        OneMorePair(d, s, done + Pairs([v], targets[..j]), before, v, targets[j], best);
        NextTarget(done, v, targets, j);
      }
      assert targets[..|targets|] == targets;
      NextVariant(fp.variants, targets, i);
    }
    assert fp.variants[..|fp.variants|] == fp.variants;
    upper := if best.Some? then best.value else 0.0;
    PairsEmpty(fp.variants, targets);
  }

  lemma NextTarget(done: set<(ModelVariantId, WorkerId)>, v: ModelVariantId, targets: seq<WorkerId>, j: nat)
    requires j < |targets|
    ensures done + Pairs([v], targets[..j + 1]) == done + Pairs([v], targets[..j]) + {(v, targets[j])}
  {
    assert targets[..j + 1] == targets[..j] + [targets[j]];
  }

  lemma NextVariant(variants: seq<ModelVariantId>, targets: seq<WorkerId>, i: nat)
    requires i < |variants|
    ensures Pairs(variants[..i + 1], targets) == Pairs(variants[..i], targets) + Pairs([variants[i]], targets)
  {
    assert variants[..i + 1] == variants[..i] + [variants[i]];
  }

  lemma PairsEmpty(variants: seq<ModelVariantId>, targets: seq<WorkerId>)
    ensures Pairs(variants, targets) == {} <==> variants == [] || targets == []
  {
    if variants != [] && targets != [] {
      assert (variants[0], targets[0]) in Pairs(variants, targets);
    }
  }

  /** `add_compact_network_variables` for one flow: the bound of every worker. */
  method NominalUppers(fp: FlowProblem, d: T.LinkData) returns (upper: map<WorkerId, real>)
    ensures upper.Keys == (set w | w in fp.workers)
    ensures forall w :: w in upper ==> IsNominalUpper(fp, d, w, upper[w])
  {
    hide IsNominalUpper;
    upper := map[];
    for i := 0 to |fp.workers|
      invariant upper.Keys == (set w | w in fp.workers[..i])
      invariant forall w :: w in upper ==> IsNominalUpper(fp, d, w, upper[w])
    {
      var bound := NominalUpper(fp, d, fp.workers[i]);
      upper := upper[fp.workers[i] := bound];
      assert fp.workers[..i + 1] == fp.workers[..i] + [fp.workers[i]];
    }
    assert fp.workers[..|fp.workers|] == fp.workers;
  }

  // ----- the profiled largest cut

  function SizesOf(d: T.LinkData, v: ModelVariantId): TensorKey -> real
  {
    x => d.size(v, x)
  }

  function ComputedCut(tensors: seq<TensorKey>, size: TensorKey -> real, integerOutcome: M.SolverOutcome,
                       relaxedOutcome: M.SolverOutcome): real
  {
    if integerOutcome.Optimum? then integerOutcome.objective
    else if relaxedOutcome.Optimum? then relaxedOutcome.objective else SumOver(tensors, size)
  }

  ghost predicate ComputedFrom(fp: FlowProblem, d: T.LinkData, v: ModelVariantId, integerOutcome: M.SolverOutcome,
                               relaxedOutcome: M.SolverOutcome)
  {
    var t, tensors, size := fp.topologyOf(v), d.tensorsOf(v), SizesOf(d, v);
    && M.TrueOutcome(t, tensors, size, true, integerOutcome) && M.TrueOutcome(t, tensors, size, false, relaxedOutcome)
    && d.cutUpper(v) == ComputedCut(tensors, size, integerOutcome, relaxedOutcome)
  }

  /** The bound of the variant is what the profiler computed, whichever way its solver calls ended. */
  ghost predicate Profiled(fp: FlowProblem, d: T.LinkData, v: ModelVariantId)
  {
    exists integerOutcome, relaxedOutcome :: ComputedFrom(fp, d, v, integerOutcome, relaxedOutcome)
  }

  /** Everything that the problem builder and the profiles guarantee, at a point whose structural rows hold. */
  ghost predicate Placed(fp: FlowProblem, d: T.LinkData, p: Point, pl: Placement, cut: int)
  {
    && WellFormed(fp) && Valid(fp, pl) && Encodes(fp, p, pl) && AllCrossingRows(fp, p) && T.Sensible(fp, d)
    && (forall v :: v in fp.variants ==> Profiled(fp, d, v))
    && 1 <= cut < fp.maxComponents && TransitionRows(fp, d.bandwidth.Keys, cut, p)
  }

  /** No cut of any placement exceeds the profiled bound. */
  lemma CutWithinProfile(fp: FlowProblem, d: T.LinkData, p: Point, pl: Placement, v: ModelVariantId, cut: int)
    requires Placed(fp, d, p, pl, cut) && v in fp.variants
    ensures T.CutVolume(fp, d, pl, v, cut) <= d.cutUpper(v)
  {
    hide Encodes, AllCrossingRows, TransitionRows, Valid, WellFormed, T.CutVolume, M.TrueOutcome, T.TensorsListed, ComputedCut;
    T.DeltaIsVolume(fp, d, p, pl, v, cut);
    if v == pl.variant {
      var integerOutcome, relaxedOutcome :| ComputedFrom(fp, d, v, integerOutcome, relaxedOutcome);
      ComputedCutIs(d, v, integerOutcome, relaxedOutcome);
      M.ProfiledMaximumCovers(fp, d, pl, v, cut, SizesOf(d, v), integerOutcome, relaxedOutcome, d.cutUpper(v));
    }
  }

  lemma ComputedCutIs(d: T.LinkData, v: ModelVariantId, integerOutcome: M.SolverOutcome,
                      relaxedOutcome: M.SolverOutcome)
    ensures ComputedCut(d.tensorsOf(v), SizesOf(d, v), integerOutcome, relaxedOutcome)
         == if integerOutcome.Optimum? then integerOutcome.objective
            else if relaxedOutcome.Optimum? then relaxedOutcome.objective else SumOver(d.tensorsOf(v), SizesOf(d, v))
  {
  }

  lemma PlacedIsAdmitted(fp: FlowProblem, d: T.LinkData, p: Point, pl: Placement, v: ModelVariantId, cut: int)
    requires Placed(fp, d, p, pl, cut) && v in fp.variants
    ensures T.Admitted(fp, d, p, pl, v, cut)
  {
    hide Encodes, AllCrossingRows, TransitionRows, Valid, WellFormed, T.CutVolume, Profiled, T.Sensible, TransitionIsProduct;
    CutWithinProfile(fp, d, p, pl, v, cut);
    TransitionsExact(fp, d.bandwidth.Keys, cut, pl, p);
  }

  // ----- physical times satisfy every row

  ghost predicate AllPhysical(fp: FlowProblem, d: T.LinkData, pl: Placement, cut: int, p: Point)
  {
    forall v :: v in fp.variants ==> T.TimesArePhysical(fp, d, pl, v, cut, p)
  }

  lemma QuotientMonotone(a: real, b: real, c: real)
    requires c > 0.0 && a <= b
    ensures a / c <= b / c
  {
    T.QuotientOrder(b / c, a, c);
    T.QuotientOrder(b / c, b, c);
  }

  lemma PhysicalWithinUpper(fp: FlowProblem, d: T.LinkData, p: Point, pl: Placement, cut: int, s: WorkerId, upper: real)
    requires Placed(fp, d, p, pl, cut) && s in fp.workers && IsNominalUpper(fp, d, s, upper)
    ensures 0.0 <= T.PhysicalTime(fp, d, pl, pl.variant, cut, s) <= upper
    ensures forall v :: v in fp.variants && v != pl.variant ==> T.PhysicalTime(fp, d, pl, v, cut, s) == 0.0
  {
    hide Encodes, AllCrossingRows, TransitionRows, WellFormed, T.CutVolume, Profiled, T.Destinations, T.Bandwidth, Populated;
    hide IsNominalUpper, T.Sensible;
    forall v | v in fp.variants && v != pl.variant ensures T.PhysicalTime(fp, d, pl, v, cut, s) == 0.0 {
      T.DeltaIsVolume(fp, d, p, pl, v, cut);
      T.QuotientOrder(0.0, 0.0, T.Bandwidth(d, s, pl.workerOf(cut + 1)));
      ZeroTime(T.Bandwidth(d, s, pl.workerOf(cut + 1)));
    }
    PlacedIsAdmitted(fp, d, p, pl, pl.variant, cut);
    T.PhysicalNonNegative(fp, d, p, pl, pl.variant, cut, s);
    if cut < pl.last && s == pl.workerOf(cut) {
      T.UsedLink(fp, d, p, pl, pl.variant, cut);
      CutWithinProfile(fp, d, p, pl, pl.variant, cut);
      QuotientMonotone(T.CutVolume(fp, d, pl, pl.variant, cut), d.cutUpper(pl.variant), T.Bandwidth(d, s, pl.workerOf(cut + 1)));
      assert CutTime(d, pl.variant, s, pl.workerOf(cut + 1)) <= upper by { CutTimeWithin(fp, d, s, upper, pl.variant, pl.workerOf(cut + 1)); }
    } else {
      UpperNotNegative(fp, d, s, upper);
    }
  }

  lemma ZeroTime(bandwidth: real)
    requires bandwidth > 0.0
    ensures 0.0 / bandwidth == 0.0
  {
    T.QuotientOrder(0.0, 0.0, bandwidth);
    var q := 0.0 / bandwidth;
    if q > 0.0 { ScaleStrict(bandwidth, 0.0, q); }
  }

  lemma CutTimeWithin(fp: FlowProblem, d: T.LinkData, s: WorkerId, upper: real, v: ModelVariantId, t: WorkerId)
    requires IsNominalUpper(fp, d, s, upper) && v in fp.variants && t in T.Destinations(fp, d, s)
    ensures CutTime(d, v, s, t) <= upper
  {
  }

  lemma UpperNotNegative(fp: FlowProblem, d: T.LinkData, s: WorkerId, upper: real)
    requires IsNominalUpper(fp, d, s, upper) && T.Sensible(fp, d)
    ensures upper >= 0.0
  {
    hide T.Destinations, T.Bandwidth;
    if fp.variants != [] && T.Destinations(fp, d, s) != [] {
      var v, t :| v in fp.variants && t in T.Destinations(fp, d, s) && upper == CutTime(d, v, s, t);
      T.QuotientOrder(0.0, d.cutUpper(v), T.Bandwidth(d, s, t));
    }
  }

  function TimeOfVariant(flow: FlowId, cut: int, s: WorkerId, p: Point): ModelVariantId -> real
  {
    v => p(TransmissionTime(flow, v, cut, s))
  }

  /** The nominal time of a source is what the chosen variant really needs there, and it is within the computed bound. */
  lemma NominalIsPhysical(problem: N.NetworkProblem, fp: FlowProblem, d: T.LinkData, p: Point, pl: Placement, cut: int,
                          s: WorkerId, upper: real)
    requires Placed(fp, d, p, pl, cut) && AllPhysical(fp, d, pl, cut, p) && s in fp.workers
    requires problem.modelsByFlow(fp.flow) == fp.variants && IsNominalUpper(fp, d, s, upper)
    ensures N.NominalTime(problem, fp.flow, cut, s)(p) == T.PhysicalTime(fp, d, pl, pl.variant, cut, s)
    ensures 0.0 <= N.NominalTime(problem, fp.flow, cut, s)(p) <= upper
  {
    hide Encodes, AllCrossingRows, TransitionRows, T.PhysicalTime, Profiled, IsNominalUpper, T.Sensible, Populated;
    hide WellFormedTopology;
    PhysicalWithinUpper(fp, d, p, pl, cut, s, upper);
    forall v | v in fp.variants
      ensures TimeOfVariant(fp.flow, cut, s, p)(v) == T.PhysicalTime(fp, d, pl, v, cut, s)
    {
      assert T.TimesArePhysical(fp, d, pl, v, cut, p);
    }
    SumSingle(fp.variants, TimeOfVariant(fp.flow, cut, s, p), pl.variant);
    SumCongruent(fp.variants, TimeOfVariant(fp.flow, cut, s, p), (v: ModelVariantId) => p(TransmissionTime(fp.flow, v, cut, s)));
  }

  /** With the computed bounds, the transmission rows of all variants hold at the physical times. */
  lemma PhysicalTimesAdmitted(fp: FlowProblem, d: T.LinkData, p: Point, pl: Placement, cut: int)
    requires Placed(fp, d, p, pl, cut) && AllPhysical(fp, d, pl, cut, p)
    ensures forall v :: v in fp.variants ==> T.TransmissionRows(fp, d, v, cut, p)
  {
    hide Placed, T.TimesArePhysical, T.TransmissionRows, T.Admitted;
    forall v | v in fp.variants ensures T.TransmissionRows(fp, d, v, cut, p) {
      PlacedIsAdmitted(fp, d, p, pl, v, cut);
      T.TransmissionExact(fp, d, p, pl, v, cut);
    }
  }

  /**
   A physical transmission in its queue: with the bounds that the variables get, the rows admit exactly the
   responses from a least one on, and that is the processor-sharing response up to the factor 1 + e.
   */
  lemma PhysicalResponse(problem: N.NetworkProblem, e: real, fp: FlowProblem, d: T.LinkData, p: Point, pl: Placement,
                         cut: int, s: WorkerId) returns (least: real)
    requires 0.0 < e && 0.0 < problem.utilizationLimit < 1.0
    requires GeometricGrid(problem.binLimits, problem.utilizationLimit, e) && N.UsableLimits(problem.binLimits)
    requires N.WorkerRows(problem, s, p)
    requires forall i :: 1 <= i < |problem.binLimits| ==> IsBinary(p(NetworkBinSelected(s, i)))
    requires Placed(fp, d, p, pl, cut) && AllPhysical(fp, d, pl, cut, p) && s in fp.workers
    requires problem.modelsByFlow(fp.flow) == fp.variants && IsNominalUpper(fp, d, s, problem.nominalUpper(fp.flow, s))
    ensures N.SourceRows(problem, fp.flow, cut, s, p) <==> p(SourceResponse(fp.flow, cut, s)) >= least
    ensures var time, idle := T.PhysicalTime(fp, d, pl, pl.variant, cut, s), 1.0 - p(NetworkUtilization(s));
            idle > 0.0 && time <= least * idle <= (1.0 + e) * time
  {
    hide Placed, AllPhysical, T.PhysicalTime, N.NominalTime, N.SourceRows, N.WorkerRows, IsNominalUpper, GeometricGrid;
    NominalIsPhysical(problem, fp, d, p, pl, cut, s, problem.nominalUpper(fp.flow, s));
    least := N.ResponseWithinRelativeError(problem, e, fp.flow, cut, s, p);
  }
}
