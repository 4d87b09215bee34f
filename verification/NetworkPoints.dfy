/**
 The network rows cut off no placement whose workers can send what it makes them send: the other variables of the point
 can stay as they are, and every used cut gets its processor-sharing response up to the relative error.
 */
module NetworkPoints {
  import opened Lp
  import opened Sums
  import opened ProcessorSharing
  import opened BinLimits
  import opened Structure
  import opened NetworkBounds
  import opened NetworkMeaning
  import N = NetworkQueue
  import T = Transmission

  // ----- the point

  /** A bin of the grid that holds the load of the worker. */
  ghost predicate HoldsLoad(n: Network, w: WorkerId, k: nat)
  {
    k + 1 < |n.problem.binLimits| && n.problem.binLimits[k] <= SentLoad(n, w) <= n.problem.binLimits[k + 1]
  }

  ghost function BinOf(n: Network, w: WorkerId): nat
  {
    if exists k: nat :: HoldsLoad(n, w, k) then var k: nat :| HoldsLoad(n, w, k); k else 0
  }

  /** time / (1 - limit), with the upper end of the bin. */
  ghost function RoundedResponse(n: Network, f: FlowId, cut: int, w: WorkerId): real
  {
    if N.UsableLimits(n.problem.binLimits) && BinOf(n, w) + 1 < |n.problem.binLimits|
    then Multipliers(n.problem.binLimits)[BinOf(n, w)] * SentTime(n, f, cut, w) else 0.0
  }

  predicate IsQueueVariable(x: Var)
  {
    x.NetworkUtilization? || x.NetworkBinSelected? || x.SourceResponse? || x.TransmissionResponse?
  }

  /** The value of a queue variable. */
  ghost function QueueValue(n: Network, x: Var): real
  {
    match x
    case NetworkUtilization(w) => SentLoad(n, w)
    case NetworkBinSelected(w, i) => Indicator(i == BinOf(n, w) + 1)
    case SourceResponse(f, cut, w) => RoundedResponse(n, f, cut, w)
    case TransmissionResponse(f, cut) =>
      if 1 <= cut < n.placementOf(f).last then RoundedResponse(n, f, cut, n.placementOf(f).workerOf(cut)) else 0.0
    case _ => 0.0
  }

  ghost function QueuePoint(n: Network, p: Point): Point
  {
    x => if IsQueueVariable(x) then QueueValue(n, x) else p(x)
  }

  ghost predicate SameElsewhere(p: Point, q: Point)
  {
    forall x :: !IsQueueVariable(x) ==> p(x) == q(x)
  }

  /** The queue variables have the values of the placements, and the others are as in p. */
  ghost predicate Completed(n: Network, p: Point, q: Point)
  {
    SameElsewhere(p, q) && forall x :: IsQueueVariable(x) ==> q(x) == QueueValue(n, x)
  }

  lemma QueuesShown(n: Network, p: Point, q: Point)
    requires Completed(n, p, q)
    ensures forall w :: q(NetworkUtilization(w)) == SentLoad(n, w)
    ensures forall w, i :: q(NetworkBinSelected(w, i)) == Indicator(i == BinOf(n, w) + 1)
    ensures forall f, cut, w :: q(SourceResponse(f, cut, w)) == RoundedResponse(n, f, cut, w)
    ensures forall f, cut ::
              q(TransmissionResponse(f, cut))
              == if 1 <= cut < n.placementOf(f).last then RoundedResponse(n, f, cut, n.placementOf(f).workerOf(cut)) else 0.0
  {
    hide SentLoad, BinOf, RoundedResponse;
  }

  lemma QueuePointCompleted(n: Network, p: Point)
    ensures Completed(n, p, QueuePoint(n, p))
  {
    hide SentLoad, BinOf, RoundedResponse;
  }

  // ----- what both points share

  lemma SameOffered(problem: N.NetworkProblem, w: WorkerId, p: Point, q: Point)
    requires SameElsewhere(p, q)
    ensures N.OfferedLoad(problem, w)(p) == N.OfferedLoad(problem, w)(q)
  {
    hide N.OfferedLoad, SameElsewhere;
    OfferedIs(problem, w, p);
    OfferedIs(problem, w, q);
    forall f | f in problem.flows ensures FlowLoad(problem, w, p)(f) == FlowLoad(problem, w, q)(f) {
      forall v | v in problem.modelsByFlow(f) ensures VariantLoad(problem, f, w, p)(v) == VariantLoad(problem, f, w, q)(v) {
        SameVariantLoad(problem, f, v, w, p, q);
      }
      SumCongruent(problem.modelsByFlow(f), VariantLoad(problem, f, w, p), VariantLoad(problem, f, w, q));
    }
    SumCongruent(problem.flows, FlowLoad(problem, w, p), FlowLoad(problem, w, q));
  }

  lemma SameVariantLoad(problem: N.NetworkProblem, f: FlowId, v: ModelVariantId, w: WorkerId, p: Point, q: Point)
    requires SameElsewhere(p, q)
    ensures VariantLoad(problem, f, w, p)(v) == VariantLoad(problem, f, w, q)(v)
  {
    forall cut ensures CutLoad(problem, f, v, w, p)(cut) == CutLoad(problem, f, v, w, q)(cut) {
      assert !IsQueueVariable(TransmissionTime(f, v, cut, w));
    }
    SumCongruent(Range(1, problem.maxComponents), CutLoad(problem, f, v, w, p), CutLoad(problem, f, v, w, q));
  }

  lemma SameNominal(problem: N.NetworkProblem, f: FlowId, cut: int, w: WorkerId, p: Point, q: Point)
    requires SameElsewhere(p, q)
    ensures N.NominalTime(problem, f, cut, w)(p) == N.NominalTime(problem, f, cut, w)(q)
  {
    forall v ensures TimeOfVariant(f, cut, w, p)(v) == TimeOfVariant(f, cut, w, q)(v) {
      assert !IsQueueVariable(TransmissionTime(f, v, cut, w));
    }
    var models := problem.modelsByFlow(f);
    SumCongruent(models, TimeOfVariant(f, cut, w, p), (v: ModelVariantId) => p(TransmissionTime(f, v, cut, w)));
    SumCongruent(models, TimeOfVariant(f, cut, w, q), (v: ModelVariantId) => q(TransmissionTime(f, v, cut, w)));
    SumCongruent(models, TimeOfVariant(f, cut, w, p), TimeOfVariant(f, cut, w, q));
  }

  // ----- the rows of a worker

  /** The point encodes the placements and has their real transmission times. */
  ghost predicate RealAt(n: Network, e: real, p: Point)
  {
    WellBuilt(n, e) && AllPlaced(n, p) && AllTimesAre(n, p)
  }

  lemma RealTimes(n: Network, e: real, p: Point)
    requires RealAt(n, e, p)
    ensures AllTimesAtLeast(n, p)
    ensures forall w :: N.OfferedLoad(n.problem, w)(p) == SentLoad(n, w)
  {
    hide WellBuilt, FlowPlaced, SendingTime, N.OfferedLoad, SentLoad;
    forall w ensures N.OfferedLoad(n.problem, w)(p) == SentLoad(n, w) { UtilizationIsSent(n, e, w, p); }
  }

  lemma SentNotNegative(n: Network, e: real, w: WorkerId, p: Point)
    requires RealAt(n, e, p)
    ensures SentLoad(n, w) >= 0.0
  {
    hide FlowPlaced, SendingTime, TimesAre, GeometricGrid, FlowMatches;
    var keys := Range(1, n.problem.maxComponents);
    forall f | f in n.problem.flows ensures FlowSent(n, w)(f) >= 0.0 {
      var v := n.placementOf(f).variant;
      ModelsOf(n, e, f, p);
      if w in n.problem.workersByFlow(f) {
        forall cut | cut in keys ensures SendingTime(n, f, v, w)(cut) >= 0.0 { SendingNotNegative(n, e, f, v, cut, w, p); }
        SumNonNegative(keys, SendingTime(n, f, v, w));
        Scale(n.problem.arrivalRate(f, v), 0.0, SumOver(keys, SendingTime(n, f, v, w)));
      } else {
        NothingSent(n, e, f, w, p);
      }
    }
    SumNonNegative(n.problem.flows, FlowSent(n, w));
  }

  lemma HasBin(n: Network, e: real, w: WorkerId, p: Point)
    requires RealAt(n, e, p) && SentLoad(n, w) <= n.problem.utilizationLimit
    ensures HoldsLoad(n, w, BinOf(n, w))
  {
    hide AllPlaced, AllTimesAre, SentLoad, FlowMatches;
    SentNotNegative(n, e, w, p);
    var i := BinExists(n.problem.binLimits, n.problem.utilizationLimit, e, SentLoad(n, w));
    assert HoldsLoad(n, w, i - 1);
  }

  lemma SelectedAt(n: Network, w: WorkerId, p: Point, q: Point)
    requires Completed(n, p, q)
    requires N.UsableLimits(n.problem.binLimits) && BinOf(n, w) + 1 < |n.problem.binLimits|
    ensures N.OneHot(Values(N.BinVars(n.problem, w), q), BinOf(n, w))
  {
    hide BinOf;
  }

  lemma UplinkHolds(n: Network, e: real, w: WorkerId, p: Point, q: Point)
    requires Completed(n, p, q)
    requires RealAt(n, e, p) && SentLoad(n, w) <= n.problem.utilizationLimit
    ensures UplinkRows(n, w, q)
  {
    hide RealAt, SentLoad, BinOf, N.OfferedLoad, GeometricGrid, FlowMatches, RoundedResponse, N.OneHot;
    var limits, k := n.problem.binLimits, BinOf(n, w);
    QueuesShown(n, p, q);
    LimitsUsable(n, e, p);
    HasBin(n, e, w, p);
    RealTimes(n, e, p);
    SameOffered(n.problem, w, p, q);
    SelectedAt(n, w, p, q);
    var g := Values(N.BinVars(n.problem, w), q);
    N.OneHotCost(limits[..|g|], g, k, |g|);
    N.OneHotCost(limits[1..], g, k, |g|);
  }

  lemma LimitsUsable(n: Network, e: real, p: Point)
    requires RealAt(n, e, p)
    ensures N.UsableLimits(n.problem.binLimits)
  {
    hide AllPlaced, AllTimesAre, FlowMatches, GeometricGrid;
  }

  // ----- the rows of a cut

  lemma GridIncreases(n: Network, e: real)
    requires WellBuilt(n, e)
    ensures Increasing(Multipliers(n.problem.binLimits))
  {
    hide FlowMatches, GeometricGrid;
    var limits := n.problem.binLimits;
    forall i, j | 0 <= i <= j < |limits| ensures limits[i] <= limits[j] < 1.0 {
      GridOrdered(limits, n.problem.utilizationLimit, e, i, j);
    }
    MultipliersIncrease(limits);
  }

  lemma SourceHolds(n: Network, e: real, f: FlowId, cut: int, w: WorkerId, p: Point, q: Point)
    requires Completed(n, p, q)
    requires RealAt(n, e, p) && f in n.problem.flows && 1 <= cut < n.problem.maxComponents
    requires w in n.problem.workersByFlow(f) && SentLoad(n, w) <= n.problem.utilizationLimit
    requires N.UsableLimits(n.problem.binLimits)
    ensures N.SourceRows(n.problem, f, cut, w, q)
  {
    hide SentLoad, BinOf, GeometricGrid, FlowPlaced, TimesAre, TimesAtLeast, N.NominalTime, ProjectedRows, N.OneHot;
    hide Multipliers, SentTime, IsNominalUpper, Increasing;
    var k := BinOf(n, w);
    QueuesShown(n, p, q);
    HasBin(n, e, w, p);
    RealTimes(n, e, p);
    NominalAtLeast(n, e, f, cut, w, p);
    SameNominal(n.problem, f, cut, w, p, q);
    SelectedAt(n, w, p, q);
    GridIncreases(n, e);
    SentWithinUpper(n, e, f, cut, w, p);
    N.OneHotCollapse(q(SourceResponse(f, cut, w)), SentTime(n, f, cut, w), n.problem.nominalUpper(f, w),
                     Multipliers(n.problem.binLimits), Values(N.BinVars(n.problem, w), q), k);
  }

  lemma SentWithinUpper(n: Network, e: real, f: FlowId, cut: int, w: WorkerId, p: Point)
    requires WellBuilt(n, e) && f in n.problem.flows && FlowPlaced(n, f, p) && 1 <= cut < n.problem.maxComponents
    requires w in n.problem.workersByFlow(f)
    ensures 0.0 <= SentTime(n, f, cut, w) <= n.problem.nominalUpper(f, w)
  {
    hide T.PhysicalTime, Placed, IsNominalUpper, GeometricGrid;
    assert FlowMatches(n, f);
    PhysicalWithinUpper(n.flowOf(f), n.links, p, n.placementOf(f), cut, w, n.problem.nominalUpper(f, w));
  }

  /** Away from the worker of the cut nothing is sent. */
  lemma OnlyOwnWorker(n: Network, f: FlowId, cut: int, w: WorkerId)
    ensures cut >= n.placementOf(f).last || w != n.placementOf(f).workerOf(cut) ==> SentTime(n, f, cut, w) == 0.0
  {
    hide T.CutVolume, T.Bandwidth;
  }

  lemma TotalAt(n: Network, e: real, f: FlowId, cut: int, p: Point, q: Point)
    requires Completed(n, p, q)
    requires RealAt(n, e, p) && f in n.problem.flows && 1 <= cut < n.problem.maxComponents
    ensures N.TotalResponse(n.problem, f, cut)(q) == q(TransmissionResponse(f, cut))
  {
    hide SentTime, BinOf, WellBuilt, FlowPlaced, TimesAre, N.TotalResponse;
    var workers := n.problem.workersByFlow(f);
    QueuesShown(n, p, q);
    ModelsOf(n, e, f, p);
    TotalIs(n.problem, f, cut, q);
    forall w | w in workers && (cut >= n.placementOf(f).last || w != n.placementOf(f).workerOf(cut))
      ensures ResponseOf(f, cut, q)(w) == 0.0
    {
      OnlyOwnWorker(n, f, cut, w);
    }
    if cut < n.placementOf(f).last {
      SumSingle(workers, ResponseOf(f, cut, q), n.placementOf(f).workerOf(cut));
    } else {
      SumZero(workers, ResponseOf(f, cut, q));
    }
  }

  ghost predicate AllUplinksFit(n: Network)
  {
    forall w :: w in n.problem.workers ==> SentLoad(n, w) <= n.problem.utilizationLimit
  }

  lemma CutHolds(n: Network, e: real, f: FlowId, cut: int, p: Point, q: Point)
    requires Completed(n, p, q)
    requires RealAt(n, e, p) && AllUplinksFit(n) && f in n.problem.flows && 1 <= cut < n.problem.maxComponents
    requires N.UsableLimits(n.problem.binLimits)
    ensures N.CutRows(n.problem, f, cut, q)
    ensures ResponsesTyped(n, f, cut, q)
  {
    hide SentLoad, GeometricGrid, AllPlaced, AllTimesAre, N.SourceRows, N.TotalResponse, IsNominalUpper, QueueValue;
    TotalAt(n, e, f, cut, p, q);
    assert FlowMatches(n, f);
    forall w | w in n.problem.workersByFlow(f)
      ensures N.SourceRows(n.problem, f, cut, w, q)
      ensures q(SourceResponse(f, cut, w)) >= 0.0
    {
      SourceHolds(n, e, f, cut, w, p, q);
      ResponseTyped(n, e, f, cut, w, p, q);
    }
  }

  lemma ResponseTyped(n: Network, e: real, f: FlowId, cut: int, w: WorkerId, p: Point, q: Point)
    requires Completed(n, p, q)
    requires RealAt(n, e, p) && f in n.problem.flows && 1 <= cut < n.problem.maxComponents
    requires w in n.problem.workersByFlow(f) && SentLoad(n, w) <= n.problem.utilizationLimit
    ensures q(SourceResponse(f, cut, w)) >= 0.0
  {
    hide SentLoad, BinOf, FlowPlaced, AllTimesAre, SentTime, FlowMatches, GeometricGrid;
    SentWithinUpper(n, e, f, cut, w, p);
    HasBin(n, e, w, p);
    var limits, k := n.problem.binLimits, BinOf(n, w);
    GridOrdered(limits, n.problem.utilizationLimit, e, k + 1, k + 1);
    PositiveReciprocal(1.0 - limits[k + 1]);
    Scale(Multipliers(limits)[k], 0.0, SentTime(n, f, cut, w));
  }

  lemma PositiveReciprocal(x: real)
    requires x > 0.0
    ensures 1.0 / x > 0.0
  {
    var y := 1.0 / x;
    assert y * x == 1.0;
    if y <= 0.0 { Scale(x, y, 0.0); }
  }

  // ----- the theorem

  /** All network rows, with binary bins and no negative response. */
  ghost predicate NetworkAdmitted(n: Network, q: Point)
    requires N.UsableLimits(n.problem.binLimits)
  {
    && N.NetworkQueueRows(n.problem, q) && (forall w :: w in n.problem.workers ==> UplinkRows(n, w, q))
    && forall f, cut :: f in n.problem.flows && 1 <= cut < n.problem.maxComponents ==> ResponsesTyped(n, f, cut, q)
  }

  /** A used cut responds within the factor 1 + e of processor sharing. */
  ghost predicate RespondsTightly(n: Network, e: real, f: FlowId, cut: int, q: Point)
  {
    var w := n.placementOf(f).workerOf(cut);
    RespondsWithin(q(TransmissionResponse(f, cut)), SentTime(n, f, cut, w), SentLoad(n, w), e)
  }

  lemma TightAt(n: Network, e: real, f: FlowId, cut: int, p: Point, q: Point)
    requires Completed(n, p, q)
    requires RealAt(n, e, p) && AllUplinksFit(n) && f in n.problem.flows && 1 <= cut < n.placementOf(f).last
    ensures RespondsTightly(n, e, f, cut, q)
  {
    hide SentLoad, BinOf, FlowPlaced, AllTimesAre, SentTime, IsNominalUpper, GeometricGrid;
    var w := n.placementOf(f).workerOf(cut);
    assert FlowMatches(n, f);
    ModelsOf(n, e, f, p);
    CutInRange(n, f, cut, p);
    SentWithinUpper(n, e, f, cut, w, p);
    HasBin(n, e, w, p);
    var limits, k, load := n.problem.binLimits, BinOf(n, w), SentLoad(n, w);
    BinStepOf(n, e, k);
    GridOrdered(limits, n.problem.utilizationLimit, e, k + 1, k + 1);
    PositiveReciprocal(1.0 - limits[k + 1]);
    N.Reciprocal(1.0 - limits[k + 1]);
    N.BinIdle(limits[k], limits[k + 1], load, e);
    N.LeastBetween(Multipliers(limits)[k], SentTime(n, f, cut, w), 1.0 - load, 1.0 - limits[k + 1], e);
  }

  lemma BinStepOf(n: Network, e: real, k: nat)
    requires WellBuilt(n, e) && k + 1 < |n.problem.binLimits|
    ensures BinStep(n.problem.binLimits[k], n.problem.binLimits[k + 1], e)
  {
    hide FlowMatches;
    assert BinStep(n.problem.binLimits[(k + 1) - 1], n.problem.binLimits[k + 1], e);
  }

  /** The rows hold at the completed point, with tight responses, if the uplinks of all workers fit. */
  lemma FittingHolds(n: Network, e: real, p: Point, q: Point)
    requires RealAt(n, e, p) && AllUplinksFit(n) && N.UsableLimits(n.problem.binLimits) && Completed(n, p, q)
    ensures NetworkAdmitted(n, q)
    ensures forall f, cut :: f in n.problem.flows && 1 <= cut < n.placementOf(f).last ==> RespondsTightly(n, e, f, cut, q)
  {
    hide RealAt, SentLoad, N.CutRows, RespondsTightly, UplinkRows, ResponsesTyped, Completed;
    forall w | w in n.problem.workers ensures UplinkRows(n, w, q) && N.WorkerRows(n.problem, w, q) {
      UplinkHolds(n, e, w, p, q);
      UplinkIsRows(n, w, q);
    }
    forall f, cut | f in n.problem.flows && 1 <= cut < n.problem.maxComponents
      ensures N.CutRows(n.problem, f, cut, q) && ResponsesTyped(n, f, cut, q)
    {
      CutHolds(n, e, f, cut, p, q);
    }
    forall f, cut | f in n.problem.flows && 1 <= cut < n.placementOf(f).last ensures RespondsTightly(n, e, f, cut, q) {
      TightAt(n, e, f, cut, p, q);
    }
  }

  lemma UplinkIsRows(n: Network, w: WorkerId, q: Point)
    requires N.UsableLimits(n.problem.binLimits) && UplinkRows(n, w, q)
    ensures N.WorkerRows(n.problem, w, q)
  {
    hide N.WorkerRows;
  }

  /** At the real times, the network rows admit placements exactly if no worker sends more than the limit. */
  lemma NetworkAdmitsExactly(n: Network, e: real, p: Point)
    requires RealAt(n, e, p) && N.UsableLimits(n.problem.binLimits)
    ensures (exists q :: SameElsewhere(p, q) && NetworkAdmitted(n, q)) <==> AllUplinksFit(n)
  {
    hide RealAt, SentLoad, NetworkAdmitted, SameElsewhere;
    if exists q :: SameElsewhere(p, q) && NetworkAdmitted(n, q) {
      var q :| SameElsewhere(p, q) && NetworkAdmitted(n, q);
      RealTimes(n, e, p);
      forall w | w in n.problem.workers ensures SentLoad(n, w) <= n.problem.utilizationLimit {
        SameOffered(n.problem, w, p, q);
        AdmittedLoad(n, w, q);
      }
    }
    if AllUplinksFit(n) {
      QueuePointCompleted(n, p);
      FittingHolds(n, e, p, QueuePoint(n, p));
    }
  }

  lemma AdmittedLoad(n: Network, w: WorkerId, q: Point)
    requires N.UsableLimits(n.problem.binLimits) && NetworkAdmitted(n, q) && w in n.problem.workers
    ensures N.OfferedLoad(n.problem, w)(q) <= n.problem.utilizationLimit
  {
    hide N.OfferedLoad, N.NetworkQueueRows, ResponsesTyped;
    assert UplinkRows(n, w, q);
  }
}
