/**
 The network rows against the placements themselves: the utilization of a worker is what the placed flows send from
 there, and a cut takes as long as under processor sharing with that utilization, up to the relative error of the bins.
 */
module NetworkMeaning {
  import opened Lp
  import opened Sums
  import opened ProcessorSharing
  import opened BinLimits
  import opened Assignment
  import opened Structure
  import opened TensorCrossing
  import opened NetworkBounds
  import N = NetworkQueue
  import T = Transmission

  /** The network problem, the flows with their data, and a placement of every flow. */
  datatype Network = Network(
    problem: N.NetworkProblem, flowOf: FlowId -> FlowProblem, links: T.LinkData, placementOf: FlowId -> Placement)

  ghost predicate FlowMatches(n: Network, f: FlowId)
  {
    var fp := n.flowOf(f);
    && fp.flow == f && fp.variants == n.problem.modelsByFlow(f) && fp.workers == n.problem.workersByFlow(f)
    && fp.maxComponents == n.problem.maxComponents
    && forall w :: w in fp.workers ==>
         w in n.problem.workers && IsNominalUpper(fp, n.links, w, n.problem.nominalUpper(f, w))
  }

  /** The problem as it is built, on the geometric grid. */
  ghost predicate WellBuilt(n: Network, e: real)
  {
    && 0.0 < e && 0.0 < n.problem.utilizationLimit < 1.0 && N.UsableLimits(n.problem.binLimits)
    && GeometricGrid(n.problem.binLimits, n.problem.utilizationLimit, e)
    && (forall f :: f in n.problem.flows ==> FlowMatches(n, f))
    && forall f, v :: n.problem.arrivalRate(f, v) >= 0.0
  }

  /** The point encodes the placements, and the structural rows hold. */
  ghost predicate FlowPlaced(n: Network, f: FlowId, p: Point)
  {
    && WellFormed(n.flowOf(f)) && Valid(n.flowOf(f), n.placementOf(f))
    && forall cut :: 1 <= cut < n.problem.maxComponents ==> Placed(n.flowOf(f), n.links, p, n.placementOf(f), cut)
  }

  ghost predicate AllPlaced(n: Network, p: Point)
  {
    forall f :: f in n.problem.flows ==> FlowPlaced(n, f, p)
  }

  // ----- what the placements send

  ghost function SendingTime(n: Network, f: FlowId, v: ModelVariantId, w: WorkerId): int -> real
  {
    cut => T.PhysicalTime(n.flowOf(f), n.links, n.placementOf(f), v, cut, w)
  }

  /** The rate of the chosen variant times the time of the cuts that its placement sends from the worker. */
  ghost function FlowSent(n: Network, w: WorkerId): FlowId -> real
  {
    f => n.problem.arrivalRate(f, n.placementOf(f).variant)
         * SumOver(Range(1, n.problem.maxComponents), SendingTime(n, f, n.placementOf(f).variant, w))
  }

  /** The utilization of the worker's uplink by the placed flows. */
  ghost function SentLoad(n: Network, w: WorkerId): real
  {
    SumOver(n.problem.flows, FlowSent(n, w))
  }

  predicate Indexes(n: Network, f: FlowId, v: ModelVariantId, cut: int, w: WorkerId)
  {
    v in n.problem.modelsByFlow(f) && 1 <= cut < n.problem.maxComponents && w in n.problem.workersByFlow(f)
  }

  ghost predicate TimesAtLeast(n: Network, f: FlowId, p: Point)
  {
    forall v, cut, w :: Indexes(n, f, v, cut, w) ==>
      p(TransmissionTime(f, v, cut, w)) >= SendingTime(n, f, v, w)(cut)
  }

  ghost predicate TimesAre(n: Network, f: FlowId, p: Point)
  {
    forall v, cut, w :: Indexes(n, f, v, cut, w) ==>
      p(TransmissionTime(f, v, cut, w)) == SendingTime(n, f, v, w)(cut)
  }

  /** The transmission rows make every time at least the real one. */
  lemma RowsBoundTimes(n: Network, e: real, f: FlowId, p: Point)
    requires WellBuilt(n, e) && f in n.problem.flows && FlowPlaced(n, f, p)
    requires forall v, cut :: v in n.problem.modelsByFlow(f) && 1 <= cut < n.problem.maxComponents ==>
               T.TransmissionRows(n.flowOf(f), n.links, v, cut, p)
    requires forall v, cut, w :: Indexes(n, f, v, cut, w) ==> p(TransmissionTime(f, v, cut, w)) >= 0.0
    ensures TimesAtLeast(n, f, p)
  {
    hide T.PhysicalTime, T.TransmissionRows, T.Admitted, Placed, IsNominalUpper, GeometricGrid;
    assert FlowMatches(n, f);
    forall v, cut, w | Indexes(n, f, v, cut, w)
      ensures p(TransmissionTime(f, v, cut, w)) >= SendingTime(n, f, v, w)(cut)
    {
      PlacedIsAdmitted(n.flowOf(f), n.links, p, n.placementOf(f), v, cut);
      T.TransmissionExact(n.flowOf(f), n.links, p, n.placementOf(f), v, cut);
    }
  }

  lemma SendingNotNegative(n: Network, e: real, f: FlowId, v: ModelVariantId, cut: int, w: WorkerId, p: Point)
    requires WellBuilt(n, e) && f in n.problem.flows && FlowPlaced(n, f, p) && Indexes(n, f, v, cut, w)
    ensures SendingTime(n, f, v, w)(cut) >= 0.0
    ensures v != n.placementOf(f).variant ==> SendingTime(n, f, v, w)(cut) == 0.0
  {
    hide T.PhysicalTime, T.Admitted, Placed, IsNominalUpper, GeometricGrid;
    assert FlowMatches(n, f);
    PlacedIsAdmitted(n.flowOf(f), n.links, p, n.placementOf(f), v, cut);
    T.PhysicalNonNegative(n.flowOf(f), n.links, p, n.placementOf(f), v, cut, w);
    PhysicalWithinUpper(n.flowOf(f), n.links, p, n.placementOf(f), cut, w, n.problem.nominalUpper(f, w));
  }

  // ----- the utilization expression, term by term

  function CutLoad(problem: N.NetworkProblem, f: FlowId, v: ModelVariantId, w: WorkerId, p: Point): int -> real
  {
    cut => problem.arrivalRate(f, v) * p(TransmissionTime(f, v, cut, w))
  }

  function VariantLoad(problem: N.NetworkProblem, f: FlowId, w: WorkerId, p: Point): ModelVariantId -> real
  {
    v => SumOver(Range(1, problem.maxComponents), CutLoad(problem, f, v, w, p))
  }

  function FlowLoad(problem: N.NetworkProblem, w: WorkerId, p: Point): FlowId -> real
  {
    f => if w in problem.workersByFlow(f) then SumOver(problem.modelsByFlow(f), VariantLoad(problem, f, w, p)) else 0.0
  }

  lemma FlowTerm(problem: N.NetworkProblem, f: FlowId, w: WorkerId, p: Point)
    ensures SumOver(problem.modelsByFlow(f), VariantLoad(problem, f, w, p))
         == SumOver(problem.modelsByFlow(f), (variant: ModelVariantId) =>
              SumOver(Range(1, problem.maxComponents), (cut: int) =>
                problem.arrivalRate(f, variant) * p(TransmissionTime(f, variant, cut, w))))
  {
    var models := problem.modelsByFlow(f);
    var g := (variant: ModelVariantId) =>
      SumOver(Range(1, problem.maxComponents), (cut: int) =>
        problem.arrivalRate(f, variant) * p(TransmissionTime(f, variant, cut, w)));
    forall v | v in models ensures VariantLoad(problem, f, w, p)(v) == g(v) {
      SumCongruent(Range(1, problem.maxComponents), CutLoad(problem, f, v, w, p), (cut: int) =>
        problem.arrivalRate(f, v) * p(TransmissionTime(f, v, cut, w)));
    }
    SumCongruent(models, VariantLoad(problem, f, w, p), g);
  }

  lemma OfferedIs(problem: N.NetworkProblem, w: WorkerId, p: Point)
    ensures N.OfferedLoad(problem, w)(p) == SumOver(problem.flows, FlowLoad(problem, w, p))
  {
    hide VariantLoad;
    var g := (flow: FlowId) =>
      if w in problem.workersByFlow(flow) then
        SumOver(problem.modelsByFlow(flow), (variant: ModelVariantId) =>
          SumOver(Range(1, problem.maxComponents), (cut: int) =>
            problem.arrivalRate(flow, variant) * p(TransmissionTime(flow, variant, cut, w))))
      else 0.0;
    forall f | f in problem.flows ensures FlowLoad(problem, w, p)(f) == g(f) {
      FlowTerm(problem, f, w, p);
    }
    SumCongruent(problem.flows, FlowLoad(problem, w, p), g);
  }

  // ----- the utilization of a worker

  lemma CutAtLeast(n: Network, e: real, f: FlowId, v: ModelVariantId, cut: int, w: WorkerId, p: Point)
    requires WellBuilt(n, e) && f in n.problem.flows && FlowPlaced(n, f, p) && TimesAtLeast(n, f, p)
    requires Indexes(n, f, v, cut, w)
    ensures CutLoad(n.problem, f, v, w, p)(cut) >= Scaled(n.problem.arrivalRate(f, v), SendingTime(n, f, v, w))(cut) >= 0.0
    ensures TimesAre(n, f, p) ==>
              CutLoad(n.problem, f, v, w, p)(cut) == Scaled(n.problem.arrivalRate(f, v), SendingTime(n, f, v, w))(cut)
  {
    hide T.PhysicalTime, FlowPlaced, GeometricGrid, FlowMatches, SendingTime;
    SendingNotNegative(n, e, f, v, cut, w, p);
    Scale(n.problem.arrivalRate(f, v), SendingTime(n, f, v, w)(cut), p(TransmissionTime(f, v, cut, w)));
    Scale(n.problem.arrivalRate(f, v), 0.0, SendingTime(n, f, v, w)(cut));
  }

  lemma VariantAtLeast(n: Network, e: real, f: FlowId, v: ModelVariantId, w: WorkerId, p: Point)
    requires WellBuilt(n, e) && f in n.problem.flows && FlowPlaced(n, f, p) && TimesAtLeast(n, f, p)
    requires v in n.problem.modelsByFlow(f) && w in n.problem.workersByFlow(f)
    ensures VariantLoad(n.problem, f, w, p)(v) >= 0.0
    ensures v == n.placementOf(f).variant ==> VariantLoad(n.problem, f, w, p)(v) >= FlowSent(n, w)(f)
    ensures TimesAre(n, f, p) ==>
              VariantLoad(n.problem, f, w, p)(v) == if v == n.placementOf(f).variant then FlowSent(n, w)(f) else 0.0
  {
    hide WellBuilt, TimesAre, TimesAtLeast, FlowPlaced, CutLoad, Scaled, SendingTime;
    var keys, rate, sending := Range(1, n.problem.maxComponents), n.problem.arrivalRate(f, v), SendingTime(n, f, v, w);
    forall cut | cut in keys
      ensures CutLoad(n.problem, f, v, w, p)(cut) >= Scaled(rate, sending)(cut) >= 0.0
      ensures TimesAre(n, f, p) ==> CutLoad(n.problem, f, v, w, p)(cut) == Scaled(rate, sending)(cut)
    {
      CutAtLeast(n, e, f, v, cut, w, p);
    }
    SumNonNegative(keys, CutLoad(n.problem, f, v, w, p));
    SumMonotone(keys, Scaled(rate, sending), CutLoad(n.problem, f, v, w, p));
    SumScaled(keys, rate, sending);
    if TimesAre(n, f, p) {
      SumCongruent(keys, CutLoad(n.problem, f, v, w, p), Scaled(rate, sending));
      if v != n.placementOf(f).variant {
        forall cut | cut in keys ensures sending(cut) == 0.0 { SendingNotNegative(n, e, f, v, cut, w, p); }
        SumZero(keys, sending);
      }
    }
  }

  lemma FlowAtLeast(n: Network, e: real, f: FlowId, w: WorkerId, p: Point)
    requires WellBuilt(n, e) && f in n.problem.flows && FlowPlaced(n, f, p) && TimesAtLeast(n, f, p)
    ensures FlowLoad(n.problem, w, p)(f) >= FlowSent(n, w)(f)
    ensures TimesAre(n, f, p) ==> FlowLoad(n.problem, w, p)(f) == FlowSent(n, w)(f)
  {
    hide TimesAre, TimesAtLeast, VariantLoad, FlowSent, GeometricGrid, IsNominalUpper;
    ModelsOf(n, e, f, p);
    if w in n.problem.workersByFlow(f) {
      var models, v := n.problem.modelsByFlow(f), n.placementOf(f).variant;
      forall m | m in models
        ensures VariantLoad(n.problem, f, w, p)(m) >= 0.0
        ensures m == v ==> VariantLoad(n.problem, f, w, p)(m) >= FlowSent(n, w)(f)
        ensures TimesAre(n, f, p) ==> VariantLoad(n.problem, f, w, p)(m) == if m == v then FlowSent(n, w)(f) else 0.0
      {
        VariantAtLeast(n, e, f, m, w, p);
      }
      TermAtMostSum(models, VariantLoad(n.problem, f, w, p), v);
      if TimesAre(n, f, p) { SumSingle(models, VariantLoad(n.problem, f, w, p), v); }
    } else {
      NothingSent(n, e, f, w, p);
    }
  }

  lemma ModelsOf(n: Network, e: real, f: FlowId, p: Point)
    requires WellBuilt(n, e) && f in n.problem.flows && FlowPlaced(n, f, p)
    ensures Distinct(n.problem.modelsByFlow(f)) && n.placementOf(f).variant in n.problem.modelsByFlow(f)
    ensures Distinct(n.problem.workersByFlow(f))
    ensures forall k :: 1 <= k <= n.placementOf(f).last ==> n.placementOf(f).workerOf(k) in n.problem.workersByFlow(f)
  {
    hide GeometricGrid, IsNominalUpper, Encodes, AllCrossingRows, T.Sensible, Profiled, Populated, TransitionRows;
    assert FlowMatches(n, f);
  }

  /** A worker that the flow may not use sends nothing for it. */
  lemma NothingSent(n: Network, e: real, f: FlowId, w: WorkerId, p: Point)
    requires WellBuilt(n, e) && f in n.problem.flows && FlowPlaced(n, f, p)
    requires w !in n.problem.workersByFlow(f)
    ensures FlowSent(n, w)(f) == 0.0
  {
    hide WellBuilt, FlowPlaced, T.CutVolume, T.Bandwidth;
    ModelsOf(n, e, f, p);
    var keys, sending := Range(1, n.problem.maxComponents), SendingTime(n, f, n.placementOf(f).variant, w);
    forall cut | cut in keys ensures sending(cut) == 0.0 { }
    SumZero(keys, sending);
  }

  /**
   The utilization expression of the rows is at least what the placements send from the worker, and at the real
   transmission times it is exactly that.
   */
  lemma UtilizationIsSent(n: Network, e: real, w: WorkerId, p: Point)
    requires WellBuilt(n, e) && AllPlaced(n, p)
    requires forall f :: f in n.problem.flows ==> TimesAtLeast(n, f, p)
    ensures N.OfferedLoad(n.problem, w)(p) >= SentLoad(n, w)
    ensures (forall f :: f in n.problem.flows ==> TimesAre(n, f, p)) ==> N.OfferedLoad(n.problem, w)(p) == SentLoad(n, w)
  {
    hide WellBuilt, FlowPlaced, TimesAre, TimesAtLeast, N.OfferedLoad, FlowSent, FlowLoad;
    OfferedIs(n.problem, w, p);
    forall f | f in n.problem.flows
      ensures FlowLoad(n.problem, w, p)(f) >= FlowSent(n, w)(f)
      ensures TimesAre(n, f, p) ==> FlowLoad(n.problem, w, p)(f) == FlowSent(n, w)(f)
    {
      FlowAtLeast(n, e, f, w, p);
    }
    SumMonotone(n.problem.flows, FlowSent(n, w), FlowLoad(n.problem, w, p));
    if forall f :: f in n.problem.flows ==> TimesAre(n, f, p) {
      SumCongruent(n.problem.flows, FlowSent(n, w), FlowLoad(n.problem, w, p));
    }
  }

  // ----- the response of one source

  ghost predicate AllTimesAtLeast(n: Network, p: Point)
  {
    forall f :: f in n.problem.flows ==> TimesAtLeast(n, f, p)
  }

  ghost predicate AllTimesAre(n: Network, p: Point)
  {
    forall f :: f in n.problem.flows ==> TimesAre(n, f, p)
  }

  /** The time that the placement of the flow spends on the cut at the worker. */
  ghost function SentTime(n: Network, f: FlowId, cut: int, w: WorkerId): real
  {
    SendingTime(n, f, n.placementOf(f).variant, w)(cut)
  }

  lemma NominalAtLeast(n: Network, e: real, f: FlowId, cut: int, w: WorkerId, p: Point)
    requires WellBuilt(n, e) && f in n.problem.flows && FlowPlaced(n, f, p) && TimesAtLeast(n, f, p)
    requires 1 <= cut < n.problem.maxComponents && w in n.problem.workersByFlow(f)
    ensures N.NominalTime(n.problem, f, cut, w)(p) >= SentTime(n, f, cut, w) >= 0.0
    ensures TimesAre(n, f, p) ==> N.NominalTime(n.problem, f, cut, w)(p) == SentTime(n, f, cut, w)
  {
    hide WellBuilt, FlowPlaced, SendingTime;
    ModelsOf(n, e, f, p);
    var models, v := n.problem.modelsByFlow(f), n.placementOf(f).variant;
    forall m | m in models
      ensures TimeOfVariant(f, cut, w, p)(m) >= SendingTime(n, f, m, w)(cut) >= 0.0
      ensures TimesAre(n, f, p) ==> TimeOfVariant(f, cut, w, p)(m) == if m == v then SentTime(n, f, cut, w) else 0.0
    {
      assert Indexes(n, f, m, cut, w);
      SendingNotNegative(n, e, f, m, cut, w, p);
    }
    TermAtMostSum(models, TimeOfVariant(f, cut, w, p), v);
    SumCongruent(models, TimeOfVariant(f, cut, w, p), (m: ModelVariantId) => p(TransmissionTime(f, m, cut, w)));
    if TimesAre(n, f, p) { SumSingle(models, TimeOfVariant(f, cut, w, p), v); }
  }

  /** response >= time / (1 - load), without the division. */
  predicate RespondsAtLeast(response: real, time: real, load: real)
  {
    time <= response * (1.0 - load)
  }

  predicate RespondsWithin(response: real, time: real, load: real, e: real)
  {
    response * (1.0 - load) <= (1.0 + e) * time
  }

  lemma LighterLink(response: real, time: real, load: real, time': real, load': real)
    requires RespondsAtLeast(response, time, load) && response >= 0.0 && time' <= time && load' <= load
    ensures RespondsAtLeast(response, time', load')
  {
    Scale(response, 1.0 - load, 1.0 - load');
  }

  lemma SlowerResponse(response: real, least: real, time: real, load: real)
    requires RespondsAtLeast(least, time, load) && least <= response && load <= 1.0
    ensures RespondsAtLeast(response, time, load)
  {
    Scale(1.0 - load, least, response);
  }

  lemma LeastNotNegative(least: real, time: real, load: real)
    requires RespondsAtLeast(least, time, load) && 0.0 <= time && load < 1.0
    ensures least >= 0.0
  {
    if least < 0.0 { ScaleStrict(1.0 - load, least, 0.0); }
  }

  lemma NoTimeNoResponse(least: real, load: real, e: real)
    requires RespondsAtLeast(least, 0.0, load) && RespondsWithin(least, 0.0, load, e) && load < 1.0
    ensures least == 0.0
  {
    if least < 0.0 { ScaleStrict(1.0 - load, least, 0.0); }
    if least > 0.0 { ScaleStrict(1.0 - load, 0.0, least); }
  }

  /** The rows of a worker's uplink, with binary bins. */
  ghost predicate UplinkRows(n: Network, w: WorkerId, p: Point)
    requires N.UsableLimits(n.problem.binLimits)
  {
    N.WorkerRows(n.problem, w, p) && forall i :: 1 <= i < |n.problem.binLimits| ==> IsBinary(p(NetworkBinSelected(w, i)))
  }

  ghost predicate AtPoint(n: Network, e: real, p: Point)
  {
    WellBuilt(n, e) && AllPlaced(n, p) && AllTimesAtLeast(n, p) && forall w :: w in n.problem.workers ==> UplinkRows(n, w, p)
  }

  lemma LoadBelowOne(n: Network, e: real, w: WorkerId, p: Point)
    requires AtPoint(n, e, p) && w in n.problem.workers
    ensures SentLoad(n, w) <= p(NetworkUtilization(w)) <= n.problem.utilizationLimit < 1.0
    ensures AllTimesAre(n, p) ==> SentLoad(n, w) == p(NetworkUtilization(w))
  {
    hide AllPlaced, TimesAtLeast, TimesAre, SentLoad, N.OfferedLoad, FlowMatches, GeometricGrid;
    UtilizationIsSent(n, e, w, p);
    assert UplinkRows(n, w, p);
  }

  /**
   The rows admit a response of a source exactly from a least one on, which is the processor-sharing response
   to the time that the placement spends there, under the load that the placements put on the uplink.
   */
  lemma SourceResponds(n: Network, e: real, f: FlowId, cut: int, w: WorkerId, p: Point) returns (least: real)
    requires AtPoint(n, e, p) && f in n.problem.flows && 1 <= cut < n.problem.maxComponents
    requires w in n.problem.workersByFlow(f) && w in n.problem.workers
    requires N.NominalTime(n.problem, f, cut, w)(p) <= n.problem.nominalUpper(f, w)
    ensures N.SourceRows(n.problem, f, cut, w, p) <==> p(SourceResponse(f, cut, w)) >= least
    ensures least >= 0.0 && RespondsAtLeast(least, SentTime(n, f, cut, w), SentLoad(n, w))
    ensures AllTimesAre(n, p) ==> RespondsWithin(least, SentTime(n, f, cut, w), SentLoad(n, w), e)
  {
    hide FlowPlaced, TimesAtLeast, TimesAre, N.NominalTime, N.SourceRows, N.WorkerRows, FlowMatches, GeometricGrid;
    hide SentLoad, SendingTime, SentTime;
    LoadBelowOne(n, e, w, p);
    NominalAtLeast(n, e, f, cut, w, p);
    assert UplinkRows(n, w, p);
    least := N.ResponseWithinRelativeError(n.problem, e, f, cut, w, p);
    var nominal, rho := N.NominalTime(n.problem, f, cut, w)(p), p(NetworkUtilization(w));
    assert RespondsAtLeast(least, nominal, rho);
    LeastNotNegative(least, nominal, rho);
    LighterLink(least, nominal, rho, SentTime(n, f, cut, w), SentLoad(n, w));
  }

  // ----- the response of one cut

  function ResponseOf(f: FlowId, cut: int, p: Point): WorkerId -> real
  {
    w => p(SourceResponse(f, cut, w))
  }

  lemma TotalIs(problem: N.NetworkProblem, f: FlowId, cut: int, p: Point)
    ensures N.TotalResponse(problem, f, cut)(p) == SumOver(problem.workersByFlow(f), ResponseOf(f, cut, p))
  {
    SumCongruent(problem.workersByFlow(f), ResponseOf(f, cut, p), (w: WorkerId) => p(SourceResponse(f, cut, w)));
  }

  /** No response is negative, as the variables are declared. */
  ghost predicate ResponsesTyped(n: Network, f: FlowId, cut: int, p: Point)
  {
    forall w :: w in n.problem.workersByFlow(f) ==> p(SourceResponse(f, cut, w)) >= 0.0
  }

  lemma SourceRowsOf(n: Network, f: FlowId, cut: int, w: WorkerId, p: Point)
    requires N.UsableLimits(n.problem.binLimits) && N.CutRows(n.problem, f, cut, p) && w in n.problem.workersByFlow(f)
    ensures N.SourceRows(n.problem, f, cut, w, p)
    ensures N.NominalTime(n.problem, f, cut, w)(p) <= n.problem.nominalUpper(f, w)
  {
    hide ProjectedRow;
    var i :| 0 <= i < |n.problem.workersByFlow(f)| && n.problem.workersByFlow(f)[i] == w;
    assert N.SourceRows(n.problem, f, cut, n.problem.workersByFlow(f)[i], p);
  }

  /** At every point of the rows a used cut takes at least the processor-sharing response of what is sent. */
  lemma CutNotFaster(n: Network, e: real, f: FlowId, cut: int, p: Point)
    requires AtPoint(n, e, p) && f in n.problem.flows && 1 <= cut < n.placementOf(f).last
    requires N.CutRows(n.problem, f, cut, p) && ResponsesTyped(n, f, cut, p)
    ensures var w := n.placementOf(f).workerOf(cut);
            SentLoad(n, w) < 1.0 && RespondsAtLeast(p(TransmissionResponse(f, cut)), SentTime(n, f, cut, w), SentLoad(n, w))
  {
    hide FlowPlaced, AllTimesAtLeast, N.SourceRows, UplinkRows, IsNominalUpper, GeometricGrid, SentLoad, SentTime, RespondsAtLeast;
    hide N.NominalTime, N.TotalResponse;
    var w := n.placementOf(f).workerOf(cut);
    assert FlowMatches(n, f);
    ModelsOf(n, e, f, p);
    CutInRange(n, f, cut, p);
    SourceRowsOf(n, f, cut, w, p);
    var least := SourceResponds(n, e, f, cut, w, p);
    LoadBelowOne(n, e, w, p);
    TotalIs(n.problem, f, cut, p);
    TermAtMostSum(n.problem.workersByFlow(f), ResponseOf(f, cut, p), w);
    SlowerResponse(p(TransmissionResponse(f, cut)), least, SentTime(n, f, cut, w), SentLoad(n, w));
  }

  lemma CutInRange(n: Network, f: FlowId, cut: int, p: Point)
    requires FlowMatches(n, f) && FlowPlaced(n, f, p) && 1 <= cut < n.placementOf(f).last
    ensures cut < n.problem.maxComponents
  {
    hide IsNominalUpper, Placed, Populated;
  }
}
