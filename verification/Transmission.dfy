/** The transmission rows of compact_transmission.py: exact at placements, although every row is a big-M row. */
module Transmission {
  import opened Lp
  import opened Sums
  import opened Seqs
  import opened BinLimits
  import opened ModelTopology
  import opened Assignment
  import opened Structure
  import opened TensorCrossing

  /** Measured links, tensor sizes, the tensors of a variant in dictionary order, and its profiled largest cut. */
  datatype LinkData = LinkData(
    bandwidth: map<(WorkerId, WorkerId), real>,
    size: (ModelVariantId, TensorKey) -> real,
    tensorsOf: ModelVariantId -> seq<TensorKey>,
    cutUpper: ModelVariantId -> real)

  ghost predicate Sensible(fp: FlowProblem, d: LinkData)
  {
    && (forall link :: link in d.bandwidth ==> d.bandwidth[link] > 0.0)
    && (forall v, x :: d.size(v, x) >= 0.0)
    && (forall v :: d.cutUpper(v) >= 0.0)
    && (forall v :: v in fp.variants ==> TensorsListed(fp, d, v))
  }

  ghost predicate TensorsListed(fp: FlowProblem, d: LinkData, v: ModelVariantId)
  {
    && Acyclic(fp.topologyOf(v)) && SingleSource(fp.topologyOf(v).edges)
    && Distinct(d.tensorsOf(v)) && forall x :: x in d.tensorsOf(v) <==> x in RoutedTensors(fp.topologyOf(v).edges)
  }

  function Destinations(fp: FlowProblem, d: LinkData, source: WorkerId): (r: seq<WorkerId>)
    ensures forall t :: t in r <==> t in fp.workers && t != source && (source, t) in d.bandwidth
  {
    Filter(fp.workers, (target: WorkerId) => target != source && (source, target) in d.bandwidth)
  }

  function Best(d: LinkData, source: WorkerId, targets: seq<WorkerId>): (r: real)
    requires forall t :: t in targets ==> (source, t) in d.bandwidth
    ensures r >= 0.0 && forall t :: t in targets ==> d.bandwidth[(source, t)] <= r
  {
    if targets == [] then 0.0 else
    var rest, b := Best(d, source, targets[..|targets| - 1]), d.bandwidth[(source, targets[|targets| - 1])];
    if rest >= b then rest else b
  }

  /** The fastest link between two workers, 0 without links. */
  function MaxBandwidth(fp: FlowProblem, d: LinkData, sources: seq<WorkerId>): (r: real)
    ensures r >= 0.0
    ensures forall s, t :: s in sources && t in Destinations(fp, d, s) ==> d.bandwidth[(s, t)] <= r
  {
    if sources == [] then 0.0 else
    var rest := MaxBandwidth(fp, d, sources[..|sources| - 1]);
    var best := Best(d, sources[|sources| - 1], Destinations(fp, d, sources[|sources| - 1]));
    if rest >= best then rest else best
  }

  // ----- the volume over a cut

  function SizeTerm(fp: FlowProblem, d: LinkData, v: ModelVariantId, cut: int, p: Point): TensorKey -> real
  {
    x => if Acyclic(fp.topologyOf(v)) && x in RoutedTensors(fp.topologyOf(v).edges)
         then d.size(v, x) * CrossingTerm(fp, v, x, cut, p) else 0.0
  }

  /** `transmitted_data_size_mb_expression`. */
  function Delta(fp: FlowProblem, d: LinkData, v: ModelVariantId, cut: int, p: Point): real
  {
    SumOver(d.tensorsOf(v), SizeTerm(fp, d, v, cut, p))
  }

  ghost function CrossingSize(fp: FlowProblem, d: LinkData, pl: Placement, v: ModelVariantId,
                              cut: int): TensorKey -> real
  {
    x => if v == pl.variant && x in RoutedTensors(fp.topologyOf(v).edges) && Crosses(fp.topologyOf(v), pl, x, cut)
         then d.size(v, x) else 0.0
  }

  /** The total size of the tensors that really cross the cut. */
  ghost function CutVolume(fp: FlowProblem, d: LinkData, pl: Placement, v: ModelVariantId, cut: int): real
  {
    SumOver(d.tensorsOf(v), CrossingSize(fp, d, pl, v, cut))
  }

  lemma SizeOfIndicator(size: real, crossing: real, on: bool)
    requires crossing == Indicator(on)
    ensures size * crossing == if on then size else 0.0
  {
  }

  /** The linear expression of the rows is the volume of the tensors that cross. */
  lemma DeltaIsVolume(fp: FlowProblem, d: LinkData, p: Point, pl: Placement, v: ModelVariantId, cut: int)
    requires WellFormed(fp) && Valid(fp, pl) && Encodes(fp, p, pl) && AllCrossingRows(fp, p) && Sensible(fp, d)
    requires v in fp.variants && 1 <= cut < fp.maxComponents
    ensures Delta(fp, d, v, cut, p) == CutVolume(fp, d, pl, v, cut) >= 0.0
    ensures v != pl.variant || cut >= pl.last ==> CutVolume(fp, d, pl, v, cut) == 0.0
  {
    hide Acyclic, SingleSource, CrossingTerm, Crosses, RoutedTensors, WellFormed, Encodes, AllCrossingRows, Distinct;
    assert TensorsListed(fp, d, v);
    var tensors := d.tensorsOf(v);
    forall x | x in tensors ensures SizeTerm(fp, d, v, cut, p)(x) == CrossingSize(fp, d, pl, v, cut)(x) {
      CrossingExact(fp, p, pl, v, x, cut);
      SizeOfIndicator(d.size(v, x), CrossingTerm(fp, v, x, cut, p), v == pl.variant && Crosses(fp.topologyOf(v), pl, x, cut));
    }
    SumCongruent(tensors, SizeTerm(fp, d, v, cut, p), CrossingSize(fp, d, pl, v, cut));
    SumNonNegative(tensors, CrossingSize(fp, d, pl, v, cut));
    if v != pl.variant || cut >= pl.last {
      forall x | x in tensors ensures CrossingSize(fp, d, pl, v, cut)(x) == 0.0 {
        if v == pl.variant { NothingCrossesTheEnd(fp, pl, x, cut); }
      }
      SumZero(tensors, CrossingSize(fp, d, pl, v, cut));
    }
  }

  lemma NothingCrossesTheEnd(fp: FlowProblem, pl: Placement, x: TensorKey, cut: int)
    requires Valid(fp, pl) && cut >= pl.last && x in RoutedTensors(fp.topologyOf(pl.variant).edges)
    requires Acyclic(fp.topologyOf(pl.variant)) && SingleSource(fp.topologyOf(pl.variant).edges)
    ensures !Crosses(fp.topologyOf(pl.variant), pl, x, cut)
  {
    hide Acyclic, SingleSource, RoutedTensors, Producer;
    var t := fp.topologyOf(pl.variant);
    forall l | l in Consumers(t.edges, x) ensures pl.componentOf(l) <= cut {
      ConsumerEdge(t, x, l);
    }
  }

  // ----- the rows

  predicate AtLeastQuotient(time: real, volume: real, bandwidth: real)
    requires bandwidth > 0.0
  {
    time >= volume / bandwidth
  }

  function TimeVar(fp: FlowProblem, v: ModelVariantId, cut: int, p: Point): WorkerId -> real
  {
    s => p(TransmissionTime(fp.flow, v, cut, s))
  }

  ghost predicate MinimumRow(fp: FlowProblem, d: LinkData, v: ModelVariantId, cut: int, p: Point)
  {
    var fastest := MaxBandwidth(fp, d, fp.workers);
    if fastest > 0.0 then AtLeastQuotient(SumOver(fp.workers, TimeVar(fp, v, cut, p)), Delta(fp, d, v, cut, p), fastest)
    else Delta(fp, d, v, cut, p) == 0.0
  }

  function Bandwidth(d: LinkData, s: WorkerId, t: WorkerId): (r: real)
    ensures r > 0.0
  {
    if (s, t) in d.bandwidth && d.bandwidth[(s, t)] > 0.0 then d.bandwidth[(s, t)] else 1.0
  }

  function Slack(fp: FlowProblem, cut: int, s: WorkerId, t: WorkerId, p: Point): real
  {
    2.0 - p(ComponentWorker(fp.flow, cut, s)) - p(ComponentWorker(fp.flow, cut + 1, t))
  }

  predicate SlackRow(time: real, volume: real, upper: real, slack: real, bandwidth: real)
    requires bandwidth > 0.0
  {
    AtLeastQuotient(time, volume - upper * slack, bandwidth)
  }

  predicate LinkRow(fp: FlowProblem, d: LinkData, v: ModelVariantId, cut: int, s: WorkerId, t: WorkerId, p: Point)
  {
    SlackRow(p(TransmissionTime(fp.flow, v, cut, s)), Delta(fp, d, v, cut, p), d.cutUpper(v), Slack(fp, cut, s, t, p),
             Bandwidth(d, s, t))
  }

  ghost predicate SourceRows(fp: FlowProblem, d: LinkData, v: ModelVariantId, cut: int, s: WorkerId, p: Point)
  {
    && (forall t :: t in Destinations(fp, d, s) ==> LinkRow(fp, d, v, cut, s, t, p))
    && (Destinations(fp, d, s) == [] ==> p(TransmissionTime(fp.flow, v, cut, s)) <= 0.0)
  }

  ghost predicate TransmissionRows(fp: FlowProblem, d: LinkData, v: ModelVariantId, cut: int, p: Point)
  {
    MinimumRow(fp, d, v, cut, p) && forall s :: s in fp.workers ==> SourceRows(fp, d, v, cut, s, p)
  }

  method AddSourceRows(m: Model, fp: FlowProblem, d: LinkData, v: ModelVariantId, cut: int, s: WorkerId, ghost p: Point)
    modifies m
    ensures m.Sat(p) <==> (old(m.Sat(p)) && SourceRows(fp, d, v, cut, s, p))
  {
    hide LinkRow, Destinations;
    var destinations := Destinations(fp, d, s);
    for i := 0 to |destinations|
      invariant m.Sat(p) <==> (old(m.Sat(p)) && forall t :: t in destinations[..i] ==> LinkRow(fp, d, v, cut, s, t, p))
    {
      var t := destinations[i];
      m.AddConstr((q: Point) => LinkRow(fp, d, v, cut, s, t, q), p);
      assert destinations[..i + 1] == destinations[..i] + [t];
    }
    assert destinations[..|destinations|] == destinations;
    if |destinations| == 0 {
      m.AddConstr((q: Point) => q(TransmissionTime(fp.flow, v, cut, s)) <= 0.0, p);
    }
  }

  method AddCompactTransmissionConstraints(m: Model, fp: FlowProblem, d: LinkData, v: ModelVariantId, cut: int,
                                           ghost p: Point)
    modifies m
    ensures m.Sat(p) <==> (old(m.Sat(p)) && TransmissionRows(fp, d, v, cut, p))
  {
    hide SourceRows;
    var fastest := MaxBandwidth(fp, d, fp.workers);
    if fastest > 0.0 {
      m.AddConstr(
        (q: Point) => AtLeastQuotient(SumOver(fp.workers, TimeVar(fp, v, cut, q)), Delta(fp, d, v, cut, q), fastest), p);
    } else {
      m.AddConstr((q: Point) => Delta(fp, d, v, cut, q) == 0.0, p);
    }
    label Minimum:
    for i := 0 to |fp.workers|
      invariant m.Sat(p) <==> (
                  old@Minimum(m.Sat(p)) && forall s :: s in fp.workers[..i] ==> SourceRows(fp, d, v, cut, s, p))
    {
      AddSourceRows(m, fp, d, v, cut, fp.workers[i], p);
      assert fp.workers[..i + 1] == fp.workers[..i] + [fp.workers[i]];
    }
    assert fp.workers[..|fp.workers|] == fp.workers;
  }

  // ----- exactness

  /** The time that a source really spends on a cut. */
  ghost function PhysicalTime(fp: FlowProblem, d: LinkData, pl: Placement, v: ModelVariantId, cut: int,
                              s: WorkerId): real
  {
    if cut < pl.last && s == pl.workerOf(cut) then CutVolume(fp, d, pl, v, cut) / Bandwidth(d, s, pl.workerOf(cut + 1)) else 0.0
  }

  /** A placement that the other rows admit: the used link exists and the profiled largest cut is not exceeded. */
  ghost predicate Admitted(fp: FlowProblem, d: LinkData, p: Point, pl: Placement, v: ModelVariantId, cut: int)
  {
    && WellFormed(fp) && Valid(fp, pl) && Encodes(fp, p, pl) && AllCrossingRows(fp, p) && Sensible(fp, d)
    && v in fp.variants && 1 <= cut < fp.maxComponents
    && (cut < pl.last ==> (pl.workerOf(cut), pl.workerOf(cut + 1)) in d.bandwidth)
    && CutVolume(fp, d, pl, v, cut) <= d.cutUpper(v)
  }

  lemma QuotientOrder(time: real, volume: real, bandwidth: real)
    requires bandwidth > 0.0
    ensures AtLeastQuotient(time, volume, bandwidth) <==> time * bandwidth >= volume
    ensures (volume / bandwidth) * bandwidth == volume
    ensures volume >= 0.0 ==> volume / bandwidth >= 0.0
  {
    var q := volume / bandwidth;
    assert q * bandwidth == volume;
    if time >= q { Scale(bandwidth, q, time); } else { ScaleStrict(bandwidth, time, q); }
    if volume >= 0.0 && q < 0.0 { ScaleStrict(bandwidth, q, 0.0); }
  }

  /** A link row with slack holds for every non-negative time. */
  lemma SlackHolds(time: real, volume: real, upper: real, slack: real, bandwidth: real)
    requires time >= 0.0 && volume <= upper && slack >= 1.0 && bandwidth > 0.0 && upper >= 0.0
    ensures SlackRow(time, volume, upper, slack, bandwidth)
  {
    Scale(upper, 1.0, slack);
    Scale(bandwidth, 0.0, time);
    QuotientOrder(time, volume - upper * slack, bandwidth);
  }

  lemma SlackValues(fp: FlowProblem, p: Point, pl: Placement, cut: int, s: WorkerId, t: WorkerId)
    requires Valid(fp, pl) && Encodes(fp, p, pl) && s in fp.workers && t in fp.workers && 1 <= cut < fp.maxComponents
    ensures Slack(fp, cut, s, t, p) == 0.0 || Slack(fp, cut, s, t, p) >= 1.0
    ensures Slack(fp, cut, s, t, p) == 0.0 <==> cut < pl.last && s == pl.workerOf(cut) && t == pl.workerOf(cut + 1)
  {
    assert EncodesWorkers(fp, p, pl, cut) && EncodesWorkers(fp, p, pl, cut + 1);
  }

  lemma {:induction false} UsedLink(fp: FlowProblem, d: LinkData, p: Point, pl: Placement, v: ModelVariantId, cut: int)
    requires Admitted(fp, d, p, pl, v, cut) && cut < pl.last
    ensures pl.workerOf(cut) in fp.workers && pl.workerOf(cut + 1) in Destinations(fp, d, pl.workerOf(cut))
    ensures Bandwidth(d, pl.workerOf(cut), pl.workerOf(cut + 1)) <= MaxBandwidth(fp, d, fp.workers)
  {
    hide MaxBandwidth, AllCrossingRows, Encodes, Populated;
  }

  /** The rows force every time to be at least the physical one. */
  lemma TimesAtLeastPhysical(fp: FlowProblem, d: LinkData, p: Point, pl: Placement, v: ModelVariantId, cut: int,
                             s: WorkerId)
    requires Admitted(fp, d, p, pl, v, cut) && s in fp.workers && p(TransmissionTime(fp.flow, v, cut, s)) >= 0.0
    requires TransmissionRows(fp, d, v, cut, p)
    ensures p(TransmissionTime(fp.flow, v, cut, s)) >= PhysicalTime(fp, d, pl, v, cut, s)
  {
    hide CutVolume, Delta, Slack, Bandwidth, MinimumRow, Destinations, Encodes, AllCrossingRows, WellFormed, Sensible, Valid;
    hide SlackRow;
    DeltaIsVolume(fp, d, p, pl, v, cut);
    if cut < pl.last && s == pl.workerOf(cut) {
      var t := pl.workerOf(cut + 1);
      UsedLink(fp, d, p, pl, v, cut);
      assert SourceRows(fp, d, v, cut, s, p);
      assert LinkRow(fp, d, v, cut, s, t, p);
      DestinationIn(fp, d, s, t);
      SlackValues(fp, p, pl, cut, s, t);
      NoSlack(p(TransmissionTime(fp.flow, v, cut, s)), Delta(fp, d, v, cut, p), d.cutUpper(v),
              Slack(fp, cut, s, t, p), Bandwidth(d, s, t));
    }
  }

  lemma DestinationIn(fp: FlowProblem, d: LinkData, s: WorkerId, t: WorkerId)
    requires t in Destinations(fp, d, s)
    ensures t in fp.workers && t != s && (s, t) in d.bandwidth
  {
  }

  lemma NoSlack(time: real, volume: real, upper: real, slack: real, bandwidth: real)
    requires slack == 0.0 && bandwidth > 0.0
    ensures SlackRow(time, volume, upper, slack, bandwidth) <==> AtLeastQuotient(time, volume, bandwidth)
  {
    assert volume - upper * slack == volume;
  }

  ghost predicate TimesArePhysical(fp: FlowProblem, d: LinkData, pl: Placement, v: ModelVariantId, cut: int, p: Point)
  {
    forall s :: s in fp.workers ==> p(TransmissionTime(fp.flow, v, cut, s)) == PhysicalTime(fp, d, pl, v, cut, s)
  }

  lemma PhysicalNonNegative(fp: FlowProblem, d: LinkData, p: Point, pl: Placement, v: ModelVariantId, cut: int,
                            s: WorkerId)
    requires Admitted(fp, d, p, pl, v, cut)
    ensures PhysicalTime(fp, d, pl, v, cut, s) >= 0.0
  {
    hide CutVolume, Bandwidth, Encodes, AllCrossingRows, WellFormed, Sensible, Valid;
    DeltaIsVolume(fp, d, p, pl, v, cut);
    QuotientOrder(0.0, CutVolume(fp, d, pl, v, cut), Bandwidth(d, s, pl.workerOf(cut + 1)));
  }

  lemma PhysicalLinkRow(fp: FlowProblem, d: LinkData, p: Point, pl: Placement, v: ModelVariantId, cut: int,
                        s: WorkerId, t: WorkerId)
    requires Admitted(fp, d, p, pl, v, cut) && TimesArePhysical(fp, d, pl, v, cut, p)
    requires s in fp.workers && t in Destinations(fp, d, s)
    ensures LinkRow(fp, d, v, cut, s, t, p)
  {
    hide CutVolume, Delta, Slack, Bandwidth, Destinations, Encodes, AllCrossingRows, WellFormed, Sensible, Valid;
    hide PhysicalTime, AtLeastQuotient;
    DeltaIsVolume(fp, d, p, pl, v, cut);
    DestinationIn(fp, d, s, t);
    SlackValues(fp, p, pl, cut, s, t);
    PhysicalNonNegative(fp, d, p, pl, v, cut, s);
    UpperNonNegative(fp, d, v);
    if Slack(fp, cut, s, t, p) == 0.0 {
      PhysicalIsQuotient(fp, d, pl, v, cut, s);
      TightLinkRow(fp, d, v, cut, s, t, p);
    } else {
      LooseLinkRow(fp, d, v, cut, s, t, p);
    }
  }

  lemma LooseLinkRow(fp: FlowProblem, d: LinkData, v: ModelVariantId, cut: int, s: WorkerId, t: WorkerId, p: Point)
    requires Slack(fp, cut, s, t, p) >= 1.0 && p(TransmissionTime(fp.flow, v, cut, s)) >= 0.0
    requires Delta(fp, d, v, cut, p) <= d.cutUpper(v) && d.cutUpper(v) >= 0.0
    ensures LinkRow(fp, d, v, cut, s, t, p)
  {
    hide Delta, Bandwidth, Slack, SlackRow;
    SlackHolds(p(TransmissionTime(fp.flow, v, cut, s)), Delta(fp, d, v, cut, p), d.cutUpper(v), Slack(fp, cut, s, t, p),
               Bandwidth(d, s, t));
  }

  lemma TightLinkRow(fp: FlowProblem, d: LinkData, v: ModelVariantId, cut: int, s: WorkerId, t: WorkerId, p: Point)
    requires Slack(fp, cut, s, t, p) == 0.0
    requires AtLeastQuotient(p(TransmissionTime(fp.flow, v, cut, s)), Delta(fp, d, v, cut, p), Bandwidth(d, s, t))
    ensures LinkRow(fp, d, v, cut, s, t, p)
  {
    hide Delta, Bandwidth, Slack, SlackRow;
    NoSlack(p(TransmissionTime(fp.flow, v, cut, s)), Delta(fp, d, v, cut, p), d.cutUpper(v), Slack(fp, cut, s, t, p),
            Bandwidth(d, s, t));
  }

  lemma UpperNonNegative(fp: FlowProblem, d: LinkData, v: ModelVariantId)
    requires Sensible(fp, d)
    ensures d.cutUpper(v) >= 0.0
  {
  }

  lemma PhysicalIsQuotient(fp: FlowProblem, d: LinkData, pl: Placement, v: ModelVariantId, cut: int, s: WorkerId)
    requires cut < pl.last && s == pl.workerOf(cut)
    ensures AtLeastQuotient(PhysicalTime(fp, d, pl, v, cut, s), CutVolume(fp, d, pl, v, cut), Bandwidth(d, s, pl.workerOf(cut + 1)))
  {
  }

  /** The sum of the physical times is long enough even for the fastest link. */
  lemma PhysicalMinimumRow(fp: FlowProblem, d: LinkData, p: Point, pl: Placement, v: ModelVariantId, cut: int)
    requires Admitted(fp, d, p, pl, v, cut) && TimesArePhysical(fp, d, pl, v, cut, p) && Distinct(fp.workers)
    ensures MinimumRow(fp, d, v, cut, p)
  {
    hide CutVolume, Delta, Slack, Bandwidth, Destinations, Encodes, AllCrossingRows, WellFormed, Sensible, MaxBandwidth;
    hide AtLeastQuotient, Populated;
    DeltaIsVolume(fp, d, p, pl, v, cut);
    var volume, fastest := CutVolume(fp, d, pl, v, cut), MaxBandwidth(fp, d, fp.workers);
    if cut < pl.last {
      var s := pl.workerOf(cut);
      UsedLink(fp, d, p, pl, v, cut);
      SumSingle(fp.workers, TimeVar(fp, v, cut, p), s);
      FasterIsShorter(volume, Bandwidth(d, s, pl.workerOf(cut + 1)), fastest);
    } else {
      SumZero(fp.workers, TimeVar(fp, v, cut, p));
      if fastest > 0.0 { QuotientOrder(0.0, volume, fastest); ZeroQuotient(fastest); }
    }
  }

  lemma ZeroQuotient(bandwidth: real)
    requires bandwidth > 0.0
    ensures AtLeastQuotient(0.0, 0.0, bandwidth)
  {
    QuotientOrder(0.0, 0.0, bandwidth);
  }

  lemma FasterIsShorter(volume: real, bandwidth: real, fastest: real)
    requires 0.0 < bandwidth <= fastest && volume >= 0.0
    ensures AtLeastQuotient(volume / bandwidth, volume, fastest)
  {
    QuotientOrder(0.0, volume, bandwidth);
    var time := volume / bandwidth;
    Scale(time, bandwidth, fastest);
    QuotientOrder(time, volume, fastest);
  }

  /** The bandwidth of the fastest link between two workers, 0 if there is none. */
  ghost predicate IsFastest(fp: FlowProblem, d: LinkData, fastest: real)
  {
    && (forall s, t :: s in fp.workers && t in Destinations(fp, d, s) ==> d.bandwidth[(s, t)] <= fastest)
    && fastest >= 0.0
    && (fastest > 0.0 ==> exists s, t :: s in fp.workers && t in Destinations(fp, d, s) && d.bandwidth[(s, t)] == fastest)
  }

  lemma {:induction false} BestAttained(d: LinkData, source: WorkerId, targets: seq<WorkerId>)
    requires forall t :: t in targets ==> (source, t) in d.bandwidth
    ensures Best(d, source, targets) > 0.0 ==> exists t :: t in targets && d.bandwidth[(source, t)] == Best(d, source, targets)
  {
    if targets != [] {
      var init := targets[..|targets| - 1];
      BestAttained(d, source, init);
      assert targets[|targets| - 1] in targets && forall t :: t in init ==> t in targets;
    }
  }

  lemma {:induction false} FastestAttained(fp: FlowProblem, d: LinkData, sources: seq<WorkerId>)
    ensures MaxBandwidth(fp, d, sources) > 0.0 ==>
              exists s, t :: s in sources && t in Destinations(fp, d, s) && d.bandwidth[(s, t)] == MaxBandwidth(fp, d, sources)
  {
    hide Destinations, Best;
    if sources != [] {
      var init, s := sources[..|sources| - 1], sources[|sources| - 1];
      FastestAttained(fp, d, init);
      BestAttained(d, s, Destinations(fp, d, s));
      assert s in sources && forall r :: r in init ==> r in sources;
    }
  }

  lemma {:induction false} FastestIs(fp: FlowProblem, d: LinkData)
    ensures IsFastest(fp, d, MaxBandwidth(fp, d, fp.workers))
  {
    hide MaxBandwidth, Destinations;
    FastestAttained(fp, d, fp.workers);
  }

  /** The strengthening: all sources together need at least the time that the fastest link takes for the volume. */
  lemma MinimumRowMeans(fp: FlowProblem, d: LinkData, p: Point, pl: Placement, v: ModelVariantId, cut: int, fastest: real)
    requires WellFormed(fp) && Valid(fp, pl) && Encodes(fp, p, pl) && AllCrossingRows(fp, p) && Sensible(fp, d)
    requires v in fp.variants && 1 <= cut < fp.maxComponents && IsFastest(fp, d, fastest)
    ensures MinimumRow(fp, d, v, cut, p) <==>
              CutVolume(fp, d, pl, v, cut) <= SumOver(fp.workers, TimeVar(fp, v, cut, p)) * fastest
  {
    hide CutVolume, Delta, Destinations, Encodes, AllCrossingRows, WellFormed, Sensible, MaxBandwidth, Valid, SumOver;
    DeltaIsVolume(fp, d, p, pl, v, cut);
    FastestIs(fp, d);
    assert fastest == MaxBandwidth(fp, d, fp.workers);
    if fastest > 0.0 {
      QuotientOrder(SumOver(fp.workers, TimeVar(fp, v, cut, p)), CutVolume(fp, d, pl, v, cut), fastest);
    }
  }

  /** A source without links never has to send: the physical time is 0 there. */
  lemma NoLinksNoTime(fp: FlowProblem, d: LinkData, p: Point, pl: Placement, v: ModelVariantId, cut: int, s: WorkerId)
    requires Admitted(fp, d, p, pl, v, cut) && s in fp.workers && Destinations(fp, d, s) == []
    ensures PhysicalTime(fp, d, pl, v, cut, s) == 0.0
  {
    hide CutVolume, Bandwidth, Destinations, Encodes, AllCrossingRows, WellFormed, Sensible, Valid;
    if cut < pl.last && s == pl.workerOf(cut) {
      UsedLink(fp, d, p, pl, v, cut);
    }
  }

  /**
   Transmission rows: they make every time at least the physical one, and the physical times satisfy them
   all, with the upper bounds of 0 and the minimum row.
   */
  lemma TransmissionExact(fp: FlowProblem, d: LinkData, p: Point, pl: Placement, v: ModelVariantId, cut: int)
    requires Admitted(fp, d, p, pl, v, cut)
    ensures TransmissionRows(fp, d, v, cut, p) ==>
              forall s :: s in fp.workers && p(TransmissionTime(fp.flow, v, cut, s)) >= 0.0 ==>
                p(TransmissionTime(fp.flow, v, cut, s)) >= PhysicalTime(fp, d, pl, v, cut, s)
    ensures TimesArePhysical(fp, d, pl, v, cut, p) ==> TransmissionRows(fp, d, v, cut, p)
  {
    hide PhysicalTime, LinkRow, MinimumRow, Destinations, Valid, Encodes, AllCrossingRows, Sensible, CutVolume;
    if TransmissionRows(fp, d, v, cut, p) {
      forall s | s in fp.workers && p(TransmissionTime(fp.flow, v, cut, s)) >= 0.0
        ensures p(TransmissionTime(fp.flow, v, cut, s)) >= PhysicalTime(fp, d, pl, v, cut, s)
      {
        TimesAtLeastPhysical(fp, d, p, pl, v, cut, s);
      }
    }
    if TimesArePhysical(fp, d, pl, v, cut, p) {
      PhysicalMinimumRow(fp, d, p, pl, v, cut);
      forall s | s in fp.workers ensures SourceRows(fp, d, v, cut, s, p) {
        forall t | t in Destinations(fp, d, s) ensures LinkRow(fp, d, v, cut, s, t, p) {
          PhysicalLinkRow(fp, d, p, pl, v, cut, s, t);
        }
        if Destinations(fp, d, s) == [] { NoLinksNoTime(fp, d, p, pl, v, cut, s); }
      }
    }
  }
}
