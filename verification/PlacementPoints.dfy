/** The structural part of the point that a placement and its priorities stand for; it satisfies every structural row. */
module PlacementPoints {
  import opened Lp
  import opened Sums
  import opened ModelTopology
  import opened Assignment
  import opened Structure
  import opened TensorCrossing

  /** Component k runs on the worker, at the priority. */
  predicate Chosen(pl: Placement, priorityOf: int -> int, k: int, w: WorkerId, r: int)
  {
    1 <= k <= pl.last && w == pl.workerOf(k) && r == priorityOf(k)
  }

  ghost predicate ShowsPriorities(fp: FlowProblem, pl: Placement, priorityOf: int -> int, p: Point)
  {
    forall k, w, r :: 1 <= k <= fp.maxComponents && w in fp.workers && 1 <= r <= fp.priorityCount ==>
      p(ComponentPriority(fp.flow, k, w, r)) == Indicator(Chosen(pl, priorityOf, k, w, r))
  }

  ghost predicate ShowsCrossings(fp: FlowProblem, pl: Placement, p: Point)
  {
    forall v, x, cut :: v in fp.variants && x in RoutedTensors(fp.topologyOf(v).edges) && 1 <= cut < fp.maxComponents ==>
      p(TensorCrossing(fp.flow, v, x, cut)) == Indicator(v == pl.variant && Crosses(fp.topologyOf(v), pl, x, cut))
  }

  ghost predicate Shows(fp: FlowProblem, pl: Placement, priorityOf: int -> int, p: Point)
  {
    Encodes(fp, p, pl) && ShowsPriorities(fp, pl, priorityOf, p) && ShowsCrossings(fp, pl, p)
  }

  ghost predicate ValidPriorities(fp: FlowProblem, pl: Placement, priorityOf: int -> int)
  {
    forall k :: 1 <= k <= pl.last ==> 1 <= priorityOf(k) <= fp.priorityCount
  }

  ghost predicate SingleSources(fp: FlowProblem)
  {
    forall v :: v in fp.variants ==> SingleSource(fp.topologyOf(v).edges)
  }

  // ----- the variable types

  lemma PriorityShown(fp: FlowProblem, pl: Placement, priorityOf: int -> int, p: Point, k: int, w: WorkerId)
    requires Valid(fp, pl) && ValidPriorities(fp, pl, priorityOf) && Encodes(fp, p, pl)
    requires ShowsPriorities(fp, pl, priorityOf, p) && 1 <= k <= fp.maxComponents && w in fp.workers
    ensures WorkerDomain(fp, p, k, w)
  {
    hide Valid, Populated;
    assert EncodesWorkers(fp, p, pl, k);
    var keys, f := Range(1, fp.priorityCount + 1), PriorityAt(fp, k, w, p);
    forall r | r in keys ensures f(r) == Indicator(Chosen(pl, priorityOf, k, w, r)) { }
    if 1 <= k <= pl.last && w == pl.workerOf(k) {
      SumSingle(keys, f, priorityOf(k));
    } else {
      SumZero(keys, f);
    }
  }

  lemma ShownDomain(fp: FlowProblem, pl: Placement, priorityOf: int -> int, p: Point)
    requires Valid(fp, pl) && ValidPriorities(fp, pl, priorityOf) && Shows(fp, pl, priorityOf, p)
    ensures Domain(fp, p)
  {
    hide Valid, ShowsPriorities, ShowsCrossings, WorkerDomain, ValidPriorities;
    forall k | 1 <= k <= fp.maxComponents ensures ComponentDomain(fp, p, k) {
      forall w | w in fp.workers ensures WorkerDomain(fp, p, k, w) {
        PriorityShown(fp, pl, priorityOf, p, k, w);
      }
    }
    forall v | v in fp.variants ensures LayersBinary(fp, p, v) {
      assert EncodesVariant(fp, p, pl, v);
    }
  }

  // ----- the crossing rows

  lemma CrossingShown(fp: FlowProblem, pl: Placement, p: Point, v: ModelVariantId, x: TensorKey, cut: int)
    requires WellFormed(fp) && Valid(fp, pl) && Encodes(fp, p, pl) && ShowsCrossings(fp, pl, p)
    requires v in fp.variants && SingleSource(fp.topologyOf(v).edges) && WellFormedTopology(fp.topologyOf(v))
    requires x in RoutedTensors(fp.topologyOf(v).edges) && 1 <= cut < fp.maxComponents
    ensures CrossingRows(fp, v, x, cut, p)
  {
    hide Acyclic, Encodes, Valid, WellFormed, MaximalDestinations, Producer, RoutedTensors, Crosses, CrossingOf;
    MaximalCrossings(fp, p, pl, v, x, cut);
    var t := fp.topologyOf(v);
    var maximal, f := MaximalDestinations(t, x), CrossingOf(fp, v, Producer(t.edges, x), cut, p);
    if v == pl.variant && Crosses(t, pl, x, cut) {
      var d :| d in maximal && f(d) == 1.0;
      TermAtMostSum(maximal, f, d);
    } else {
      SumNonNegative(maximal, f);
    }
  }

  lemma ShownCrossings(fp: FlowProblem, pl: Placement, p: Point)
    requires WellFormed(fp) && SingleSources(fp) && Valid(fp, pl) && Encodes(fp, p, pl) && ShowsCrossings(fp, pl, p)
    ensures AllCrossingRows(fp, p)
  {
    hide Acyclic, Encodes, Valid, ShowsCrossings, CrossingRows, RoutedTensors, SingleSource;
    forall v | v in fp.variants ensures VariantCrossingRows(fp, v, p) {
      assert WellFormedTopology(fp.topologyOf(v));
      forall x, cut | x in RoutedTensors(fp.topologyOf(v).edges) && 1 <= cut < fp.maxComponents
        ensures CrossingRows(fp, v, x, cut, p)
      {
        CrossingShown(fp, pl, p, v, x, cut);
      }
    }
  }

  /** A point that shows a valid placement and its priorities is within the variable types and satisfies every row. */
  lemma ShownIsAdmitted(fp: FlowProblem, pl: Placement, priorityOf: int -> int, p: Point)
    requires WellFormed(fp) && SingleSources(fp) && Valid(fp, pl) && ValidPriorities(fp, pl, priorityOf)
    requires Shows(fp, pl, priorityOf, p)
    ensures Encodes(fp, p, pl) && Domain(fp, p) && StructureRows(fp, p)
  {
    hide Encodes, Valid, WellFormed, Domain, ShowsPriorities, ShowsCrossings, SingleSources, ValidPriorities;
    hide AssignmentRows, AllCrossingRows;
    ShownDomain(fp, pl, priorityOf, p);
    PlacementSatisfiesRows(fp, p, pl);
    ShownCrossings(fp, pl, p);
  }

  // ----- such a point exists, for all flows at once

  ghost function StructureValue(
    problemOf: FlowId -> FlowProblem, placementOf: FlowId -> Placement, priorityOf: (FlowId, int) -> int, x: Var): real
  {
    match x
    case ModelSelected(f, v) => Indicator(v == placementOf(f).variant)
    case LayerComponent(f, v, l, k) => Indicator(v == placementOf(f).variant && placementOf(f).componentOf(l) == k)
    case ComponentActive(f, k) => Indicator(k <= placementOf(f).last)
    case ComponentLast(f, k) => Indicator(k == placementOf(f).last)
    case ComponentWorker(f, k, w) => Indicator(k <= placementOf(f).last && w == placementOf(f).workerOf(k))
    case ComponentPriority(f, k, w, r) => Indicator(Chosen(placementOf(f), PrioritiesOf(priorityOf, f), k, w, r))
    case TensorCrossing(f, v, tensor, cut) =>
      var t := problemOf(f).topologyOf(v);
      Indicator(v == placementOf(f).variant && tensor in RoutedTensors(t.edges) && Crosses(t, placementOf(f), tensor, cut))
    case _ => 0.0
  }

  function PrioritiesOf(priorityOf: (FlowId, int) -> int, f: FlowId): int -> int
  {
    k => priorityOf(f, k)
  }

  predicate IsStructural(x: Var)
  {
    || x.ModelSelected? || x.LayerComponent? || x.ComponentActive? || x.ComponentLast? || x.ComponentWorker?
    || x.ComponentPriority? || x.TensorCrossing?
  }

  /** The point agrees with the placements on the structural variables. */
  ghost predicate IsStructurePoint(
    problemOf: FlowId -> FlowProblem, placementOf: FlowId -> Placement, priorityOf: (FlowId, int) -> int, p: Point)
  {
    forall x {:trigger p(x)} :: IsStructural(x) ==> p(x) == StructureValue(problemOf, placementOf, priorityOf, x)
  }

  lemma StructureShows(problemOf: FlowId -> FlowProblem, placementOf: FlowId -> Placement,
                       priorityOf: (FlowId, int) -> int, p: Point, f: FlowId)
    requires IsStructurePoint(problemOf, placementOf, priorityOf, p) && problemOf(f).flow == f
    ensures Shows(problemOf(f), placementOf(f), PrioritiesOf(priorityOf, f), p)
  {
    hide Chosen, Crosses, RoutedTensors;
    var fp, pl := problemOf(f), placementOf(f);
    forall v | v in fp.variants ensures EncodesVariant(fp, p, pl, v) { }
    forall k | 1 <= k <= fp.maxComponents ensures EncodesWorkers(fp, p, pl, k) { }
  }
}
