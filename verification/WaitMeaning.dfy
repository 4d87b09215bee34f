/**
 What the wait rows of compact_execution_queue.py say about one component and one queue, each as a condition
 without rows.
 */
module WaitMeaning {
  import opened Lp
  import opened Sums
  import opened BinLimits
  import opened ExecutionQueue
  import opened WaitBounds

  // ----- the wait of one component, from the waits of the queues

  /** The bound of a queue: the bound of its worker, lowered for the first priority. */
  function QueueBound(cp: ComputeProblem, w: WorkerId, r: int): real
  {
    if r == 1 then cp.maxWaitOfWorker(w) - cp.utilizationLimit * cp.maxWaitOfWorker(w) else cp.maxWaitOfWorker(w)
  }

  ghost predicate QueuesBounded(cp: ComputeProblem, f: FlowId, p: Point)
  {
    && 0.0 <= cp.utilizationLimit <= 1.0
    && (forall v :: v in cp.workersByFlow(f) ==> 0.0 <= cp.maxWaitOfWorker(v) <= cp.maxWaitOfFlow(f))
    && forall v, q :: v in cp.workersByFlow(f) && 1 <= q <= cp.priorityCount ==>
         0.0 <= p(QueueWait(v, q)) <= QueueBound(cp, v, q)
  }

  /** The component is active and runs at the given worker and priority only. */
  ghost predicate RunsAt(cp: ComputeProblem, f: FlowId, k: int, w: WorkerId, r: int, p: Point)
  {
    && p(ComponentActive(f, k)) == 1.0 && w in cp.workersByFlow(f) && 1 <= r <= cp.priorityCount
    && p(ComponentPriority(f, k, w, r)) == 1.0 && OtherChoicesOff(cp, f, k, w, r, p)
  }

  ghost predicate RunsNowhere(cp: ComputeProblem, f: FlowId, k: int, p: Point)
  {
    && p(ComponentActive(f, k)) == 0.0
    && forall v, q :: v in cp.workersByFlow(f) && 1 <= q <= cp.priorityCount ==> p(ComponentPriority(f, k, v, q)) == 0.0
  }

  lemma UpperIsBound(cp: ComputeProblem, w: WorkerId, r: int)
    requires 0.0 <= cp.utilizationLimit && 0.0 <= cp.maxWaitOfWorker(w)
    ensures WaitUpper(cp, w, r) == QueueBound(cp, w, r) <= cp.maxWaitOfWorker(w)
  {
    Scale(cp.maxWaitOfWorker(w), 0.0, cp.utilizationLimit);
  }

  lemma OffRowHolds(f: FlowId, k: int, w: WorkerId, r: int, bound: real, p: Point)
    requires p(ComponentPriority(f, k, w, r)) == 0.0 && p(QueueWait(w, r)) <= bound && p(ComponentQueueWait(f, k)) >= 0.0
    ensures ActivationRow(f, k, w, r, bound, p)
  {
  }

  lemma OnRowMeans(f: FlowId, k: int, w: WorkerId, r: int, bound: real, p: Point)
    requires p(ComponentPriority(f, k, w, r)) == 1.0
    ensures ActivationRow(f, k, w, r, bound, p) <==> p(ComponentQueueWait(f, k)) >= p(QueueWait(w, r))
  {
  }

  lemma RowsAt(cp: ComputeProblem, f: FlowId, k: int, v: WorkerId, q: int, p: Point)
    requires QueuesBounded(cp, f, p) && v in cp.workersByFlow(f) && 1 <= q <= cp.priorityCount
    requires p(ComponentQueueWait(f, k)) >= 0.0 && IsBinary(p(ComponentPriority(f, k, v, q)))
    ensures (ActivationRow(f, k, v, q, cp.maxWaitOfWorker(v), p) && ActivationRow(f, k, v, q, WaitUpper(cp, v, q), p))
       <==> (p(ComponentPriority(f, k, v, q)) == 1.0 ==> p(ComponentQueueWait(f, k)) >= p(QueueWait(v, q)))
  {
    hide ActivationRow, WaitUpper;
    UpperIsBound(cp, v, q);
    if p(ComponentPriority(f, k, v, q)) == 1.0 {
      OnRowMeans(f, k, v, q, cp.maxWaitOfWorker(v), p);
      OnRowMeans(f, k, v, q, WaitUpper(cp, v, q), p);
    } else {
      OffRowHolds(f, k, v, q, cp.maxWaitOfWorker(v), p);
      OffRowHolds(f, k, v, q, WaitUpper(cp, v, q), p);
    }
  }

  /** An active component waits at least as long as its queue, and at most as long as the bound of its queue. */
  lemma ActiveWaitExact(cp: ComputeProblem, f: FlowId, k: int, w: WorkerId, r: int, p: Point)
    requires Distinct(cp.workersByFlow(f)) && QueuesBounded(cp, f, p) && RunsAt(cp, f, k, w, r, p)
    requires p(ComponentQueueWait(f, k)) >= 0.0
    ensures ComponentWaitRows(cp, f, k, p)
       <==> p(QueueWait(w, r)) <= p(ComponentQueueWait(f, k)) <= QueueBound(cp, w, r)
  {
    hide ActivationRow, WaitUpper, QueueBound;
    forall v, q | v in cp.workersByFlow(f) && 1 <= q <= cp.priorityCount
      ensures (ActivationRow(f, k, v, q, cp.maxWaitOfWorker(v), p) && ActivationRow(f, k, v, q, WaitUpper(cp, v, q), p))
         <==> (v == w && q == r ==> p(ComponentQueueWait(f, k)) >= p(QueueWait(w, r)))
    {
      RowsAt(cp, f, k, v, q, p);
    }
    UpperIsBound(cp, w, r);
    ChosenBound(cp, f, k, w, r, p);
    if ComponentWaitRows(cp, f, k, p) {
      assert ActivationRows(cp, f, k, w, p);
    }
  }

  lemma ChosenBound(cp: ComputeProblem, f: FlowId, k: int, w: WorkerId, r: int, p: Point)
    requires Distinct(cp.workersByFlow(f)) && RunsAt(cp, f, k, w, r, p)
    ensures SumOver(cp.workersByFlow(f), ChosenUpperOf(cp, f, k, p)) == WaitUpper(cp, w, r)
  {
    hide WaitUpper;
    var keys := Range(1, cp.priorityCount + 1);
    forall v, q | v in cp.workersByFlow(f) && q in keys && (v != w || q != r)
      ensures ChosenUpper(cp, f, k, v, p)(q) == 0.0
    {
      assert p(ComponentPriority(f, k, v, q)) == 0.0;
    }
    forall v | v in cp.workersByFlow(f) && v != w ensures ChosenUpperOf(cp, f, k, p)(v) == 0.0 {
      SumZero(keys, ChosenUpper(cp, f, k, v, p));
    }
    SumSingle(keys, ChosenUpper(cp, f, k, w, p), r);
    SumSingle(cp.workersByFlow(f), ChosenUpperOf(cp, f, k, p), w);
  }

  /** An inactive component does not wait. */
  lemma InactiveWaitExact(cp: ComputeProblem, f: FlowId, k: int, p: Point)
    requires QueuesBounded(cp, f, p) && RunsNowhere(cp, f, k, p) && p(ComponentQueueWait(f, k)) >= 0.0
    ensures ComponentWaitRows(cp, f, k, p) <==> p(ComponentQueueWait(f, k)) == 0.0
  {
    hide ActivationRow, WaitUpper, QueueBound;
    forall v, q | v in cp.workersByFlow(f) && 1 <= q <= cp.priorityCount
      ensures ActivationRow(f, k, v, q, cp.maxWaitOfWorker(v), p) && ActivationRow(f, k, v, q, WaitUpper(cp, v, q), p)
    {
      RowsAt(cp, f, k, v, q, p);
    }
    var keys := Range(1, cp.priorityCount + 1);
    forall v | v in cp.workersByFlow(f) ensures ChosenUpperOf(cp, f, k, p)(v) == 0.0 {
      forall q | q in keys ensures ChosenUpper(cp, f, k, v, p)(q) == 0.0 {
        assert p(ComponentPriority(f, k, v, q)) == 0.0;
      }
      SumZero(keys, ChosenUpper(cp, f, k, v, p));
    }
    SumZero(cp.workersByFlow(f), ChosenUpperOf(cp, f, k, p));
  }

  // ----- the bounds of one queue

  /** With a selected bin, the bounds say: at most the bound of the worker, and its share for the bin. */
  lemma QueueBoundsExact(cp: ComputeProblem, e: real, w: WorkerId, r: int, bin: int, p: Point)
    requires GeometricGrid(cp.binLimits, cp.utilizationLimit, e) && 0.0 <= cp.utilizationLimit < 1.0
    requires r == 1 || (r >= 2 && SelectedBin(cp, w, r, p, bin) && p(QueueWaitBin(w, r, bin)) == p(QueueWait(w, r)))
    ensures CompactQueueRows(cp, w, r, p) <==>
            if r == 1 then p(QueueWait(w, r)) <= cp.maxWaitOfWorker(w) * (1.0 - cp.utilizationLimit)
            else p(QueueWait(w, r)) <= cp.maxWaitOfWorker(w)
                 && ScaledWithin(p(QueueWait(w, r)), Limit(cp, bin), cp.maxWaitOfWorker(w), cp.utilizationLimit)
  {
    hide BinUpper, Limit, GeometricGrid;
    if r >= 2 {
      LimitWithin(cp, e, bin);
      BinUpperMeans(cp, w, bin, p(QueueWait(w, r)));
      forall i | 1 <= i < |cp.binLimits| && i != bin ensures BinWaitRow(w, r, BinUpper(cp, w, i), i, p) {
        OffBinRow(w, r, BinUpper(cp, w, i), i, p);
      }
      assert BinWaitRow(w, r, BinUpper(cp, w, bin), bin, p) <==> p(QueueWait(w, r)) <= BinUpper(cp, w, bin);
    }
  }

  lemma OffBinRow(w: WorkerId, r: int, bound: real, i: int, p: Point)
    requires p(ComputeBinSelected(w, r, i)) == 0.0 && p(QueueWaitBin(w, r, i)) == 0.0
    ensures BinWaitRow(w, r, bound, i, p)
  {
  }

  lemma BinUpperMeans(cp: ComputeProblem, w: WorkerId, i: int, wait: real)
    requires 0.0 <= Limit(cp, i) <= cp.utilizationLimit < 1.0
    ensures wait <= BinUpper(cp, w, i) <==> ScaledWithin(wait, Limit(cp, i), cp.maxWaitOfWorker(w), cp.utilizationLimit)
  {
    hide Limit;
    var rest, a := 1.0 - Limit(cp, i), cp.maxWaitOfWorker(w) * (1.0 - cp.utilizationLimit);
    var q := a / rest;
    assert q * rest == a;
    if wait <= q { Scale(rest, wait, q); } else { ScaleStrict(rest, q, wait); }
  }
}
