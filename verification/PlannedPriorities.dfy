/** Where the plans put things: every replica with the priority that the solver chose, every flow between its two workers. */
module PlannedPriorities {
  import opened Lp
  import opened FlowSolutions
  import opened FlowRoutes
  import opened Plans
  import opened ReplicaIds
  import opened PlanBuilder
  import opened PlanGluing

  /** The plan schedules the hop with this number. */
  predicate Schedules(p: WorkerPlan, a: HopAddress, priority: int)
  {
    exists i :: 0 <= i < |p.priorityKeys| && i < |p.priorities| && p.priorityKeys[i] == a && p.priorities[i] == priority
  }

  lemma {:induction false} HopScheduled(version: nat, hops: seq<PlacedHop>, w: WorkerId, a: HopAddress, priority: int)
    requires DistinctHops(hops)
    ensures Schedules(PlanOf(version, hops, w), a, priority) <==>
            exists h :: h in hops && h.worker == w && h.address == a && a.hop.Partition? && h.priority == priority
  {
    if hops != [] {
      var init, last := hops[..|hops| - 1], hops[|hops| - 1];
      HopScheduled(version, init, w, a, priority);
      PlanListsHops(version, init, w);
      assert forall h :: h in hops <==> h in init || h == last;
      if last.worker == w && last.address.hop.Partition? {
        OneMoreScheduled(PlanOf(version, init, w), last, a, priority);
      } else if last.worker == w {
        NothingScheduled(PlanOf(version, init, w), last);
      }
    }
  }

  lemma NothingScheduled(p: WorkerPlan, h: PlacedHop)
    requires !h.address.hop.Partition?
    ensures Extended(p, h).priorityKeys == p.priorityKeys && Extended(p, h).priorities == p.priorities
  {
    assert p.priorityKeys + [] == p.priorityKeys && p.priorities + [] == p.priorities;
  }

  lemma OneMoreScheduled(p: WorkerPlan, h: PlacedHop, a: HopAddress, priority: int)
    requires |p.priorityKeys| == |p.priorities| && h.address.hop.Partition?
    ensures Schedules(Extended(p, h), a, priority) <==>
            Schedules(p, a, priority) || (h.address == a && h.priority == priority)
  {
    var q, n := Extended(p, h), |p.priorityKeys|;
    assert q.priorityKeys == p.priorityKeys + [h.address] && q.priorities == p.priorities + [h.priority];
    if h.address == a && h.priority == priority {
      assert q.priorityKeys[n] == a && q.priorities[n] == priority;
    }
    if Schedules(p, a, priority) {
      var i :| 0 <= i < n && p.priorityKeys[i] == a && p.priorities[i] == priority;
      assert q.priorityKeys[i] == a && q.priorities[i] == priority;
    }
  }

  /** The replica of component c of flow s, as the plans name it. */
  function ReplicaOf(s: FlowSolution, ids: ReplicasByFlow, c: ComponentSolution): HopAddress
    requires s.flow in ids && c.index in ids[s.flow]
  {
    HopAddress(s.flow, ids[s.flow][c.index])
  }

  ghost predicate IsReplica(s: FlowSolution, ids: ReplicasByFlow, c: ComponentSolution, a: HopAddress)
    requires ExecutableComponents(s).Ok?
  {
    && c in ExecutableComponents(s).value && s.flow in ids && c.index in ids[s.flow] && a == ReplicaOf(s, ids, c)
  }

  /**
   A worker's plan schedules exactly the replicas of the components that the solution puts on the worker, each
   with the priority of its component.
   */
  lemma {:induction false} PlansSchedule(version: nat, solution: seq<FlowSolution>, ids: ReplicasByFlow,
                                         ends: map<FlowId, Endpoints>, w: WorkerId, a: HopAddress, priority: int)
    requires AllIdentified(solution, ids, ends) && DistinctHops(AllHops(solution, ids, ends))
    requires forall s :: s in solution ==> Routable(s) && ExecutableComponents(s).Ok?
    ensures Schedules(PlanOf(version, AllHops(solution, ids, ends), w), a, priority) <==>
            exists s, c :: s in solution && IsReplica(s, ids, c, a) && c.worker == w && c.priority == priority
  {
    hide PlanOf, AllHops, Chain, Identified, ExecutableComponents, Routable, DistinctHops, PartitionOf;
    var hops := AllHops(solution, ids, ends);
    HopScheduled(version, hops, w, a, priority);
    if h :| h in hops && h.worker == w && h.address == a && a.hop.Partition? && h.priority == priority {
      var s := HopsOfSomeFlow(solution, ids, ends, h);
      var c := ComponentOfHop(s, ids[s.flow], ends[s.flow], h);
      assert IsReplica(s, ids, c, a);
    }
    if s, c :| s in solution && IsReplica(s, ids, c, a) && c.worker == w && c.priority == priority {
      var h := HopOfComponent(s, ids[s.flow], ends[s.flow], c);
      ChainInAllHops(solution, ids, ends, s);
      assert h in hops;
    }
  }

  /** The plan of its worker schedules every executable component with its own priority. */
  lemma {:induction false} ComponentScheduled(
    version: nat, solution: seq<FlowSolution>, ids: ReplicasByFlow, ends: map<FlowId, Endpoints>,
    plans: map<WorkerId, WorkerPlan>, s: FlowSolution, c: ComponentSolution)
    requires AllIdentified(solution, ids, ends) && DistinctHops(AllHops(solution, ids, ends))
    requires Drafted(version, AllHops(solution, ids, ends), plans)
    requires forall r :: r in solution ==> Routable(r) && ExecutableComponents(r).Ok?
    requires s in solution && c in ExecutableComponents(s).value
    ensures c.index in ids[s.flow] && c.worker in plans
    ensures Schedules(plans[c.worker], ReplicaOf(s, ids, c), c.priority)
  {
    hide PlanOf, AllHops, Chain, Identified, ExecutableComponents, Routable, DistinctHops, PartitionOf, Schedules;
    var h := HopOfComponent(s, ids[s.flow], ends[s.flow], c);
    ChainInAllHops(solution, ids, ends, s);
    assert h in AllHops(solution, ids, ends);
    assert IsReplica(s, ids, c, ReplicaOf(s, ids, c));
    PlansSchedule(version, solution, ids, ends, c.worker, ReplicaOf(s, ids, c), c.priority);
  }

  // ----- the ends of a flow

  /** The worker takes the flow in, or sinks it, through the hop. */
  predicate HostsEnd(plans: map<WorkerId, WorkerPlan>, w: WorkerId, a: HopAddress)
  {
    && w in plans && a in plans[w].addresses
    && (a.hop.Ingress? ==> a.hop in plans[w].ingressHops) && (a.hop.Sink? ==> a.hop in plans[w].sinkHops)
  }

  /** A flow enters at its ingress worker and leaves at its sink worker, and nowhere else. */
  lemma {:induction false} EndsPlaced(
    version: nat, solution: seq<FlowSolution>, ids: ReplicasByFlow, ends: map<FlowId, Endpoints>,
    plans: map<WorkerId, WorkerPlan>, s: FlowSolution, w: WorkerId)
    requires AllIdentified(solution, ids, ends) && DistinctHops(AllHops(solution, ids, ends))
    requires Drafted(version, AllHops(solution, ids, ends), plans) && s in solution && Routable(s)
    ensures s.flow in ends
    ensures HostsEnd(plans, w, HopAddress(s.flow, ends[s.flow].ingress)) <==> w == s.ingressWorker
    ensures HostsEnd(plans, w, HopAddress(s.flow, ends[s.flow].sink)) <==> w == s.sinkWorker
  {
    hide PlanOf, AllHops, Chain, Routable, Drafted, HostsEnd;
    var hops := AllHops(solution, ids, ends);
    var g, h := EndsOfChain(s, ids[s.flow], ends[s.flow]);
    ChainInAllHops(solution, ids, ends, s);
    EndHosted(version, hops, plans, g, w);
    EndHosted(version, hops, plans, h, w);
  }

  lemma EndsOfChain(s: FlowSolution, replicas: map<int, Hop>, ends: Endpoints) returns (g: PlacedHop, h: PlacedHop)
    requires Identified(s, replicas, ends) && Routable(s)
    ensures g in Chain(s, replicas, ends) && g.worker == s.ingressWorker && g.address == HopAddress(s.flow, ends.ingress)
    ensures h in Chain(s, replicas, ends) && h.worker == s.sinkWorker && h.address == HopAddress(s.flow, ends.sink)
  {
    var chain := Chain(s, replicas, ends);
    g, h := chain[0], chain[|chain| - 1];
  }

  lemma {:induction false} EndHosted(version: nat, hops: seq<PlacedHop>, plans: map<WorkerId, WorkerPlan>, h: PlacedHop,
                                     w: WorkerId)
    requires DistinctHops(hops) && Drafted(version, hops, plans) && h in hops
    ensures HostsEnd(plans, w, h.address) <==> w == h.worker
  {
    hide PlanOf, DistinctHops;
    HopOnOneWorker(version, hops, h, w);
    if w == h.worker {
      PlanListsHops(version, hops, w);
    }
  }
}
