/**
 The plans of all workers fit together: every hop has its own id and lives on one worker, the routings of
 neighbouring hops match, and no validity check of the plan classes fires.
 */
module PlanGluing {
  import opened Lp
  import opened Sums
  import opened ModelTopology
  import opened Assignment
  import opened Structure
  import opened FlowSolutions
  import opened FlowRoutes
  import opened Plans
  import opened ReplicaIds
  import opened PlanBuilder

  ghost predicate DistinctHops(hops: seq<PlacedHop>)
  {
    forall i, j :: 0 <= i < j < |hops| ==> hops[i].address.hop != hops[j].address.hop
  }

  // ----- the lists of one plan

  ghost predicate Lists(hops: seq<PlacedHop>, w: WorkerId, kind: Hop -> bool, listed: seq<Hop>)
  {
    && Distinct(listed)
    && forall x :: x in listed <==> kind(x) && exists h :: h in hops && h.worker == w && h.address.hop == x
  }

  ghost predicate ListsAddresses(hops: seq<PlacedHop>, w: WorkerId, kind: Hop -> bool, listed: seq<HopAddress>)
  {
    && Distinct(listed)
    && forall a :: a in listed <==> kind(a.hop) && exists h :: h in hops && h.worker == w && h.address == a
  }

  function AnyHop(): Hop -> bool { (h: Hop) => true }
  function IsPartition(): Hop -> bool { (h: Hop) => h.Partition? }
  function IsIngress(): Hop -> bool { (h: Hop) => h.Ingress? }
  function IsSink(): Hop -> bool { (h: Hop) => h.Sink? }

  /** Appending the next hop, if it is on this worker and of this kind, keeps a list exact. */
  lemma ListGrows(hops: seq<PlacedHop>, last: PlacedHop, w: WorkerId, kind: Hop -> bool, listed: seq<Hop>)
    requires Lists(hops, w, kind, listed) && DistinctHops(hops + [last])
    ensures Lists(hops + [last], w, kind,
                  if last.worker == w && kind(last.address.hop) then listed + [last.address.hop] else listed)
  {
    var all, x := hops + [last], last.address.hop;
    assert all[|hops|] == last;
    forall h | h in hops ensures h in all && h.address.hop != x {
      var i :| 0 <= i < |hops| && hops[i] == h;
      assert all[i] == h;
    }
    assert last in all && forall h :: h in all ==> h in hops || h == last;
    if last.worker == w && kind(x) {
      assert x !in listed;
    }
  }

  lemma AddressListGrows(hops: seq<PlacedHop>, last: PlacedHop, w: WorkerId, kind: Hop -> bool, listed: seq<HopAddress>)
    requires ListsAddresses(hops, w, kind, listed) && DistinctHops(hops + [last])
    ensures ListsAddresses(hops + [last], w, kind,
                           if last.worker == w && kind(last.address.hop) then listed + [last.address] else listed)
  {
    var all, a := hops + [last], last.address;
    assert all[|hops|] == last;
    forall h | h in hops ensures h in all && h.address != a {
      var i :| 0 <= i < |hops| && hops[i] == h;
      assert all[i] == h;
    }
    assert last in all && forall h :: h in all ==> h in hops || h == last;
    if last.worker == w && kind(a.hop) {
      assert a !in listed;
    }
  }

  ghost predicate PlanLists(hops: seq<PlacedHop>, w: WorkerId, p: WorkerPlan)
  {
    && ListsAddresses(hops, w, AnyHop(), p.addresses)
    && Lists(hops, w, IsPartition(), p.executableHops)
    && Lists(hops, w, IsIngress(), p.ingressHops)
    && Lists(hops, w, IsSink(), p.sinkHops)
    && ListsAddresses(hops, w, IsPartition(), p.priorityKeys)
    && |p.addresses| == |p.routings| && |p.priorityKeys| == |p.priorities|
  }

  lemma {:induction false} PlanListsHops(version: nat, hops: seq<PlacedHop>, w: WorkerId)
    requires DistinctHops(hops)
    ensures PlanLists(hops, w, PlanOf(version, hops, w))
  {
    if hops == [] {
      NothingListed(version, w);
    } else {
      var init, last := hops[..|hops| - 1], hops[|hops| - 1];
      assert hops == init + [last];
      PlanListsHops(version, init, w);
      PlanListGrows(version, init, last, w);
    }
  }

  lemma NothingListed(version: nat, w: WorkerId)
    ensures PlanLists([], w, EmptyPlan(version))
  {
  }

  lemma {:induction false} PlanListGrows(version: nat, init: seq<PlacedHop>, last: PlacedHop, w: WorkerId)
    requires DistinctHops(init + [last]) && PlanLists(init, w, PlanOf(version, init, w))
    ensures PlanLists(init + [last], w, PlanOf(version, init + [last], w))
  {
    hide Lists, ListsAddresses, DistinctHops;
    var p := PlanOf(version, init, w);
    assert (init + [last])[..|init + [last]| - 1] == init;
    assert p.executableHops + [] == p.executableHops && p.ingressHops + [] == p.ingressHops;
    assert p.sinkHops + [] == p.sinkHops && p.priorityKeys + [] == p.priorityKeys;
    AddressListGrows(init, last, w, AnyHop(), p.addresses);
    ListGrows(init, last, w, IsPartition(), p.executableHops);
    ListGrows(init, last, w, IsIngress(), p.ingressHops);
    ListGrows(init, last, w, IsSink(), p.sinkHops);
    AddressListGrows(init, last, w, IsPartition(), p.priorityKeys);
  }

  lemma {:induction false} PrioritiesFromHops(version: nat, hops: seq<PlacedHop>, w: WorkerId)
    requires forall h :: h in hops ==> h.priority >= 0
    ensures forall i :: 0 <= i < |PlanOf(version, hops, w).priorities| ==> PlanOf(version, hops, w).priorities[i] >= 0
  {
    if hops != [] {
      PrioritiesFromHops(version, hops[..|hops| - 1], w);
    }
  }

  /** No check of the plan classes can fail. */
  lemma {:induction false} PlanIsValid(version: nat, hops: seq<PlacedHop>, w: WorkerId)
    requires DistinctHops(hops) && ProperHops(hops) && Consistent(hops)
    requires forall h :: h in hops ==> h.priority >= 0
    ensures ValidPlan(PlanOf(version, hops, w))
  {
    hide PlanOf, DistinctHops, Consistent;
    var p := PlanOf(version, hops, w);
    PlanListsHops(version, hops, w);
    PrioritiesFromHops(version, hops, w);
    SchemesOf(version, hops, w);
    DeployedAreRouted(hops, w, p);
    DeployedHaveSchemes(hops, w, p);
    ScheduledAreDeployed(hops, w, p);
  }

  lemma DeployedAreRouted(hops: seq<PlacedHop>, w: WorkerId, p: WorkerPlan)
    requires PlanLists(hops, w, p) && ProperHops(hops)
    ensures (set h | h in p.executableHops + p.ingressHops + p.sinkHops) == HopsOf(p.addresses)
  {
    forall x ensures x in p.executableHops + p.ingressHops + p.sinkHops <==> x in HopsOf(p.addresses) {
      if x in HopsOf(p.addresses) {
        var a :| a in p.addresses && a.hop == x;
        var h :| h in hops && h.worker == w && h.address == a;
        assert ProperHop(h);
      }
      if x in p.executableHops + p.ingressHops + p.sinkHops {
        var h :| h in hops && h.worker == w && h.address.hop == x;
        assert h.address in p.addresses;
      }
    }
  }

  lemma DeployedHaveSchemes(hops: seq<PlacedHop>, w: WorkerId, p: WorkerPlan)
    requires PlanLists(hops, w, p)
    requires forall id :: id in p.schemes
                     <==> exists h :: h in hops && h.worker == w && h.address.hop.Partition? && h.address.hop.id == id
    ensures PartitionsOf(p.executableHops) == p.schemes.Keys
  {
    forall id ensures id in PartitionsOf(p.executableHops) <==> id in p.schemes {
      if id in p.schemes {
        var h :| h in hops && h.worker == w && h.address.hop.Partition? && h.address.hop.id == id;
        assert IsPartition()(h.address.hop);
        assert h.address.hop in p.executableHops;
      }
    }
  }

  lemma ScheduledAreDeployed(hops: seq<PlacedHop>, w: WorkerId, p: WorkerPlan)
    requires PlanLists(hops, w, p)
    ensures HopsOf(p.priorityKeys) <= set h | h in p.executableHops
  {
    forall x | x in HopsOf(p.priorityKeys) ensures x in p.executableHops {
      var a :| a in p.priorityKeys && a.hop == x;
      var h :| h in hops && h.worker == w && h.address == a;
    }
  }

  // ----- finding a hop in the plans

  lemma SameHop(hops: seq<PlacedHop>, g: PlacedHop, h: PlacedHop)
    requires DistinctHops(hops) && g in hops && h in hops && g.address.hop == h.address.hop
    ensures g == h
  {
    var i :| 0 <= i < |hops| && hops[i] == g;
    var j :| 0 <= j < |hops| && hops[j] == h;
  }

  ghost predicate ListedAt(p: WorkerPlan, h: PlacedHop, i: nat)
  {
    i < |p.addresses| && i < |p.routings| && p.addresses[i] == h.address && p.routings[i] == h.routings
  }

  lemma {:induction false} HopListed(version: nat, hops: seq<PlacedHop>, h: PlacedHop) returns (i: nat)
    requires DistinctHops(hops) && h in hops
    ensures ListedAt(PlanOf(version, hops, h.worker), h, i)
  {
    var init, last := hops[..|hops| - 1], hops[|hops| - 1];
    PlanListsHops(version, init, h.worker);
    if h == last {
      i := |PlanOf(version, init, h.worker).addresses|;
    } else {
      i := HopListed(version, init, h);
    }
  }

  /** A worker's plan answers a lookup with the routings and the scheme that the hop was built with. */
  lemma {:induction false} HopFound(version: nat, hops: seq<PlacedHop>, h: PlacedHop)
    requires DistinctHops(hops) && ProperHops(hops) && Consistent(hops) && h in hops
    ensures RoutingsFor(PlanOf(version, hops, h.worker), h.address) == Ok(h.routings)
    ensures h.address.hop.Partition? ==>
              SchemeFor(PlanOf(version, hops, h.worker), h.address.hop.id) == Ok(h.scheme.value)
  {
    hide PlanOf, Consistent, DistinctHops;
    var p := PlanOf(version, hops, h.worker);
    var i := HopListed(version, hops, h);
    PlanListsHops(version, hops, h.worker);
    assert p.addresses[i] in p.addresses;
    var j := AddressIndex(p.addresses, h.address);
    assert j == i;
    SchemesOf(version, hops, h.worker);
  }

  /** No other worker knows the hop. */
  lemma {:induction false} HopOnOneWorker(version: nat, hops: seq<PlacedHop>, h: PlacedHop, w: WorkerId)
    requires DistinctHops(hops) && h in hops
    ensures h.address.hop in HopsOf(PlanOf(version, hops, w).addresses) <==> w == h.worker
  {
    hide PlanOf;
    var p := PlanOf(version, hops, w);
    PlanListsHops(version, hops, w);
    if h.address.hop in HopsOf(p.addresses) {
      var a :| a in p.addresses && a.hop == h.address.hop;
      var g :| g in hops && g.worker == w && g.address == a;
      SameHop(hops, g, h);
    }
    if w == h.worker {
      assert h.address in p.addresses;
    }
  }

  // ----- solutions as the solver and the id builders produce them

  ghost predicate SolvedFlow(fp: FlowProblem, pl: Placement, s: FlowSolution)
  {
    var t := fp.topologyOf(pl.variant);
    && Placed(fp, t, pl) && IsSolution(fp, pl, s)
    && exists l :: l in t.order && l !in t.inputs && l !in t.outputs
  }

  ghost predicate WellNumbered(solution: seq<FlowSolution>, ids: ReplicasByFlow, ends: map<FlowId, Endpoints>)
  {
    && DistinctFlows(solution)
    && IdsCover(solution, ids) && IdsDistinct(ids)
    && EndpointsCover(solution, ends) && EndpointsDistinct(ends)
  }

  /** What flows over link i of the chain. */
  ghost function FlowsOver(t: Topology, pl: Placement, i: int): set<TensorKey>
  {
    if i == 0 then EntryTensors(t)
    else if i == LastExecutable(t, pl) - FirstExecutable(t, pl) + 1 then ExitTensors(t)
    else CrossingSet(t, pl, FirstExecutable(t, pl) + i - 1)
  }

  lemma LinksOfSolution(fp: FlowProblem, pl: Placement, s: FlowSolution)
    requires SolvedFlow(fp, pl, s)
    ensures var t := fp.topologyOf(pl.variant);
            && 1 <= FirstExecutable(t, pl) <= LastExecutable(t, pl) <= pl.last
            && ExecutableComponents(s) == Ok(s.components[FirstExecutable(t, pl) - 1..LastExecutable(t, pl)])
            && Links(s).Ok? && |Links(s).value| == LastExecutable(t, pl) - FirstExecutable(t, pl) + 2
            && (forall i :: 0 <= i < |Links(s).value| ==> Links(s).value[i] == FlowsOver(t, pl, i))
            && Routable(s)
  {
    hide *;
    var t := fp.topologyOf(pl.variant);
    ExecutablesOf(fp, t, pl, s);
    var n := LastExecutable(t, pl) - FirstExecutable(t, pl) + 1;
    forall i | 0 <= i <= n ensures LinkCarries(s, t, pl, i) {
      LinkOfSolution(fp, t, pl, s, i);
    }
    LinksFrom(s, t, pl);
  }

  lemma ExecutablesOf(fp: FlowProblem, t: Topology, pl: Placement, s: FlowSolution)
    requires SolvedFlow(fp, pl, s) && t == fp.topologyOf(pl.variant)
    ensures 1 <= FirstExecutable(t, pl) <= LastExecutable(t, pl) <= pl.last == |s.components|
    ensures ExecutableComponents(s) == Ok(s.components[FirstExecutable(t, pl) - 1..LastExecutable(t, pl)])
  {
    hide FirstExecutable, LastExecutable, ExecutableComponents, Placed;
    ExecutableWindow(fp, t, pl, s);
  }

  ghost predicate LinkCarries(s: FlowSolution, t: Topology, pl: Placement, i: int)
    requires ExecutableComponents(s).Ok?
  {
    && 0 <= i <= |ExecutableComponents(s).value|
    && Link(s, ExecutableComponents(s).value, i) == Ok(FlowsOver(t, pl, i)) && FlowsOver(t, pl, i) != {}
  }

  lemma LinkOfSolution(fp: FlowProblem, t: Topology, pl: Placement, s: FlowSolution, i: int)
    requires SolvedFlow(fp, pl, s) && t == fp.topologyOf(pl.variant) && ExecutableComponents(s).Ok?
    requires 0 <= i <= LastExecutable(t, pl) - FirstExecutable(t, pl) + 1
    ensures LinkCarries(s, t, pl, i)
  {
    hide FirstExecutable, LastExecutable, ExecutableComponents, InputTensors, ResultTensors, TensorsBetween;
    hide EntryTensors, ExitTensors, CrossingSet, IsSolution, Placed;
    ExecutablesOf(fp, t, pl, s);
    var lo, hi := FirstExecutable(t, pl), LastExecutable(t, pl);
    var e := s.components[lo - 1..hi];
    EndsNonEmpty(fp, t, pl);
    if i == 0 {
      InputRoute(fp, t, pl, s);
    } else if i == |e| {
      ResultRoute(fp, t, pl, s);
    } else {
      MiddleRoute(fp, pl, s, lo - 1 + i);
      CrossingNonEmpty(fp, t, pl, lo + i - 1);
    }
  }

  lemma LinksFrom(s: FlowSolution, t: Topology, pl: Placement)
    requires ExecutableComponents(s).Ok?
    requires |ExecutableComponents(s).value| == LastExecutable(t, pl) - FirstExecutable(t, pl) + 1
    requires forall i :: 0 <= i <= |ExecutableComponents(s).value| ==> LinkCarries(s, t, pl, i)
    ensures && Links(s).Ok? && |Links(s).value| == LastExecutable(t, pl) - FirstExecutable(t, pl) + 2
            && (forall i :: 0 <= i < |Links(s).value| ==> Links(s).value[i] == FlowsOver(t, pl, i))
            && Routable(s)
  {
    hide ExecutableComponents, Link, FlowsOver, LinksUpTo, FirstExecutable, LastExecutable;
    forall i | 0 <= i <= |ExecutableComponents(s).value|
      ensures Link(s, ExecutableComponents(s).value, i) == Ok(FlowsOver(t, pl, i)) && FlowsOver(t, pl, i) != {}
    {
      assert LinkCarries(s, t, pl, i);
    }
    LinksUpToLinks(s, ExecutableComponents(s).value, |ExecutableComponents(s).value| + 1);
  }

  // ----- ids are unique

  /** Which ids a chain uses. */
  ghost predicate UsesOwnIds(s: FlowSolution, replicas: map<int, Hop>, ends: Endpoints, h: PlacedHop)
  {
    && h.address.flow == s.flow
    && (|| h.address.hop == ends.ingress || h.address.hop == ends.sink
        || exists k :: k in replicas && h.address.hop == replicas[k])
  }

  lemma ChainUsesOwnIds(s: FlowSolution, replicas: map<int, Hop>, ends: Endpoints)
    requires Identified(s, replicas, ends)
    ensures forall h :: h in Chain(s, replicas, ends) ==> UsesOwnIds(s, replicas, ends, h)
  {
    hide ExecutableComponents, LinksUpTo;
    var chain := Chain(s, replicas, ends);
    forall h | h in chain ensures UsesOwnIds(s, replicas, ends, h) {
      var e := ExecutableComponents(s).value;
      var j :| 0 <= j < |chain| && chain[j] == h;
      if 0 < j <= |e| {
        assert e[j - 1] in e && e[j - 1].index in replicas;
      }
    }
  }

  lemma ChainDistinct(s: FlowSolution, ids: ReplicasByFlow, ends: Endpoints)
    requires s.flow in ids && IdsDistinct(ids) && Identified(s, ids[s.flow], ends)
    ensures DistinctHops(Chain(s, ids[s.flow], ends))
  {
    hide LinksUpTo, ExecutableComponents, IdsDistinct, FlowCovered, ChainHop;
    var chain := Chain(s, ids[s.flow], ends);
    if Routable(s) {
      ExecutableIndexesDistinct(s);
      var e := ExecutableComponents(s).value;
      HopsOfChainDistinct(s, e, Links(s).value, ids, ends);
    }
  }

  lemma HopsOfChainDistinct(
    s: FlowSolution, e: seq<ComponentSolution>, links: seq<set<TensorKey>>, ids: ReplicasByFlow, ends: Endpoints)
    requires s.flow in ids && IdsDistinct(ids) && FlowCovered(s, e, ids[s.flow]) && DistinctIndexes(e)
    requires ends.ingress.Ingress? && ends.sink.Sink? && |links| == |e| + 1
    ensures DistinctHops(FirstHops(s, e, links, ids[s.flow], ends, |e| + 2))
  {
    hide PartitionOf;
    var chain := FirstHops(s, e, links, ids[s.flow], ends, |e| + 2);
    forall i, j | 0 <= i < j < |chain| ensures chain[i].address.hop != chain[j].address.hop {
      if 0 < i {
        assert e[i - 1] in e && Assigned(ids, s.flow, e[i - 1].index);
      }
      if j <= |e| {
        assert e[j - 1] in e && Assigned(ids, s.flow, e[j - 1].index);
      }
    }
  }

  lemma {:induction false} HopsOfSomeFlow(
    solution: seq<FlowSolution>, ids: ReplicasByFlow, ends: map<FlowId, Endpoints>, h: PlacedHop)
    returns (s: FlowSolution)
    requires AllIdentified(solution, ids, ends) && h in AllHops(solution, ids, ends)
    ensures s in solution && h in Chain(s, ids[s.flow], ends[s.flow])
  {
    hide Chain, Identified;
    var init, last := solution[..|solution| - 1], solution[|solution| - 1];
    if h in Chain(last, ids[last.flow], ends[last.flow]) {
      s := last;
    } else {
      s := HopsOfSomeFlow(init, ids, ends, h);
    }
  }

  lemma IdsDiffer(s: FlowSolution, r: FlowSolution, ids: ReplicasByFlow, ends: map<FlowId, Endpoints>,
                  g: PlacedHop, h: PlacedHop)
    requires s.flow != r.flow && IdsDistinct(ids) && EndpointsDistinct(ends)
    requires s.flow in ids && s.flow in ends && r.flow in ids && r.flow in ends
    requires forall f, k :: Assigned(ids, f, k) ==> ids[f][k].Partition?
    requires ends[s.flow].ingress.Ingress? && ends[s.flow].sink.Sink?
    requires ends[r.flow].ingress.Ingress? && ends[r.flow].sink.Sink?
    requires UsesOwnIds(s, ids[s.flow], ends[s.flow], g) && UsesOwnIds(r, ids[r.flow], ends[r.flow], h)
    ensures g.address.hop != h.address.hop
  {
    if k :| k in ids[s.flow] && g.address.hop == ids[s.flow][k] {
      assert Assigned(ids, s.flow, k);
      if l :| l in ids[r.flow] && h.address.hop == ids[r.flow][l] {
        assert Assigned(ids, r.flow, l);
      }
    } else if l :| l in ids[r.flow] && h.address.hop == ids[r.flow][l] {
      assert Assigned(ids, r.flow, l);
    }
  }

  lemma {:induction false} HopsDistinct(solution: seq<FlowSolution>, ids: ReplicasByFlow, ends: map<FlowId, Endpoints>)
    requires AllIdentified(solution, ids, ends) && DistinctFlows(solution)
    requires IdsDistinct(ids) && EndpointsDistinct(ends)
    requires forall f, k :: Assigned(ids, f, k) ==> ids[f][k].Partition?
    ensures DistinctHops(AllHops(solution, ids, ends))
  {
    hide Chain, IdsDistinct, EndpointsDistinct, UsesOwnIds;
    if solution != [] {
      var init, s := solution[..|solution| - 1], solution[|solution| - 1];
      var before, chain := AllHops(init, ids, ends), Chain(s, ids[s.flow], ends[s.flow]);
      HopsDistinct(init, ids, ends);
      ChainDistinct(s, ids, ends[s.flow]);
      ChainUsesOwnIds(s, ids[s.flow], ends[s.flow]);
      forall i, j | 0 <= i < |before| && 0 <= j < |chain| ensures before[i].address.hop != chain[j].address.hop {
        assert before[i] in before && chain[j] in chain;
        var r := HopsOfSomeFlow(init, ids, ends, before[i]);
        ChainUsesOwnIds(r, ids[r.flow], ends[r.flow]);
        var a :| 0 <= a < |init| && init[a] == r;
        assert solution[a] == r && solution[|solution| - 1] == s;
        IdsDiffer(r, s, ids, ends, before[i], chain[j]);
      }
    }
  }

  // ----- the plans of a solved solution

  /** A solution read from the solver, with the ids that the id builders assign. */
  ghost predicate SolvedAll(solution: seq<FlowSolution>, fps: seq<FlowProblem>, pls: seq<Placement>)
  {
    && |fps| == |pls| == |solution|
    && forall i :: 0 <= i < |solution| ==> SolvedFlow(fps[i], pls[i], solution[i])
  }

  lemma NumberedIdentified(solution: seq<FlowSolution>, ids: ReplicasByFlow, ends: map<FlowId, Endpoints>)
    requires WellNumbered(solution, ids, ends)
    ensures AllIdentified(solution, ids, ends)
    ensures forall f, k :: Assigned(ids, f, k) ==> ids[f][k].Partition?
  {
    hide ExecutableComponents, IdsDistinct, EndpointsDistinct;
    forall f, k | Assigned(ids, f, k) ensures ids[f][k].Partition? {
      var s :| s in solution && s.flow == f;
      var c :| c in ExecutableComponents(s).value && c.index == k;
    }
  }

  /** Components that one worker would run as the same partition must agree on what it reads and writes. */
  predicate SchemesAgree(solution: seq<FlowSolution>)
    requires forall s :: s in solution ==> ExecutableComponents(s).Ok?
  {
    forall s, r :: s in solution && r in solution ==>
      forall c, d :: c in ExecutableComponents(s).value && d in ExecutableComponents(r).value ==>
        ComponentsAgree(s, c, r, d)
  }

  predicate ComponentsAgree(s: FlowSolution, c: ComponentSolution, r: FlowSolution, d: ComponentSolution)
  {
    c.worker == d.worker && PartitionOf(s, c) == PartitionOf(r, d) ==> c.contract == d.contract
  }

  lemma HopOfComponent(s: FlowSolution, replicas: map<int, Hop>, ends: Endpoints, c: ComponentSolution)
    returns (h: PlacedHop)
    requires Identified(s, replicas, ends) && Routable(s)
    requires ExecutableComponents(s).Ok? && c in ExecutableComponents(s).value
    ensures h in Chain(s, replicas, ends)
    ensures h.worker == c.worker && h.scheme == Some(SchemeOf(c)) && h.priority == c.priority
    ensures h.address.hop.Partition? && h.address.hop.id == PartitionOf(s, c)
    ensures c.index in replicas && h.address == HopAddress(s.flow, replicas[c.index])
  {
    hide ExecutableComponents, LinksUpTo, Link, PartitionOf;
    var e := ExecutableComponents(s).value;
    var j :| 0 <= j < |e| && e[j] == c;
    var chain := Chain(s, replicas, ends);
    h := chain[j + 1];
    assert h == ChainHop(s, e, Links(s).value, replicas, ends, j + 1);
  }

  lemma ComponentOfHop(s: FlowSolution, replicas: map<int, Hop>, ends: Endpoints, h: PlacedHop)
    returns (c: ComponentSolution)
    requires Identified(s, replicas, ends) && h in Chain(s, replicas, ends) && h.address.hop.Partition?
    ensures ExecutableComponents(s).Ok? && c in ExecutableComponents(s).value
    ensures h.worker == c.worker && h.scheme == Some(SchemeOf(c)) && h.address.hop.id == PartitionOf(s, c)
    ensures c.index in replicas && h.address == HopAddress(s.flow, replicas[c.index]) && h.priority == c.priority
  {
    hide ExecutableComponents, LinksUpTo, PartitionOf;
    var e, chain := ExecutableComponents(s).value, Chain(s, replicas, ends);
    var j :| 0 <= j < |chain| && chain[j] == h;
    c := e[j - 1];
  }

  lemma {:induction false} ChainInAllHops(
    solution: seq<FlowSolution>, ids: ReplicasByFlow, ends: map<FlowId, Endpoints>, s: FlowSolution)
    requires AllIdentified(solution, ids, ends) && s in solution
    ensures forall h :: h in Chain(s, ids[s.flow], ends[s.flow]) ==> h in AllHops(solution, ids, ends)
  {
    hide Chain, Identified;
    var init, last := solution[..|solution| - 1], solution[|solution| - 1];
    if s != last {
      ChainInAllHops(init, ids, ends, s);
    }
  }

  lemma {:induction false} ConsistentIsAgreement(solution: seq<FlowSolution>, ids: ReplicasByFlow,
                                                 ends: map<FlowId, Endpoints>)
    requires AllIdentified(solution, ids, ends)
    requires forall s :: s in solution ==> Routable(s) && ExecutableComponents(s).Ok?
    ensures Consistent(AllHops(solution, ids, ends)) <==> SchemesAgree(solution)
  {
    hide Chain, Identified, ExecutableComponents, AllHops, Routable, PartitionOf;
    var hops := AllHops(solution, ids, ends);
    if Consistent(hops) {
      forall s, r, c, d | s in solution && r in solution
                          && c in ExecutableComponents(s).value && d in ExecutableComponents(r).value
        ensures ComponentsAgree(s, c, r, d)
      {
        var g := HopOfComponent(s, ids[s.flow], ends[s.flow], c);
        var h := HopOfComponent(r, ids[r.flow], ends[r.flow], d);
        ChainInAllHops(solution, ids, ends, s);
        ChainInAllHops(solution, ids, ends, r);
        assert !Clash(g, h);
      }
    }
    if SchemesAgree(solution) {
      forall g, h | g in hops && h in hops ensures !Clash(g, h) {
        if Clash(g, h) {
          var s := HopsOfSomeFlow(solution, ids, ends, g);
          var r := HopsOfSomeFlow(solution, ids, ends, h);
          var c := ComponentOfHop(s, ids[s.flow], ends[s.flow], g);
          var d := ComponentOfHop(r, ids[r.flow], ends[r.flow], h);
        }
      }
    }
  }

  lemma PrioritiesPositive(fp: FlowProblem, pl: Placement, s: FlowSolution, c: ComponentSolution)
    requires IsSolution(fp, pl, s) && c in s.components
    ensures c.priority >= 1
  {
    var i :| 0 <= i < |s.components| && s.components[i] == c;
    assert IsComponent(fp.topologyOf(pl.variant), pl, i + 1, s.components[i]);
  }

  lemma ChainPriorities(fp: FlowProblem, pl: Placement, s: FlowSolution, replicas: map<int, Hop>, ends: Endpoints)
    requires SolvedFlow(fp, pl, s) && Identified(s, replicas, ends)
    ensures forall h :: h in Chain(s, replicas, ends) ==> h.priority >= 0
  {
    hide ExecutableComponents, LinksUpTo, Placed, IsSolution, PartitionOf;
    var chain := Chain(s, replicas, ends);
    forall h | h in chain ensures h.priority >= 0 {
      var j :| 0 <= j < |chain| && chain[j] == h;
      var e := ExecutableComponents(s).value;
      if 0 < j <= |e| {
        assert e[j - 1] in e;
        PrioritiesPositive(fp, pl, s, e[j - 1]);
      }
    }
  }

  /**
   Building the plans of a solved solution fails exactly when two components that one worker would run as
   the same partition disagree on its scheme; none of the other checks on the way can fail.
   */
  lemma {:induction false} PlansBuild(version: nat, solution: seq<FlowSolution>, fps: seq<FlowProblem>,
                                      pls: seq<Placement>,
                   ids: ReplicasByFlow, ends: map<FlowId, Endpoints>)
    requires SolvedAll(solution, fps, pls) && WellNumbered(solution, ids, ends)
    ensures AllIdentified(solution, ids, ends)
    ensures forall s :: s in solution ==> Routable(s) && ExecutableComponents(s).Ok?
    ensures Buildable(version, solution, ids, ends) <==> SchemesAgree(solution)
    ensures DistinctHops(AllHops(solution, ids, ends)) && ProperHops(AllHops(solution, ids, ends))
  {
    hide SolvedFlow, Routable, ExecutableComponents, Identified, IdsDistinct, EndpointsDistinct, IdsCover, EndpointsCover;
    hide Consistent, Chain, AllHops, DistinctHops, ProperHops, ValidPlan, PlanOf, SchemesAgree;
    NumberedIdentified(solution, ids, ends);
    forall s | s in solution ensures Routable(s) && ExecutableComponents(s).Ok? {
      var i :| 0 <= i < |solution| && solution[i] == s;
      LinksOfSolution(fps[i], pls[i], s);
    }
    ConsistentIsAgreement(solution, ids, ends);
    HopsDistinct(solution, ids, ends);
    AllHopsProper(solution, ids, ends);
    var hops := AllHops(solution, ids, ends);
    forall h | h in hops ensures h.priority >= 0 {
      var s := HopsOfSomeFlow(solution, ids, ends, h);
      var i :| 0 <= i < |solution| && solution[i] == s;
      ChainPriorities(fps[i], pls[i], s, ids[s.flow], ends[s.flow]);
    }
    if Consistent(hops) {
      forall h | h in hops ensures ValidPlan(PlanOf(version, hops, h.worker)) {
        PlanIsValid(version, hops, h.worker);
      }
    }
  }

  // ----- routings match

  /** A hop and its successor in the chain name each other and the same tensors. */
  lemma NeighboursMatch(s: FlowSolution, replicas: map<int, Hop>, ends: Endpoints, j: nat)
    requires Identified(s, replicas, ends) && j + 1 < |Chain(s, replicas, ends)|
    ensures var g, h := Chain(s, replicas, ends)[j], Chain(s, replicas, ends)[j + 1];
            && g.routings.outputs == [OutputRouting(h.address, Links(s).value[j])]
            && h.routings.inputs == [InputRouting(g.address, Links(s).value[j])]
  {
    hide ExecutableComponents, LinksUpTo, Link, FlowCovered;
  }

  /** The chain starts outside the system, at the ingress, and ends in the sink. */
  lemma ChainEnds(s: FlowSolution, replicas: map<int, Hop>, ends: Endpoints)
    requires Identified(s, replicas, ends) && Routable(s)
    ensures var chain := Chain(s, replicas, ends);
            && |chain| >= 3
            && chain[0].address == HopAddress(s.flow, ends.ingress)
            && chain[0].routings.inputs == [InputRouting(HopAddress(s.flow, External), Links(s).value[0])]
            && chain[|chain| - 1].address == HopAddress(s.flow, ends.sink)
            && chain[|chain| - 1].routings.outputs == []
  {
    hide ExecutableComponents, LinksUpTo;
  }

  /** Every output routing has exactly one hop that expects it, with the same tensors. */
  lemma OutputHasOneInput(solution: seq<FlowSolution>, ids: ReplicasByFlow, ends: map<FlowId, Endpoints>,
                          g: PlacedHop, o: OutputRouting) returns (h: PlacedHop)
    requires AllIdentified(solution, ids, ends) && DistinctHops(AllHops(solution, ids, ends))
    requires g in AllHops(solution, ids, ends) && o in g.routings.outputs
    ensures h in AllHops(solution, ids, ends) && h.address == o.destination
    ensures h.routings.inputs == [InputRouting(g.address, o.tensors)]
    ensures forall k :: k in AllHops(solution, ids, ends) && k.address == o.destination ==> k == h
  {
    hide Chain, Identified, AllHops, ExecutableComponents, LinksUpTo, DistinctHops;
    var s := HopsOfSomeFlow(solution, ids, ends, g);
    var chain := Chain(s, ids[s.flow], ends[s.flow]);
    var j :| 0 <= j < |chain| && chain[j] == g;
    OnlySinkEnds(s, ids[s.flow], ends[s.flow], j);
    NeighboursMatch(s, ids[s.flow], ends[s.flow], j);
    h := chain[j + 1];
    ChainInAllHops(solution, ids, ends, s);
    var hops := AllHops(solution, ids, ends);
    forall k | k in hops && k.address == h.address ensures k == h {
      SameHop(hops, k, h);
    }
  }

  lemma OnlySinkEnds(s: FlowSolution, replicas: map<int, Hop>, ends: Endpoints, j: nat)
    requires Identified(s, replicas, ends) && j < |Chain(s, replicas, ends)|
    ensures Chain(s, replicas, ends)[j].routings.outputs != [] <==> j + 1 < |Chain(s, replicas, ends)|
  {
    hide ExecutableComponents, LinksUpTo;
  }

  /** Every input routing inside the system has exactly one hop that sends it, with the same tensors. */
  lemma InputHasOneOutput(solution: seq<FlowSolution>, ids: ReplicasByFlow, ends: map<FlowId, Endpoints>,
                          h: PlacedHop, i: InputRouting) returns (g: PlacedHop)
    requires AllIdentified(solution, ids, ends) && DistinctHops(AllHops(solution, ids, ends))
    requires h in AllHops(solution, ids, ends) && i in h.routings.inputs && !i.source.hop.External?
    ensures g in AllHops(solution, ids, ends) && g.address == i.source
    ensures g.routings.outputs == [OutputRouting(h.address, i.tensors)]
    ensures forall k :: k in AllHops(solution, ids, ends) && k.address == i.source ==> k == g
  {
    hide Chain, Identified, AllHops, ExecutableComponents, LinksUpTo, Routable, DistinctHops;
    var s := HopsOfSomeFlow(solution, ids, ends, h);
    var chain := Chain(s, ids[s.flow], ends[s.flow]);
    var j :| 0 <= j < |chain| && chain[j] == h;
    if j == 0 {
      ChainIsRoutable(s, ids[s.flow], ends[s.flow]);
      ChainEnds(s, ids[s.flow], ends[s.flow]);
    }
    NeighboursMatch(s, ids[s.flow], ends[s.flow], j - 1);
    g := chain[j - 1];
    ChainInAllHops(solution, ids, ends, s);
    var hops := AllHops(solution, ids, ends);
    forall k | k in hops && k.address == g.address ensures k == g {
      SameHop(hops, k, g);
    }
  }

  lemma ChainIsRoutable(s: FlowSolution, replicas: map<int, Hop>, ends: Endpoints)
    requires Identified(s, replicas, ends) && Chain(s, replicas, ends) != []
    ensures Routable(s)
  {
  }
}
