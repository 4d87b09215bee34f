/** Solutions turned into worker plans: default_worker_plan_builder.py. */
module PlanBuilder {
  import opened Lp
  import opened ModelTopology
  import opened Assignment
  import opened FlowSolutions
  import opened FlowRoutes
  import opened Plans
  import opened ReplicaIds

  /** Everything that one hop contributes to the plan of its worker. */
  datatype PlacedHop = PlacedHop(
    worker: WorkerId, address: HopAddress, routings: HopRoutings, scheme: Option<Scheme>, priority: int)

  // ----- the chain of hops of one flow

  /** Link i leads into the i-th executable component; the last one leads to the sink. */
  function Link(s: FlowSolution, e: seq<ComponentSolution>, i: nat): Result<set<TensorKey>>
    requires 0 < |e| && i <= |e| && forall c :: c in e ==> c in s.components
  {
    if i == 0 then InputTensors(s, e[0])
    else if i == |e| then ResultTensors(s, e[|e| - 1])
    else TensorsBetween(s, e[i - 1], e[i])
  }

  function LinksUpTo(s: FlowSolution, e: seq<ComponentSolution>, n: nat): (r: Result<seq<set<TensorKey>>>)
    requires 0 < |e| && n <= |e| + 1 && forall c :: c in e ==> c in s.components
    ensures r.Ok? ==> |r.value| == n
  {
    if n == 0 then Ok([]) else
    var init := LinksUpTo(s, e, n - 1);
    if init.Err? then init else
    var link := Link(s, e, n - 1);
    if link.Err? then Err(link.message) else Ok(init.value + [link.value])
  }

  lemma {:induction false} LinksUpToLinks(s: FlowSolution, e: seq<ComponentSolution>, n: nat)
    requires 0 < |e| && n <= |e| + 1 && forall c :: c in e ==> c in s.components
    ensures LinksUpTo(s, e, n).Ok? <==> forall i :: 0 <= i < n ==> Link(s, e, i).Ok?
    ensures LinksUpTo(s, e, n).Ok? ==> forall i :: 0 <= i < n ==> Link(s, e, i) == Ok(LinksUpTo(s, e, n).value[i])
  {
    hide Link;
    if n > 0 {
      LinksUpToLinks(s, e, n - 1);
    }
  }

  function Links(s: FlowSolution): Result<seq<set<TensorKey>>>
  {
    var e := ExecutableComponents(s);
    if e.Err? then Err(e.message) else LinksUpTo(s, e.value, |e.value| + 1)
  }

  predicate Routable(s: FlowSolution)
  {
    Links(s).Ok? && forall i :: 0 <= i < |Links(s).value| ==> Links(s).value[i] != {}
  }

  /** The hops of a chain are numbered: the ingress, the executable components, the sink. */
  function HopAt(e: seq<ComponentSolution>, replicas: map<int, Hop>, ends: Endpoints, j: int): Hop
    requires 0 <= j <= |e| + 1 && forall c :: c in e ==> c.index in replicas
  {
    if j == 0 then ends.ingress else if j == |e| + 1 then ends.sink else replicas[e[j - 1].index]
  }

  function WorkerAt(s: FlowSolution, e: seq<ComponentSolution>, j: int): WorkerId
    requires 0 <= j <= |e| + 1
  {
    if j == 0 then s.ingressWorker else if j == |e| + 1 then s.sinkWorker else e[j - 1].worker
  }

  function SchemeOf(c: ComponentSolution): Scheme
  {
    Scheme(c.contract.inputs, c.contract.outputs)
  }

  function ChainHop(
    s: FlowSolution, e: seq<ComponentSolution>, links: seq<set<TensorKey>>, replicas: map<int, Hop>, ends: Endpoints,
    j: int): PlacedHop
    requires 0 <= j <= |e| + 1 && |links| == |e| + 1 && forall c :: c in e ==> c.index in replicas
  {
    var previous := if j == 0 then External else HopAt(e, replicas, ends, j - 1);
    var incoming := InputRouting(HopAddress(s.flow, previous), links[if j == 0 then 0 else j - 1]);
    var outputs :=
      if j == |e| + 1 then []
      else [OutputRouting(HopAddress(s.flow, HopAt(e, replicas, ends, j + 1)), links[j])];
    PlacedHop(
      WorkerAt(s, e, j), HopAddress(s.flow, HopAt(e, replicas, ends, j)), HopRoutings([incoming], outputs),
      if 0 < j <= |e| then Some(SchemeOf(e[j - 1])) else None,
      if 0 < j <= |e| then e[j - 1].priority else 0)
  }

  /** The ids that the id builders have assigned to one flow. */
  predicate Identified(s: FlowSolution, replicas: map<int, Hop>, ends: Endpoints)
  {
    && ends.ingress.Ingress? && ends.sink.Sink?
    && (ExecutableComponents(s).Ok? ==> FlowCovered(s, ExecutableComponents(s).value, replicas))
  }

  function FirstHops(
    s: FlowSolution, e: seq<ComponentSolution>, links: seq<set<TensorKey>>, replicas: map<int, Hop>, ends: Endpoints,
    n: nat): seq<PlacedHop>
    requires n <= |e| + 2 && |links| == |e| + 1 && forall c :: c in e ==> c.index in replicas
  {
    seq(n, j requires 0 <= j < n => ChainHop(s, e, links, replicas, ends, j))
  }

  function Chain(s: FlowSolution, replicas: map<int, Hop>, ends: Endpoints): seq<PlacedHop>
    requires Identified(s, replicas, ends)
  {
    if !Routable(s) then [] else
    var e := ExecutableComponents(s).value;
    FirstHops(s, e, Links(s).value, replicas, ends, |e| + 2)
  }

  predicate AllIdentified(solution: seq<FlowSolution>, ids: ReplicasByFlow, ends: map<FlowId, Endpoints>)
  {
    forall s :: s in solution ==> s.flow in ids && s.flow in ends && Identified(s, ids[s.flow], ends[s.flow])
  }

  function AllHops(solution: seq<FlowSolution>, ids: ReplicasByFlow, ends: map<FlowId, Endpoints>): seq<PlacedHop>
    requires AllIdentified(solution, ids, ends)
  {
    if solution == [] then [] else
    var s := solution[|solution| - 1];
    AllHops(solution[..|solution| - 1], ids, ends) + Chain(s, ids[s.flow], ends[s.flow])
  }

  // ----- the plan of one worker

  function EmptyPlan(version: nat): WorkerPlan
  {
    WorkerPlan(version, [], [], [], [], [], map[], [], [])
  }

  /** The lists of a plan after one more hop; an already known partition keeps its scheme. */
  function Extended(p: WorkerPlan, h: PlacedHop): WorkerPlan
  {
    var hop := h.address.hop;
    p.(executableHops := p.executableHops + if hop.Partition? then [hop] else [],
       ingressHops := p.ingressHops + if hop.Ingress? then [hop] else [],
       sinkHops := p.sinkHops + if hop.Sink? then [hop] else [],
       priorityKeys := p.priorityKeys + if hop.Partition? then [h.address] else [],
       priorities := p.priorities + if hop.Partition? then [h.priority] else [],
       schemes := if hop.Partition? && h.scheme.Some? && hop.id !in p.schemes
                  then p.schemes[hop.id := h.scheme.value] else p.schemes,
       addresses := p.addresses + [h.address],
       routings := p.routings + [h.routings])
  }

  function PlanOf(version: nat, hops: seq<PlacedHop>, w: WorkerId): WorkerPlan
  {
    if hops == [] then EmptyPlan(version) else
    var init, last := PlanOf(version, hops[..|hops| - 1], w), hops[|hops| - 1];
    if last.worker == w then Extended(init, last) else init
  }

  predicate Clash(g: PlacedHop, h: PlacedHop)
  {
    && g.worker == h.worker && g.address.hop.Partition? && h.address.hop.Partition?
    && g.address.hop.id == h.address.hop.id && g.scheme != h.scheme
  }

  /** A worker that runs a partition for several hops runs it with one scheme. */
  predicate Consistent(hops: seq<PlacedHop>)
  {
    forall g, h :: g in hops && h in hops ==> !Clash(g, h)
  }

  predicate ProperHop(h: PlacedHop)
  {
    !h.address.hop.External? && (h.address.hop.Partition? <==> h.scheme.Some?)
  }

  predicate ProperHops(hops: seq<PlacedHop>)
  {
    forall h :: h in hops ==> ProperHop(h)
  }

  ghost predicate Drafted(version: nat, hops: seq<PlacedHop>, drafts: map<WorkerId, WorkerPlan>)
  {
    && (forall w :: w in drafts <==> exists h :: h in hops && h.worker == w)
    && (forall w :: w in drafts ==> drafts[w] == PlanOf(version, hops, w))
  }

  /** The schemes of a worker are those of its hops. */
  lemma {:induction false} SchemesOf(version: nat, hops: seq<PlacedHop>, w: WorkerId)
    requires ProperHops(hops) && Consistent(hops)
    ensures forall id :: id in PlanOf(version, hops, w).schemes
                    <==> exists h :: h in hops && h.worker == w && h.address.hop.Partition? && h.address.hop.id == id
    ensures forall h :: h in hops && h.worker == w && h.address.hop.Partition? ==>
              h.address.hop.id in PlanOf(version, hops, w).schemes
              && h.scheme == Some(PlanOf(version, hops, w).schemes[h.address.hop.id])
  {
    if hops != [] {
      var init, last := hops[..|hops| - 1], hops[|hops| - 1];
      assert forall h :: h in hops <==> h in init || h == last;
      SchemesOf(version, init, w);
      if last.worker == w && last.address.hop.Partition? && last.address.hop.id in PlanOf(version, init, w).schemes {
        var g :| g in init && g.worker == w && g.address.hop.Partition? && g.address.hop.id == last.address.hop.id;
        assert !Clash(g, last);
      }
    }
  }

  /** `_add_partition_scheme` and the appends for one hop. */
  method PlaceHop(version: nat, drafts: map<WorkerId, WorkerPlan>, h: PlacedHop, ghost hops: seq<PlacedHop>)
    returns (r: Result<map<WorkerId, WorkerPlan>>)
    requires Drafted(version, hops, drafts) && ProperHops(hops) && Consistent(hops) && ProperHop(h)
    ensures r.Ok? <==> ValidRoutings(h.routings) && Consistent(hops + [h])
    ensures r.Ok? ==> Drafted(version, hops + [h], r.value)
  {
    var draft := if h.worker in drafts then drafts[h.worker] else EmptyPlan(version);
    if !ValidRoutings(h.routings) {
      return Err("Routing tensors must be non-empty");
    }
    hide ValidRoutings;
    DraftOrEmpty(version, hops, h.worker, drafts);
    ConsistentExtension(version, hops, h);
    if h.address.hop.Partition? && h.address.hop.id in draft.schemes
       && Some(draft.schemes[h.address.hop.id]) != h.scheme
    {
      return Err("Partition has inconsistent execution schemes");
    }
    ExtensionDrafted(version, hops, drafts, h);
    r := Ok(drafts[h.worker := Extended(draft, h)]);
  }

  lemma {:induction false} NoHopsNoPlan(version: nat, hops: seq<PlacedHop>, w: WorkerId)
    requires forall h :: h in hops ==> h.worker != w
    ensures PlanOf(version, hops, w) == EmptyPlan(version)
  {
    if hops != [] {
      NoHopsNoPlan(version, hops[..|hops| - 1], w);
    }
  }

  lemma {:induction false} DraftOrEmpty(version: nat, hops: seq<PlacedHop>, w: WorkerId,
                                        drafts: map<WorkerId, WorkerPlan>)
    requires Drafted(version, hops, drafts)
    ensures PlanOf(version, hops, w) == if w in drafts then drafts[w] else EmptyPlan(version)
  {
    if w !in drafts {
      NoHopsNoPlan(version, hops, w);
    }
  }

  lemma {:induction false} ConsistentExtension(version: nat, hops: seq<PlacedHop>, h: PlacedHop)
    requires ProperHops(hops) && Consistent(hops) && ProperHop(h)
    ensures var schemes := PlanOf(version, hops, h.worker).schemes;
            Consistent(hops + [h]) <==>
            (h.address.hop.Partition? && h.address.hop.id in schemes ==> Some(schemes[h.address.hop.id]) == h.scheme)
  {
    hide PlanOf;
    SchemesOf(version, hops, h.worker);
    var schemes := PlanOf(version, hops, h.worker).schemes;
    if h.address.hop.Partition? && h.address.hop.id in schemes {
      var g :| g in hops && g.worker == h.worker && g.address.hop.Partition? && g.address.hop.id == h.address.hop.id;
      assert g in hops + [h] && h in hops + [h];
      assert Clash(g, h) <==> Some(schemes[h.address.hop.id]) != h.scheme;
      if Some(schemes[h.address.hop.id]) == h.scheme {
        forall a, b | a in hops + [h] && b in hops + [h] ensures !Clash(a, b) {
          assert (a in hops || a == h) && (b in hops || b == h);
        }
      }
    } else {
      forall a, b | a in hops + [h] && b in hops + [h] ensures !Clash(a, b) {
        assert (a in hops || a == h) && (b in hops || b == h);
      }
    }
  }

  lemma ExtensionDrafted(version: nat, hops: seq<PlacedHop>, drafts: map<WorkerId, WorkerPlan>, h: PlacedHop)
    requires Drafted(version, hops, drafts)
    ensures var draft := if h.worker in drafts then drafts[h.worker] else EmptyPlan(version);
            Drafted(version, hops + [h], drafts[h.worker := Extended(draft, h)])
  {
    hide Extended;
    DraftOrEmpty(version, hops, h.worker, drafts);
    assert (hops + [h])[..|hops + [h]| - 1] == hops;
    assert forall g :: g in hops + [h] <==> g in hops || g == h;
  }

  lemma ConsistentPrefix(hops: seq<PlacedHop>, more: seq<PlacedHop>)
    requires Consistent(hops + more)
    ensures Consistent(hops)
  {
    assert forall h :: h in hops ==> h in hops + more;
  }

  // ----- all flows

  lemma FirstHopsProper(
    s: FlowSolution, e: seq<ComponentSolution>, links: seq<set<TensorKey>>, replicas: map<int, Hop>, ends: Endpoints,
    n: nat)
    requires n <= |e| + 2 && |links| == |e| + 1 && FlowCovered(s, e, replicas)
    requires ends.ingress.Ingress? && ends.sink.Sink?
    ensures ProperHops(FirstHops(s, e, links, replicas, ends, n))
  {
    var hops := FirstHops(s, e, links, replicas, ends, n);
    forall h | h in hops ensures ProperHop(h) {
      var j :| 0 <= j < |hops| && hops[j] == h;
      assert 0 < j <= |e| ==> e[j - 1] in e;
    }
  }

  /** A hop passes the checks of its routings exactly when the links beside it carry something. */
  lemma ChainHopValid(
    s: FlowSolution, e: seq<ComponentSolution>, links: seq<set<TensorKey>>, replicas: map<int, Hop>, ends: Endpoints,
    j: nat)
    requires j <= |e| + 1 && |links| == |e| + 1 && forall c :: c in e ==> c.index in replicas
    ensures ValidRoutings(ChainHop(s, e, links, replicas, ends, j).routings)
       <==> links[if j == 0 then 0 else j - 1] != {} && (j <= |e| ==> links[j] != {})
  {
    var r := ChainHop(s, e, links, replicas, ends, j).routings;
    assert r.inputs[0].tensors == links[if j == 0 then 0 else j - 1];
    assert j <= |e| ==> r.outputs[0].tensors == links[j];
  }

  lemma NextHop(
    s: FlowSolution, e: seq<ComponentSolution>, links: seq<set<TensorKey>>, replicas: map<int, Hop>, ends: Endpoints,
    n: nat, hops: seq<PlacedHop>) returns (more: seq<PlacedHop>)
    requires n < |e| + 2 && |links| == |e| + 1 && forall c :: c in e ==> c.index in replicas
    ensures hops + FirstHops(s, e, links, replicas, ends, n) + [ChainHop(s, e, links, replicas, ends, n)]
         == hops + FirstHops(s, e, links, replicas, ends, n + 1)
    ensures hops + FirstHops(s, e, links, replicas, ends, n + 1) + more
         == hops + FirstHops(s, e, links, replicas, ends, |e| + 2)
  {
    var all := FirstHops(s, e, links, replicas, ends, |e| + 2);
    more := all[n + 1..];
    assert hops + FirstHops(s, e, links, replicas, ends, n + 1) + more == hops + all;
  }

  /** The hops of one flow, placed one after the other. */
  method PlaceChain(
    version: nat, drafts: map<WorkerId, WorkerPlan>, s: FlowSolution, e: seq<ComponentSolution>,
    links: seq<set<TensorKey>>, replicas: map<int, Hop>, ends: Endpoints, ghost hops: seq<PlacedHop>)
    returns (r: Result<map<WorkerId, WorkerPlan>>)
    requires |links| == |e| + 1 && FlowCovered(s, e, replicas) && ends.ingress.Ingress? && ends.sink.Sink?
    requires Drafted(version, hops, drafts) && ProperHops(hops) && Consistent(hops)
    ensures r.Ok? <==> && (forall i :: 0 <= i < |links| ==> links[i] != {})
                       && Consistent(hops + FirstHops(s, e, links, replicas, ends, |e| + 2))
    ensures r.Ok? ==> Drafted(version, hops + FirstHops(s, e, links, replicas, ends, |e| + 2), r.value)
  {
    hide Consistent, Drafted, ValidRoutings, ProperHop, FirstHops;
    var current := drafts;
    ghost var placed := hops;
    NoHopsYet(s, e, links, replicas, ends, hops);
    for j := 0 to |e| + 2
      invariant forall i :: 0 <= i < j && i < |links| ==> links[i] != {}
      invariant placed == hops + FirstHops(s, e, links, replicas, ends, j)
      invariant Consistent(placed) && ProperHops(placed) && Drafted(version, placed, current)
    {
      var h := ChainHop(s, e, links, replicas, ends, j);
      ghost var more := NextHop(s, e, links, replicas, ends, j, hops);
      ChainHopValid(s, e, links, replicas, ends, j);
      FirstHopsProper(s, e, links, replicas, ends, j + 1);
      assert h in placed + [h] && h in FirstHops(s, e, links, replicas, ends, j + 1) by {
        LastOfFirst(s, e, links, replicas, ends, j);
      }
      var step := PlaceHop(version, current, h, placed);
      if step.Err? {
        if Consistent(placed + [h] + more) { ConsistentPrefix(placed + [h], more); }
        return Err(step.message);
      }
      current, placed := step.value, placed + [h];
    }
    r := Ok(current);
  }

  lemma NoHopsYet(
    s: FlowSolution, e: seq<ComponentSolution>, links: seq<set<TensorKey>>, replicas: map<int, Hop>, ends: Endpoints,
    hops: seq<PlacedHop>)
    requires |links| == |e| + 1 && forall c :: c in e ==> c.index in replicas
    ensures hops + FirstHops(s, e, links, replicas, ends, 0) == hops
  {
  }

  lemma LastOfFirst(
    s: FlowSolution, e: seq<ComponentSolution>, links: seq<set<TensorKey>>, replicas: map<int, Hop>, ends: Endpoints,
    n: nat)
    requires n < |e| + 2 && |links| == |e| + 1 && forall c :: c in e ==> c.index in replicas
    ensures ChainHop(s, e, links, replicas, ends, n) in FirstHops(s, e, links, replicas, ends, n + 1)
  {
    hide ChainHop;
    assert FirstHops(s, e, links, replicas, ends, n + 1)[n] == ChainHop(s, e, links, replicas, ends, n);
  }

  method AddFlow(version: nat, drafts: map<WorkerId, WorkerPlan>, s: FlowSolution, replicas: map<int, Hop>,
                 ends: Endpoints, ghost hops: seq<PlacedHop>)
    returns (r: Result<map<WorkerId, WorkerPlan>>)
    requires Drafted(version, hops, drafts) && ProperHops(hops) && Consistent(hops)
    requires Identified(s, replicas, ends)
    ensures r.Ok? <==> Routable(s) && Consistent(hops + Chain(s, replicas, ends))
    ensures r.Ok? ==> Drafted(version, hops + Chain(s, replicas, ends), r.value)
  {
    hide Consistent, Drafted, ExecutableComponents, FirstHops, LinksUpTo;
    var components, links := ExecutableComponents(s), Links(s);
    if links.Err? {
      return Err(links.message);
    }
    r := PlaceChain(version, drafts, s, components.value, links.value, replicas, ends, hops);
  }

  lemma ChainProper(s: FlowSolution, replicas: map<int, Hop>, ends: Endpoints)
    requires Identified(s, replicas, ends)
    ensures ProperHops(Chain(s, replicas, ends))
  {
    hide ExecutableComponents, FirstHops, LinksUpTo, ProperHop;
    if Routable(s) {
      FirstHopsProper(s, ExecutableComponents(s).value, Links(s).value, replicas, ends, |ExecutableComponents(s).value| + 2);
    }
  }

  lemma {:induction false} AllHopsProper(solution: seq<FlowSolution>, ids: ReplicasByFlow, ends: map<FlowId, Endpoints>)
    requires AllIdentified(solution, ids, ends)
    ensures ProperHops(AllHops(solution, ids, ends))
  {
    hide Chain, Identified, ProperHop;
    if solution != [] {
      var s := solution[|solution| - 1];
      AllHopsProper(solution[..|solution| - 1], ids, ends);
      ChainProper(s, ids[s.flow], ends[s.flow]);
    }
  }

  lemma {:induction false} AllHopsPrefix(
    solution: seq<FlowSolution>, ids: ReplicasByFlow, ends: map<FlowId, Endpoints>, n: nat) returns (more: seq<PlacedHop>)
    requires AllIdentified(solution, ids, ends) && n <= |solution|
    ensures AllHops(solution[..n], ids, ends) + more == AllHops(solution, ids, ends)
  {
    hide Chain, Identified;
    if n == |solution| {
      more := [];
      assert solution[..n] == solution;
    } else {
      var init, s := solution[..|solution| - 1], solution[|solution| - 1];
      var rest := AllHopsPrefix(init, ids, ends, n);
      assert init[..n] == solution[..n];
      more := rest + Chain(s, ids[s.flow], ends[s.flow]);
      assert AllHops(solution[..n], ids, ends) + more
          == AllHops(solution[..n], ids, ends) + rest + Chain(s, ids[s.flow], ends[s.flow]);
    }
  }

  ghost predicate Buildable(
    version: nat, solution: seq<FlowSolution>, ids: ReplicasByFlow, ends: map<FlowId, Endpoints>)
    requires AllIdentified(solution, ids, ends)
  {
    var hops := AllHops(solution, ids, ends);
    && (forall s :: s in solution ==> Routable(s))
    && Consistent(hops)
    && forall h :: h in hops ==> ValidPlan(PlanOf(version, hops, h.worker))
  }

  /** `build_all`: plans for exactly the workers that host a hop, or an error. */
  method BuildAll(version: nat, solution: seq<FlowSolution>, ids: ReplicasByFlow, ends: map<FlowId, Endpoints>)
    returns (r: Result<map<WorkerId, WorkerPlan>>)
    requires AllIdentified(solution, ids, ends)
    ensures r.Ok? <==> Buildable(version, solution, ids, ends)
    ensures r.Ok? ==> Drafted(version, AllHops(solution, ids, ends), r.value)
  {
    hide Consistent, Routable, Identified, Chain, ValidPlan, PlanOf, ProperHops;
    var drafts: map<WorkerId, WorkerPlan> := map[];
    NothingDrafted(version);
    for i := 0 to |solution|
      invariant forall j :: 0 <= j < i ==> Routable(solution[j])
      invariant Consistent(AllHops(solution[..i], ids, ends))
      invariant Drafted(version, AllHops(solution[..i], ids, ends), drafts)
    {
      var s := solution[i];
      ghost var placed := AllHops(solution[..i], ids, ends);
      AllHopsProper(solution[..i], ids, ends);
      assert solution[..i + 1][..i] == solution[..i];
      assert AllHops(solution[..i + 1], ids, ends) == placed + Chain(s, ids[s.flow], ends[s.flow]);
      ghost var more := AllHopsPrefix(solution, ids, ends, i + 1);
      var step := AddFlow(version, drafts, s, ids[s.flow], ends[s.flow], placed);
      if step.Err? {
        if Consistent(AllHops(solution, ids, ends)) { ConsistentPrefix(AllHops(solution[..i + 1], ids, ends), more); }
        return Err(step.message);
      }
      drafts := step.value;
    }
    assert solution[..|solution|] == solution;
    if exists w :: w in drafts && !ValidPlan(drafts[w]) {
      return Err("The worker plan is not valid");
    }
    r := Ok(drafts);
  }

  lemma NothingDrafted(version: nat)
    ensures Drafted(version, [], map[]) && Consistent([])
  {
  }
}
