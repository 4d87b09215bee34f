/**
 A model pass over the deployed plans: hop after hop, on the worker that the catalog names, until the sink.
 It delivers what evaluating the whole model delivers.
 */
module EndToEnd {
  import opened Lp
  import opened ModelTopology
  import opened Assignment
  import opened Structure
  import opened FlowSolutions
  import opened FlowRoutes
  import opened Plans
  import opened Inference
  import opened ReplicaIds
  import opened PlanBuilder
  import opened PlanGluing
  import opened WorkerRuntime

  datatype System = System(
    catalog: map<(nat, Hop), WorkerId>,
    stores: map<WorkerId, PlanStore>,
    topologyOf: ModelVariantId -> Topology,
    layers: LayerFunction)

  datatype StepResult = Forward(contributions: seq<Contribution>) | Deposit(bundle: Bundle)

  datatype Outcome = Failed(message: string) | Running | Delivered(bundle: Bundle)

  ghost predicate Executable(sys: System, hop: Hop)
  {
    hop.Partition? ==>
      Acyclic(sys.topologyOf(hop.id.variant)) && SingleSource(sys.topologyOf(hop.id.variant).edges)
  }

  /** One contribution arrives: check its source, wait for completeness, assemble, handle, route. */
  ghost function Step(sys: System, c: Contribution): Result<StepResult>
  {
    var key := (c.context.version, c.destination);
    if key !in sys.catalog || sys.catalog[key] !in sys.stores then Err("The destination hop is not hosted") else
    var store := sys.stores[sys.catalog[key]];
    if c.context.version !in store then Err("The plan is not stored") else
    var routings := RoutingsFor(store[c.context.version], HopAddress(c.context.flow, c.destination));
    if routings.Err? then Err(routings.message) else
    var arrived := map[HopAddress(c.context.flow, c.source) := c.bundle.Keys];
    if !ValidSources(routings.value, arrived) then Err("Unexpected sources or tensors") else
    if !InputsReady(routings.value, arrived) then Err("The collection stays incomplete") else
    var request := Assembled(store, [c]);
    if request.Err? then Err(request.message) else
    if !Executable(sys, request.value.hop) then Err("The partition has no executor") else
    var result := Handled(sys.topologyOf, sys.layers, request.value);
    if result.Err? then Err(result.message) else
    var routed := Routed(store, c.context, c.destination, [c], result.value);
    if routed.Err? then Err(routed.message) else
    if c.destination.Sink? then Ok(Deposit(request.value.payload)) else Ok(Forward(routed.value))
  }

  /** The run of one model pass, as long as every hop sends to one next hop. */
  ghost function Run(sys: System, c: Contribution, steps: nat): Outcome
    decreases steps
  {
    if steps == 0 then Running else
    var step := Step(sys, c);
    if step.Err? then Failed(step.message) else
    match step.value
    case Deposit(bundle) => Delivered(bundle)
    case Forward(next) => if |next| != 1 then Failed("The pass forks") else Run(sys, next[0], steps - 1)
  }

  /** The catalog knows every hop, and its worker stores the plan that was built for it. */
  ghost predicate Deployed(sys: System, version: nat, hops: seq<PlacedHop>)
  {
    forall h :: h in hops ==> Hosted(sys, version, hops, h)
  }

  ghost predicate Hosted(sys: System, version: nat, hops: seq<PlacedHop>, h: PlacedHop)
  {
    && (version, h.address.hop) in sys.catalog && sys.catalog[(version, h.address.hop)] == h.worker
    && h.worker in sys.stores && version in sys.stores[h.worker]
    && sys.stores[h.worker][version] == PlanOf(version, hops, h.worker)
  }

  // ----- what a component needs is there

  lemma LayersOf(fp: FlowProblem, t: Topology, pl: Placement, k: int, c: ComponentSolution)
    requires Placed(fp, t, pl) && IsComponent(t, pl, k, c)
    ensures forall l :: l in LayerSet(c.layers) <==> l in t.order && pl.componentOf(l) == k
    ensures c.contract == ContractOf(t, LayerSet(c.layers)) && SingleSource(t.edges)
  {
    hide Valid, WellFormed;
  }

  /** A component only reads tensors that enter it. */
  lemma SchemeEnters(fp: FlowProblem, t: Topology, pl: Placement, k: int, c: ComponentSolution)
    requires Placed(fp, t, pl) && 1 <= k <= pl.last && IsComponent(t, pl, k, c)
    ensures c.contract.inputs <= Entering(t, pl, k)
  {
    hide Placed, IsComponent, CrossingSet, LayerSet, SingleSource;
    LayersOf(fp, t, pl, k, c);
    if k == 1 {
      FirstContract(fp, t, pl, c);
    } else {
      forall x | x in c.contract.inputs ensures x in Entering(t, pl, k) {
        var e :| e in t.edges && Incoming(t, LayerSet(c.layers), e) && x in e.tensors;
        EdgeEnds(fp, t, pl, e);
        assert EdgeCrosses(t, pl, k - 1, x, e);
        CrossingByEdge(t, pl, k - 1, x);
      }
    }
  }

  /** What its executable layers read from outside is in its scheme. */
  lemma ConsumedInScheme(fp: FlowProblem, t: Topology, pl: Placement, k: int, c: ComponentSolution)
    requires Placed(fp, t, pl) && IsComponent(t, pl, k, c)
    ensures Consumed(t, LayerSet(c.ExecutableLayers())) <= c.contract.inputs
  {
    hide Placed, IsComponent, SingleSource;
    LayersOf(fp, t, pl, k, c);
    ComponentExecutable(t, pl, k, c);
    var layers := LayerSet(c.ExecutableLayers());
    forall x | x in Consumed(t, layers) ensures x in c.contract.inputs {
      var e :| e in t.edges && e.target in layers && e.source !in layers && x in e.tensors;
      EdgeEnds(fp, t, pl, e);
      assert Incoming(t, LayerSet(c.layers), e);
    }
  }

  /** What leaves a component either entered it or is emitted by its executable layers. */
  lemma LeavingAvailable(fp: FlowProblem, t: Topology, pl: Placement, k: int, c: ComponentSolution)
    requires Placed(fp, t, pl) && 1 <= k <= pl.last && IsComponent(t, pl, k, c)
    ensures Leaving(t, pl, k) <= Entering(t, pl, k) + Emitted(t, LayerSet(c.ExecutableLayers()))
  {
    hide Placed, IsComponent, SingleSource, CrossingSet, Leaving, IsExecutable;
    LayersOf(fp, t, pl, k, c);
    ComponentExecutable(t, pl, k, c);
    forall x | x in Leaving(t, pl, k) ensures x in Entering(t, pl, k) + Emitted(t, LayerSet(c.ExecutableLayers())) {
      var e := LeavingEdge(fp, t, pl, k, x);
      EdgeEnds(fp, t, pl, e);
      if pl.componentOf(e.source) < k {
        assert EdgeCrosses(t, pl, k - 1, x, e);
        CrossingByEdge(t, pl, k - 1, x);
      } else if e.source in t.inputs {
        assert x in EntryTensors(t);
      } else {
        assert e.source in c.ExecutableLayers() && e.target !in c.ExecutableLayers();
      }
    }
  }

  lemma LeavingEdge(fp: FlowProblem, t: Topology, pl: Placement, k: int, x: TensorKey) returns (e: Edge)
    requires Placed(fp, t, pl) && 1 <= k <= pl.last && x in Leaving(t, pl, k)
    ensures e in t.edges && x in e.tensors && pl.componentOf(e.source) <= k <= pl.componentOf(e.target)
    ensures e.target in t.outputs || k < pl.componentOf(e.target)
  {
    hide Placed, SingleSource, CrossingSet;
    if k == pl.last {
      e :| e in t.edges && e.target in t.outputs && x in e.tensors;
      EdgeEnds(fp, t, pl, e);
    } else {
      BuiltSingle(fp, t, pl);
      CrossingByEdge(t, pl, k, x);
      e :| EdgeCrosses(t, pl, k, x, e);
    }
  }

  lemma BuiltSingle(fp: FlowProblem, t: Topology, pl: Placement)
    requires Placed(fp, t, pl)
    ensures SingleSource(t.edges) && Acyclic(t)
  {
  }

  /** The links beside the component at position i carry what enters and what leaves it. */
  lemma LinksAreBoundaries(fp: FlowProblem, t: Topology, pl: Placement, s: FlowSolution, k: int)
    requires SolvedFlow(fp, pl, s) && t == fp.topologyOf(pl.variant)
    requires FirstExecutable(t, pl) <= k <= LastExecutable(t, pl)
    ensures FlowsOver(t, pl, k - FirstExecutable(t, pl)) == Entering(t, pl, k)
    ensures FlowsOver(t, pl, k - FirstExecutable(t, pl) + 1) == Leaving(t, pl, k)
  {
    hide EntryTensors, ExitTensors, CrossingSet, IsSolution, Placed, ExecutableComponents, HasExecutable;
    ExecutablesOf(fp, t, pl, s);
    InputRoute(fp, t, pl, s);
    ResultRoute(fp, t, pl, s);
  }

  // ----- one hop

  lemma MergedOne(c: Contribution)
    ensures Merged([c]) == c.bundle
  {
    assert [c][..0] == [];
    assert Merged([]) == map[];
  }

  lemma DestinationsOne(o: OutputRouting)
    ensures Destinations([o]) == [o]
  {
    assert [o][..0] == [];
  }

  lemma ExpectedOne(i: InputRouting)
    ensures Expected([i]) == map[i.source := i.tensors]
  {
    assert [i][..0] == [];
  }

  /** Everything about the surroundings of a hop that one step depends on. */
  ghost predicate AtHop(sys: System, c: Contribution, store: PlanStore, r: HopRoutings)
  {
    && (c.context.version, c.destination) in sys.catalog
    && sys.catalog[(c.context.version, c.destination)] in sys.stores
    && store == sys.stores[sys.catalog[(c.context.version, c.destination)]]
    && c.context.version in store
    && RoutingsFor(store[c.context.version], HopAddress(c.context.flow, c.destination)) == Ok(r)
    && r.inputs == [InputRouting(HopAddress(c.context.flow, c.source), c.bundle.Keys)]
  }

  /** A hop only goes on with exactly what its routings expect, all of it from one source. */
  lemma StepNeedsExactInput(sys: System, c: Contribution)
    requires Step(sys, c).Ok?
    ensures var key, source := (c.context.version, c.destination), HopAddress(c.context.flow, c.source);
            && key in sys.catalog && sys.catalog[key] in sys.stores && c.context.version in sys.stores[sys.catalog[key]]
            && var routings := RoutingsFor(sys.stores[sys.catalog[key]][c.context.version],
                                           HopAddress(c.context.flow, c.destination));
               && routings.Ok? && source in Expected(routings.value.inputs)
               && Expected(routings.value.inputs)[source] == c.bundle.Keys
               && forall s :: s in Expected(routings.value.inputs) && s != source ==> Expected(routings.value.inputs)[s] == {}
  {
    hide RoutingsFor, Expected, Assembled, Handled, Routed;
    var source := HopAddress(c.context.flow, c.source);
    assert source in map[source := c.bundle.Keys];
  }

  lemma StepForwards(sys: System, c: Contribution, store: PlanStore, r: HopRoutings, payload: Bundle, result: Bundle,
                     o: OutputRouting)
    requires AtHop(sys, c, store, r) && r.outputs == [o] && !c.destination.Sink?
    requires Payload(store, c.context, c.destination, c.bundle) == Ok(payload)
    requires Executable(sys, c.destination)
    requires Handled(sys.topologyOf, sys.layers, Request(c.context, c.destination, payload)) == Ok(result)
    requires o.tensors <= c.bundle.Keys + result.Keys && o.destination.flow == c.context.flow
    ensures Step(sys, c) == Ok(Forward([Send(c.context, c.destination, c.bundle + result, o)]))
  {
    hide Payload, Handled, RoutingsFor, Merged, Destinations, Expected, Send, Routed;
    MergedOne(c);
    ExpectedOne(r.inputs[0]);
    RoutedOne(store, c, r, result, o);
  }

  lemma RoutedOne(store: PlanStore, c: Contribution, r: HopRoutings, result: Bundle, o: OutputRouting)
    requires c.context.version in store && !c.destination.Sink? && r.outputs == [o]
    requires RoutingsFor(store[c.context.version], HopAddress(c.context.flow, c.destination)) == Ok(r)
    requires o.tensors <= c.bundle.Keys + result.Keys && o.destination.flow == c.context.flow
    ensures Routed(store, c.context, c.destination, [c], result) == Ok([Send(c.context, c.destination, c.bundle + result, o)])
  {
    hide RoutingsFor, Merged, Destinations, Send;
    MergedOne(c);
    DestinationsOne(o);
    var routed := Routed(store, c.context, c.destination, [c], result);
    assert routed.Ok? && routed.value == [Send(c.context, c.destination, c.bundle + result, o)];
  }

  lemma StepDeposits(sys: System, c: Contribution, store: PlanStore, r: HopRoutings)
    requires AtHop(sys, c, store, r) && r.outputs == [] && c.destination.Sink?
    ensures Step(sys, c) == Ok(Deposit(c.bundle))
  {
    hide RoutingsFor, Merged, Expected, Send;
    MergedOne(c);
    ExpectedOne(r.inputs[0]);
  }

  // ----- the hops of one chain

  /** A solved flow, its place among the deployed hops, and the inputs of one pass. */
  datatype Pass = Pass(
    sys: System, version: nat, hops: seq<PlacedHop>, fp: FlowProblem, pl: Placement, s: FlowSolution,
    replicas: map<int, Hop>, ends: Endpoints, entry: Bundle)

  ghost predicate ValidPass(a: Pass)
  {
    var t := a.fp.topologyOf(a.pl.variant);
    && SolvedFlow(a.fp, a.pl, a.s) && Identified(a.s, a.replicas, a.ends) && Routable(a.s)
    && DistinctHops(a.hops) && ProperHops(a.hops) && Consistent(a.hops) && Deployed(a.sys, a.version, a.hops)
    && (forall h {:trigger h in a.hops} :: h in Chain(a.s, a.replicas, a.ends) ==> h in a.hops)
    && a.sys.topologyOf(a.pl.variant) == t
    && a.entry.Keys == EntryTensors(t)
  }

  /** What arrives at hop j of the chain when all is well. */
  ghost predicate Arrives(a: Pass, j: nat, c: Contribution)
    requires ValidPass(a)
  {
    var chain, t := Chain(a.s, a.replicas, a.ends), a.fp.topologyOf(a.pl.variant);
    && j < |chain|
    && c.context.flow == a.s.flow && c.context.version == a.version
    && c.destination == chain[j].address.hop
    && chain[j].routings.inputs == [InputRouting(HopAddress(a.s.flow, c.source), c.bundle.Keys)]
    && Carrying(t, a.sys.layers, a.entry, c.bundle.Keys, c.bundle)
  }

  lemma HopReached(a: Pass, j: nat, c: Contribution, h: PlacedHop) returns (store: PlanStore)
    requires ValidPass(a) && Arrives(a, j, c) && h == Chain(a.s, a.replicas, a.ends)[j]
    ensures AtHop(a.sys, c, store, h.routings) && a.version in store
    ensures h.address.hop.Partition? && h.scheme.Some? ==>
              SchemeFor(store[a.version], h.address.hop.id) == Ok(h.scheme.value)
  {
    hide Chain, SolvedFlow, Identified, Routable, DistinctHops, ProperHops, Consistent, PlanOf, RoutingsFor, SchemeFor;
    hide Carrying, EntryTensors;
    ChainAddress(a, j);
    assert h in a.hops;
    assert Hosted(a.sys, a.version, a.hops, h);
    HopFound(a.version, a.hops, h);
    store := a.sys.stores[h.worker];
  }

  lemma ChainAddress(a: Pass, j: nat)
    requires Identified(a.s, a.replicas, a.ends) && j < |Chain(a.s, a.replicas, a.ends)|
    ensures Chain(a.s, a.replicas, a.ends)[j].address.flow == a.s.flow
  {
    hide ExecutableComponents, LinksUpTo;
  }

  /** The number of executable components of the pass. */
  ghost function Length(a: Pass): int
  {
    var t := a.fp.topologyOf(a.pl.variant);
    LastExecutable(t, a.pl) - FirstExecutable(t, a.pl) + 1
  }

  ghost function LinkOf(a: Pass, i: int): set<TensorKey>
  {
    FlowsOver(a.fp.topologyOf(a.pl.variant), a.pl, i)
  }

  ghost function ComponentAt(a: Pass, j: int): ComponentSolution
    requires ValidPass(a) && 1 <= j <= Length(a)
  {
    LinksOfSolution(a.fp, a.pl, a.s);
    ExecutablesOf(a.fp, a.fp.topologyOf(a.pl.variant), a.pl, a.s);
    ExecutableComponents(a.s).value[j - 1]
  }

  lemma ChainAt(a: Pass, j: nat)
    requires ValidPass(a) && (j == 0 || j <= Length(a) + 1)
    ensures |Chain(a.s, a.replicas, a.ends)| == Length(a) + 2 && 1 <= Length(a)
    ensures var h := Chain(a.s, a.replicas, a.ends)[j];
            && (j == 0 ==> h.address.hop.Ingress?)
            && (j == Length(a) + 1 ==> h.address.hop.Sink? && h.routings.outputs == [])
            && (1 <= j <= Length(a) ==>
                  && h.address.hop.Partition? && h.address.hop.id == PartitionOf(a.s, ComponentAt(a, j))
                  && h.scheme == Some(SchemeOf(ComponentAt(a, j))))
    ensures j <= Length(a) ==>
              var g, h := Chain(a.s, a.replicas, a.ends)[j], Chain(a.s, a.replicas, a.ends)[j + 1];
              && g.routings.outputs == [OutputRouting(h.address, LinkOf(a, j))]
              && h.routings.inputs == [InputRouting(g.address, LinkOf(a, j))]
              && h.address.flow == a.s.flow && g.address.flow == a.s.flow
  {
    hide *;
    HopsAt(a, j);
    if j <= Length(a) {
      LinksAt(a, j);
    }
  }

  lemma HopsAt(a: Pass, j: nat)
    requires ValidPass(a) && (j == 0 || j <= Length(a) + 1)
    ensures |Chain(a.s, a.replicas, a.ends)| == Length(a) + 2 && 1 <= Length(a)
    ensures var h := Chain(a.s, a.replicas, a.ends)[j];
            && (j == 0 ==> h.address.hop.Ingress?)
            && (j == Length(a) + 1 ==> h.address.hop.Sink? && h.routings.outputs == [])
            && (1 <= j <= Length(a) ==>
                  && h.address.hop.Partition? && h.address.hop.id == PartitionOf(a.s, ComponentAt(a, j))
                  && h.scheme == Some(SchemeOf(ComponentAt(a, j))))
  {
    hide ExecutableComponents, LinksUpTo, Link, FlowsOver, SolvedFlow, PartitionOf, DistinctHops, ProperHops, Consistent;
    hide Deployed, FirstExecutable, LastExecutable, SchemeOf, EntryTensors;
    LinksOfSolution(a.fp, a.pl, a.s);
    ExecutablesOf(a.fp, a.fp.topologyOf(a.pl.variant), a.pl, a.s);
    var e := ExecutableComponents(a.s).value;
    if 1 <= j <= |e| {
      assert e[j - 1] in e;
    }
  }

  lemma LinksAt(a: Pass, j: nat)
    requires ValidPass(a) && j <= Length(a)
    requires |Chain(a.s, a.replicas, a.ends)| == Length(a) + 2
    ensures var g, h := Chain(a.s, a.replicas, a.ends)[j], Chain(a.s, a.replicas, a.ends)[j + 1];
            && g.routings.outputs == [OutputRouting(h.address, LinkOf(a, j))]
            && h.routings.inputs == [InputRouting(g.address, LinkOf(a, j))]
            && h.address.flow == a.s.flow && g.address.flow == a.s.flow
  {
    hide Chain, Links, ExecutableComponents, LinksUpTo, Link, FlowsOver, SolvedFlow, PartitionOf, Identified, Routable;
    hide Deployed, FirstExecutable, LastExecutable, SchemeOf, EntryTensors, DistinctHops, ProperHops, Consistent;
    LinksOfSolution(a.fp, a.pl, a.s);
    NeighboursMatch(a.s, a.replicas, a.ends, j);
    ChainAddress(a, j);
    ChainAddress(a, j + 1);
  }

  /** What is carried on after a hop, when only correct values were available there. */
  lemma SendCarries(t: Topology, f: LayerFunction, entry: Bundle, context: PassContext, hop: Hop, had: Bundle,
                    result: Bundle, o: OutputRouting)
    requires EntryTensors(t) <= entry.Keys
    requires Carrying(t, f, entry, had.Keys, had) && Carrying(t, f, entry, result.Keys, result)
    requires o.tensors <= had.Keys + result.Keys
    ensures var b := Send(context, hop, had + result, o).bundle;
            b.Keys == o.tensors && Carrying(t, f, entry, o.tensors, b)
  {
    hide EntryTensors, Known, Evaluate;
  }

  lemma IngressStep(a: Pass, c: Contribution) returns (next: Contribution)
    requires ValidPass(a) && Arrives(a, 0, c) && c.bundle.Keys == LinkOf(a, 0)
    ensures Step(a.sys, c) == Ok(Forward([next])) && Arrives(a, 1, next) && next.bundle.Keys == LinkOf(a, 0)
  {
    hide Chain, SolvedFlow, Identified, Routable, DistinctHops, ProperHops, Consistent, Deployed, Step, FlowsOver;
    hide Evaluate, EntryTensors, FirstExecutable, LastExecutable, AtHop;
    ChainAt(a, 0);
    var chain := Chain(a.s, a.replicas, a.ends);
    var store := HopReached(a, 0, c, chain[0]);
    var o := OutputRouting(chain[1].address, LinkOf(a, 0));
    next := Send(c.context, c.destination, c.bundle + c.bundle, o);
    SendCarries(a.fp.topologyOf(a.pl.variant), a.sys.layers, a.entry, c.context, c.destination, c.bundle, c.bundle, o);
    StepForwards(a.sys, c, store, chain[0].routings, c.bundle, c.bundle, o);
  }

  lemma SinkStep(a: Pass, c: Contribution)
    requires ValidPass(a) && 1 <= Length(a) && Arrives(a, Length(a) + 1, c)
    ensures Step(a.sys, c) == Ok(Deposit(c.bundle))
  {
    hide Chain, SolvedFlow, Identified, Routable, DistinctHops, ProperHops, Consistent, Deployed, Step, FlowsOver;
    hide Evaluate, EntryTensors, FirstExecutable, LastExecutable, AtHop, Carrying;
    ChainAt(a, Length(a) + 1);
    var h := Chain(a.s, a.replicas, a.ends)[Length(a) + 1];
    var store := HopReached(a, Length(a) + 1, c, h);
    StepDeposits(a.sys, c, store, h.routings);
  }

  /** The set inclusions that one executable component relies on. */
  lemma ComponentBoundaries(a: Pass, j: nat)
    requires ValidPass(a) && 1 <= j <= Length(a)
    ensures var t, c := a.fp.topologyOf(a.pl.variant), ComponentAt(a, j);
            var layers := LayerSet(c.ExecutableLayers());
            && c.contract.inputs <= LinkOf(a, j - 1)
            && Consumed(t, layers) <= c.contract.inputs
            && LinkOf(a, j) <= LinkOf(a, j - 1) + Emitted(t, layers)
            && layers !! t.inputs
            && Acyclic(t) && SingleSource(t.edges) && a.s.variant == a.pl.variant
  {
    hide Identified, Routable, DistinctHops, ProperHops, Consistent, Deployed, FlowsOver, FirstExecutable, LastExecutable;
    hide ExecutableComponents, EntryTensors, Consumed, Emitted, Placed, IsComponent, Entering, Leaving, Acyclic, SingleSource;
    var t, c := a.fp.topologyOf(a.pl.variant), ComponentAt(a, j);
    ExecutablesOf(a.fp, t, a.pl, a.s);
    var k := FirstExecutable(t, a.pl) + j - 1;
    assert c == a.s.components[k - 1];
    assert IsComponent(t, a.pl, k, c);
    BuiltSingle(a.fp, t, a.pl);
    SchemeEnters(a.fp, t, a.pl, k, c);
    ConsumedInScheme(a.fp, t, a.pl, k, c);
    LeavingAvailable(a.fp, t, a.pl, k, c);
    LinksAreBoundaries(a.fp, t, a.pl, a.s, k);
    ComponentExecutable(t, a.pl, k, c);
  }

  lemma ComponentStep(a: Pass, j: nat, c: Contribution) returns (next: Contribution)
    requires ValidPass(a) && 1 <= j <= Length(a) && Arrives(a, j, c) && c.bundle.Keys == LinkOf(a, j - 1)
    ensures Step(a.sys, c) == Ok(Forward([next])) && Arrives(a, j + 1, next) && next.bundle.Keys == LinkOf(a, j)
  {
    hide Chain, SolvedFlow, Identified, Routable, DistinctHops, ProperHops, Consistent, Deployed, Step, FlowsOver;
    hide Evaluate, EntryTensors, FirstExecutable, LastExecutable, AtHop, Execute, Consumed, Emitted, ComponentAt, Known;
    hide Acyclic, SingleSource;
    var t, component := a.fp.topologyOf(a.pl.variant), ComponentAt(a, j);
    var layers, scheme := LayerSet(component.ExecutableLayers()), SchemeOf(component);
    ChainAt(a, j);
    ComponentBoundaries(a, j);
    var chain := Chain(a.s, a.replicas, a.ends);
    var store := HopReached(a, j, c, chain[j]);
    var payload := Restricted(c.bundle, scheme.inputs);
    assert Carrying(t, a.sys.layers, a.entry, Consumed(t, layers), payload);
    ExecuteCorrect(t, a.sys.layers, a.entry, layers, payload);
    var result := Execute(t, a.sys.layers, layers, payload).value;
    var o := OutputRouting(chain[j + 1].address, LinkOf(a, j));
    next := Send(c.context, c.destination, c.bundle + result, o);
    SendCarries(t, a.sys.layers, a.entry, c.context, c.destination, c.bundle, result, o);
    StepForwards(a.sys, c, store, chain[j].routings, payload, result, o);
  }

  // ----- the whole pass

  /** The values of the model's output tensors when the whole model is evaluated. */
  ghost function WholeModel(t: Topology, f: LayerFunction, entry: Bundle): Bundle
    requires Acyclic(t) && SingleSource(t.edges) && EntryTensors(t) <= entry.Keys
  {
    map x | x in ExitTensors(t) :: (ExitKnown(t, x); Evaluate(t, f, entry, x))
  }

  lemma ExitKnown(t: Topology, x: TensorKey)
    requires Acyclic(t) && SingleSource(t.edges) && x in ExitTensors(t)
    ensures Known(t, x)
  {
    var e :| e in t.edges && e.target in t.outputs && x in e.tensors;
    EdgeProduces(t, e, x);
  }

  lemma {:induction false} RunDelivers(a: Pass, j: nat, c: Contribution)
    requires ValidPass(a) && 1 <= Length(a) && 1 <= j <= Length(a) + 1 && Arrives(a, j, c) && c.bundle.Keys == LinkOf(a, j - 1)
    requires Acyclic(a.fp.topologyOf(a.pl.variant)) && SingleSource(a.fp.topologyOf(a.pl.variant).edges)
    ensures Run(a.sys, c, Length(a) + 2 - j)
         == Delivered(WholeModel(a.fp.topologyOf(a.pl.variant), a.sys.layers, a.entry))
    decreases Length(a) + 2 - j
  {
    hide ValidPass, Step, FirstExecutable, LastExecutable, FlowsOver, LinkOf, Evaluate, Arrives, Acyclic, SingleSource;
    hide EntryTensors, WholeModel, Length;
    if j == Length(a) + 1 {
      SinkStep(a, c);
      SinkReceives(a, c);
    } else {
      var next := ComponentStep(a, j, c);
      RunDelivers(a, j + 1, next);
    }
  }

  lemma SinkReceives(a: Pass, c: Contribution)
    requires ValidPass(a) && 1 <= Length(a) && Arrives(a, Length(a) + 1, c) && c.bundle.Keys == LinkOf(a, Length(a))
    requires Acyclic(a.fp.topologyOf(a.pl.variant)) && SingleSource(a.fp.topologyOf(a.pl.variant).edges)
    ensures c.bundle == WholeModel(a.fp.topologyOf(a.pl.variant), a.sys.layers, a.entry)
  {
    hide Chain, SolvedFlow, Identified, Routable, DistinctHops, ProperHops, Consistent, Deployed;
    hide Evaluate, EntryTensors, ExitTensors, FirstExecutable, LastExecutable, Known, Acyclic, SingleSource;
    ChainAt(a, 0);
    var t := a.fp.topologyOf(a.pl.variant);
    assert LinkOf(a, Length(a)) == ExitTensors(t);
  }

  /**
   Meaning preservation: once the plans of a solved solution are deployed, a pass that starts with the
   tensors of the input layers never fails on any hop, and the sink receives exactly the tensors of the
   output layers, with the values of evaluating the whole model.
   */
  lemma {:induction false} PassPreservesMeaning(a: Pass, context: PassContext)
    requires ValidPass(a) && context.flow == a.s.flow && context.version == a.version
    ensures Acyclic(a.fp.topologyOf(a.pl.variant)) && SingleSource(a.fp.topologyOf(a.pl.variant).edges)
    ensures Run(a.sys, Contribution(context, External, a.ends.ingress, a.entry), Length(a) + 2)
         == Delivered(WholeModel(a.fp.topologyOf(a.pl.variant), a.sys.layers, a.entry))
  {
    hide *;
    PassTopology(a);
    var c := Contribution(context, External, a.ends.ingress, a.entry);
    FirstArrives(a, c);
    var next := IngressStep(a, c);
    RunDelivers(a, 1, next);
    RunForward(a.sys, c, next, Length(a) + 2);
  }

  lemma RunForward(sys: System, c: Contribution, next: Contribution, steps: nat)
    requires steps > 0 && Step(sys, c) == Ok(Forward([next]))
    ensures Run(sys, c, steps) == Run(sys, next, steps - 1)
  {
    hide Step;
  }

  lemma PassTopology(a: Pass)
    requires ValidPass(a)
    ensures Acyclic(a.fp.topologyOf(a.pl.variant)) && SingleSource(a.fp.topologyOf(a.pl.variant).edges)
    ensures a.entry.Keys == EntryTensors(a.fp.topologyOf(a.pl.variant))
  {
    BuiltSingle(a.fp, a.fp.topologyOf(a.pl.variant), a.pl);
  }

  lemma FirstArrives(a: Pass, c: Contribution)
    requires ValidPass(a) && c.context.flow == a.s.flow && c.context.version == a.version
    requires c.source == External && c.destination == a.ends.ingress && c.bundle == a.entry
    ensures Arrives(a, 0, c) && c.bundle.Keys == LinkOf(a, 0) && 1 <= Length(a)
  {
    hide Deployed, DistinctHops, ProperHops, Consistent, Identified, Chain, FirstExecutable, LastExecutable;
    hide EntryTensors, Evaluate, Routable, SolvedFlow;
    ChainAt(a, 0);
    ChainEnds(a.s, a.replicas, a.ends);
    LinksOfSolution(a.fp, a.pl, a.s);
    EntryCarried(a.fp, a.fp.topologyOf(a.pl.variant), a.pl, a.sys.layers, a.entry, a.s);
  }

  lemma EntryCarried(fp: FlowProblem, t: Topology, pl: Placement, f: LayerFunction, entry: Bundle, s: FlowSolution)
    requires SolvedFlow(fp, pl, s) && t == fp.topologyOf(pl.variant) && entry.Keys == EntryTensors(t)
    ensures Carrying(t, f, entry, entry.Keys, entry)
  {
    hide IsSolution, Placed, Acyclic, SingleSource, Producer, Reads;
    BuiltSingle(fp, t, pl);
    forall x | x in entry ensures Known(t, x) && entry[x] == Evaluate(t, f, entry, x) {
      var e :| e in t.edges && e.source in t.inputs && x in e.tensors;
      EdgeProduces(t, e, x);
    }
  }
}
