/** Numbering the replicas of partitions and the endpoints of flows. */
module ReplicaIds {
  import opened Lp
  import opened Seqs
  import opened ModelTopology
  import opened FlowSolutions
  import opened FlowRoutes
  import opened Plans

  type ReplicasByFlow = map<FlowId, map<int, Hop>>

  datatype Endpoints = Endpoints(ingress: Hop, sink: Hop)

  predicate DistinctFlows(solution: seq<FlowSolution>)
  {
    forall i, j :: 0 <= i < j < |solution| ==> solution[i].flow != solution[j].flow
  }

  function PartitionOf(s: FlowSolution, c: ComponentSolution): PartitionId
  {
    PartitionId(s.variant, LayerSet(c.ExecutableLayers()))
  }

  predicate Assigned(ids: ReplicasByFlow, flow: FlowId, k: int)
  {
    flow in ids && k in ids[flow]
  }

  /** No two components of any flows share a replica id. */
  ghost predicate IdsDistinct(ids: ReplicasByFlow)
  {
    forall f, k, g, l :: Assigned(ids, f, k) && Assigned(ids, g, l) && ids[f][k] == ids[g][l] ==> f == g && k == l
  }

  function Next(next: map<PartitionId, nat>, id: PartitionId): nat { if id in next then next[id] else 0 }

  ghost predicate IdsCounted(ids: ReplicasByFlow, next: map<PartitionId, nat>)
  {
    forall f, k :: Assigned(ids, f, k) ==> ids[f][k].Partition? && ids[f][k].replica < Next(next, ids[f][k].id)
  }

  /** Exactly the given components have an id, each of its own partition. */
  predicate FlowCovered(s: FlowSolution, components: seq<ComponentSolution>, ids: map<int, Hop>)
  {
    && ids.Keys == (set c | c in components :: c.index)
    && forall c {:trigger ids[c.index]} :: c in components ==> ids[c.index].Partition? && ids[c.index].id == PartitionOf(s, c)
  }

  predicate IdsCover(solution: seq<FlowSolution>, ids: ReplicasByFlow)
  {
    && ids.Keys == (set s | s in solution :: s.flow)
    && forall s :: s in solution ==>
         ExecutableComponents(s).Ok? && FlowCovered(s, ExecutableComponents(s).value, ids[s.flow])
  }

  predicate DistinctIndexes(components: seq<ComponentSolution>)
  {
    forall i, j :: 0 <= i < j < |components| ==> components[i].index != components[j].index
  }

  lemma ExecutableIndexesDistinct(s: FlowSolution)
    requires ExecutableComponents(s).Ok?
    ensures DistinctIndexes(ExecutableComponents(s).value) && ExecutableComponents(s).value != []
  {
    assert DistinctIndexes(s.components);
    KeepsDistinctIndexes(s.components);
  }

  lemma {:induction false} KeepsDistinctIndexes(components: seq<ComponentSolution>)
    requires DistinctIndexes(components)
    ensures DistinctIndexes(Filter(components, IsExecutable))
  {
    hide IsExecutable;
    if components != [] {
      var rest := Filter(components[1..], IsExecutable);
      KeepsDistinctIndexes(components[1..]);
      forall j | 0 <= j < |rest| ensures rest[j].index != components[0].index {
        assert rest[j] in rest && rest[j] in components[1..];
      }
      assert Filter(components, IsExecutable) == (if IsExecutable(components[0]) then [components[0]] else []) + rest;
    }
  }

  lemma Number(ids: ReplicasByFlow, next: map<PartitionId, nat>, flow: FlowId, k: int, id: PartitionId)
    requires flow in ids && k !in ids[flow] && IdsDistinct(ids) && IdsCounted(ids, next)
    ensures var ids' := ids[flow := ids[flow][k := Partition(id, Next(next, id))]];
            IdsDistinct(ids') && IdsCounted(ids', next[id := Next(next, id) + 1])
  {
    var hop := Partition(id, Next(next, id));
    var ids' := ids[flow := ids[flow][k := hop]];
    forall f, l | Assigned(ids', f, l)
      ensures ids'[f][l] == if f == flow && l == k then hop else ids[f][l]
      ensures !(f == flow && l == k) ==> Assigned(ids, f, l) && ids[f][l] != hop
    {
    }
  }

  lemma StartFlow(ids: ReplicasByFlow, next: map<PartitionId, nat>, flow: FlowId)
    requires flow !in ids && IdsDistinct(ids) && IdsCounted(ids, next)
    ensures IdsDistinct(ids[flow := map[]]) && IdsCounted(ids[flow := map[]], next)
  {
    var ids' := ids[flow := map[]];
    assert forall f, k :: Assigned(ids', f, k) ==> Assigned(ids, f, k) && ids'[f][k] == ids[f][k];
  }

  /** The inner loop for one flow: every executable component gets the next number of its partition. */
  method NumberFlow(s: FlowSolution, components: seq<ComponentSolution>, ids: ReplicasByFlow,
                    next: map<PartitionId, nat>)
    returns (ids': ReplicasByFlow, next': map<PartitionId, nat>)
    requires s.flow !in ids && IdsDistinct(ids) && IdsCounted(ids, next)
    requires DistinctIndexes(components)
    ensures ids'.Keys == ids.Keys + {s.flow} && forall f :: f in ids ==> ids'[f] == ids[f]
    ensures FlowCovered(s, components, ids'[s.flow])
    ensures IdsDistinct(ids') && IdsCounted(ids', next')
  {
    hide IdsDistinct, IdsCounted, PartitionOf;
    ids', next' := ids[s.flow := map[]], next;
    StartFlow(ids, next, s.flow);
    for i := 0 to |components|
      invariant ids'.Keys == ids.Keys + {s.flow} && forall f :: f in ids ==> ids'[f] == ids[f]
      invariant FlowCovered(s, components[..i], ids'[s.flow])
      invariant IdsDistinct(ids') && IdsCounted(ids', next')
    {
      var c := components[i];
      var id := PartitionOf(s, c);
      assert c.index !in ids'[s.flow];
      Number(ids', next', s.flow, c.index, id);
      var replica := Next(next', id);
      ids' := ids'[s.flow := ids'[s.flow][c.index := Partition(id, replica)]];
      next' := next'[id := replica + 1];
      assert components[..i + 1] == components[..i] + [c];
    }
    assert components[..|components|] == components;
  }

  /** `build_all_partition_replica_ids_from_solution`. */
  method BuildPartitionReplicaIds(solution: seq<FlowSolution>) returns (r: Result<ReplicasByFlow>)
    ensures r.Ok? <==> DistinctFlows(solution) && forall s :: s in solution ==> ExecutableComponents(s).Ok?
    ensures r.Ok? ==> IdsCover(solution, r.value) && IdsDistinct(r.value)
  {
    hide ExecutableComponents, IdsDistinct, IdsCounted, FlowCovered, IdsCover;
    if exists i, j :: 0 <= i < j < |solution| && solution[i].flow == solution[j].flow {
      return Err("Flow ids in an optimization solution must be unique");
    }
    var ids: ReplicasByFlow, next: map<PartitionId, nat> := map[], map[];
    EmptyIds();
    for i := 0 to |solution|
      invariant forall j :: 0 <= j < i ==> ExecutableComponents(solution[j]).Ok?
      invariant IdsCover(solution[..i], ids)
      invariant IdsDistinct(ids) && IdsCounted(ids, next)
    {
      var s := solution[i];
      var components := ExecutableComponents(s);
      if components.Err? {
        return Err(components.message);
      }
      ExecutableIndexesDistinct(s);
      NotYetNumbered(solution, i, ids);
      ghost var before := ids;
      ids, next := NumberFlow(s, components.value, ids, next);
      CoverGrows(solution[..i], s, before, ids);
      assert solution[..i + 1] == solution[..i] + [s];
    }
    assert solution[..|solution|] == solution;
    r := Ok(ids);
  }

  lemma NotYetNumbered(solution: seq<FlowSolution>, i: nat, ids: ReplicasByFlow)
    requires i < |solution| && DistinctFlows(solution) && IdsCover(solution[..i], ids)
    ensures solution[i].flow !in ids
  {
    hide ExecutableComponents, FlowCovered;
  }

  lemma CoverGrows(solution: seq<FlowSolution>, s: FlowSolution, ids: ReplicasByFlow, ids': ReplicasByFlow)
    requires IdsCover(solution, ids) && s.flow !in ids && ExecutableComponents(s).Ok?
    requires ids'.Keys == ids.Keys + {s.flow} && forall f :: f in ids ==> ids'[f] == ids[f]
    requires FlowCovered(s, ExecutableComponents(s).value, ids'[s.flow])
    ensures IdsCover(solution + [s], ids')
  {
    hide ExecutableComponents, FlowCovered;
  }

  lemma EmptyIds()
    ensures IdsDistinct(map[]) && IdsCounted(map[], map[]) && IdsCover([], map[])
  {
  }

  // ----- endpoints

  predicate EndpointsCover(solution: seq<FlowSolution>, ids: map<FlowId, Endpoints>)
  {
    && ids.Keys == (set s | s in solution :: s.flow)
    && forall s :: s in solution ==>
         && ids[s.flow].ingress.Ingress? && ids[s.flow].ingress.variant == s.variant
         && ids[s.flow].sink.Sink? && ids[s.flow].sink.variant == s.variant
  }

  ghost predicate EndpointsDistinct(ids: map<FlowId, Endpoints>)
  {
    forall f, g :: f in ids && g in ids && f != g ==>
      ids[f].ingress != ids[g].ingress && ids[f].sink != ids[g].sink
  }

  ghost predicate EndpointsCounted(ids: map<FlowId, Endpoints>, next: map<ModelVariantId, nat>)
  {
    forall f :: f in ids ==> Counted(ids[f], next)
  }

  ghost predicate Counted(e: Endpoints, next: map<ModelVariantId, nat>)
  {
    && e.ingress.Ingress? && e.ingress.variant in next && e.ingress.replica < next[e.ingress.variant]
    && e.sink.Sink? && e.sink.variant in next && e.sink.replica < next[e.sink.variant]
  }

  lemma NumberEndpoints(ids: map<FlowId, Endpoints>, next: map<ModelVariantId, nat>, s: FlowSolution, index: nat)
    requires s.flow !in ids && EndpointsDistinct(ids) && EndpointsCounted(ids, next)
    requires index == if s.variant in next then next[s.variant] else 0
    ensures var ids' := ids[s.flow := Endpoints(Ingress(s.variant, index), Sink(s.variant, index))];
            EndpointsDistinct(ids') && EndpointsCounted(ids', next[s.variant := index + 1])
  {
    assert forall f :: f in ids ==> Counted(ids[f], next);
  }

  /** `EndpointReplicaIdBuilder.build_all`. */
  method BuildEndpointIds(solution: seq<FlowSolution>) returns (r: Result<map<FlowId, Endpoints>>)
    ensures r.Ok? <==> DistinctFlows(solution)
    ensures r.Ok? ==> EndpointsCover(solution, r.value) && EndpointsDistinct(r.value)
  {
    hide EndpointsDistinct, EndpointsCounted;
    var ids: map<FlowId, Endpoints>, next: map<ModelVariantId, nat> := map[], map[];
    NoEndpoints();
    for i := 0 to |solution|
      invariant DistinctFlows(solution[..i])
      invariant EndpointsCover(solution[..i], ids)
      invariant EndpointsDistinct(ids) && EndpointsCounted(ids, next)
    {
      var s := solution[i];
      assert solution[..i + 1] == solution[..i] + [s];
      if s.flow in ids {
        return Err("Flow ids must be unique");
      }
      assert forall j :: 0 <= j < i ==> solution[..i][j] in solution[..i];
      var index := if s.variant in next then next[s.variant] else 0;
      NumberEndpoints(ids, next, s, index);
      next := next[s.variant := index + 1];
      ids := ids[s.flow := Endpoints(Ingress(s.variant, index), Sink(s.variant, index))];
    }
    assert solution[..|solution|] == solution;
    r := Ok(ids);
  }

  lemma NoEndpoints()
    ensures EndpointsDistinct(map[]) && EndpointsCounted(map[], map[])
  {
  }
}
