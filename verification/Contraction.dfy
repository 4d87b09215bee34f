/** Which layers of a model an optimizer has fused: onnx_contraction_computer.py. */
module Contraction {
  import opened Lp
  import opened Sums
  import opened ModelTopology
  import opened Assignment
  import opened TensorCrossing
  import opened Inference

  // ----- boundaries of a set of layers

  /** `extract_incoming_outgoing_tensors_of_partition`, by the loops of `_get_layer_set_boundary_tensors`. */
  method BoundaryTensors(t: Topology, layers: set<LayerKey>) returns (incoming: set<TensorKey>,
                         outgoing: set<TensorKey>)
    ensures incoming == Consumed(t, layers) && outgoing == Emitted(t, layers)
  {
    incoming, outgoing := {}, {};
    for i := 0 to |t.edges|
      invariant incoming == set e, x | e in t.edges[..i] && e.target in layers && e.source !in layers && x in e.tensors :: x
      invariant outgoing == set e, x | e in t.edges[..i] && e.source in layers && e.target !in layers && x in e.tensors :: x
    {
      var e := t.edges[i];
      assert t.edges[..i + 1] == t.edges[..i] + [e];
      if e.target in layers && e.source !in layers {
        incoming := incoming + e.tensors;
      }
      if e.source in layers && e.target !in layers {
        outgoing := outgoing + e.tensors;
      }
    }
    assert t.edges[..|t.edges|] == t.edges;
  }

  // ----- the specification of a group

  /** Closed backwards over the tensors that do not come from outside. */
  ghost predicate ClosedBackwards(t: Topology, inputs: set<TensorKey>, group: set<LayerKey>)
  {
    forall e :: e in t.edges && e.target in group && e.tensors - inputs != {} ==> e.source in group
  }

  /** Every backward-closed set that contains the seeds contains the layer. */
  ghost predicate Needed(t: Topology, inputs: set<TensorKey>, seeds: set<LayerKey>, l: LayerKey)
  {
    forall group :: ClosedBackwards(t, inputs, group) && seeds <= group ==> l in group
  }

  /** The smallest backward-closed set of layers that contains the seeds. */
  ghost predicate IsLeastGroup(t: Topology, inputs: set<TensorKey>, seeds: set<LayerKey>, group: set<LayerKey>)
  {
    ClosedBackwards(t, inputs, group) && seeds <= group && forall l :: l in group ==> Needed(t, inputs, seeds, l)
  }

  lemma LeastGroupUnique(t: Topology, inputs: set<TensorKey>, seeds: set<LayerKey>, a: set<LayerKey>, b: set<LayerKey>)
    requires IsLeastGroup(t, inputs, seeds, a) && IsLeastGroup(t, inputs, seeds, b)
    ensures a == b
  {
    hide ClosedBackwards;
    assert forall l :: l in a ==> l in b;
    assert forall l :: l in b ==> l in a;
  }

  function ProducersOf(t: Topology, tensors: set<TensorKey>): set<LayerKey>
  {
    set e, x | e in t.edges && x in tensors && x in e.tensors :: e.source
  }

  predicate Inner(t: Topology, group: set<LayerKey>)
  {
    forall l :: l in group ==> l !in t.inputs && l !in t.outputs
  }

  /** The layers that compute a fused node: the least group, without boundary layers, with the node's boundary. */
  ghost predicate IsGroup(t: Topology, inputs: set<TensorKey>, outputs: set<TensorKey>, group: set<LayerKey>)
  {
    && outputs != {} && outputs <= RoutedTensors(t.edges)
    && IsLeastGroup(t, inputs, ProducersOf(t, outputs), group)
    && Inner(t, group)
    && Consumed(t, group) == inputs && Emitted(t, group) == outputs
  }

  // ----- the worklist

  function LayersOf(t: Topology): set<LayerKey> { set l | l in t.order }

  function Elements(pending: seq<LayerKey>): set<LayerKey> { set l | l in pending }

  /** Everything found is needed, and what is contracted is closed up to what is still pending. */
  ghost predicate Progress(
    t: Topology, inputs: set<TensorKey>, seeds: set<LayerKey>, pending: seq<LayerKey>, contracted: set<LayerKey>)
  {
    && contracted <= LayersOf(t) && Elements(pending) <= LayersOf(t)
    && seeds <= contracted + Elements(pending)
    && (forall l :: l in contracted || l in pending ==> Needed(t, inputs, seeds, l))
    && (forall e :: e in t.edges && e.target in contracted && e.tensors - inputs != {} ==>
          e.source in contracted || e.source in pending)
    && Inner(t, contracted)
  }

  /** The layer feeds another one with a tensor that does not come from outside. */
  ghost predicate Feeds(edges: seq<Edge>, inputs: set<TensorKey>, source: LayerKey, layer: LayerKey)
  {
    exists e :: e in edges && e.target == layer && e.tensors - inputs != {} && e.source == source
  }

  /** The sources that one layer adds to the worklist. */
  method AddSources(t: Topology, inputs: set<TensorKey>, layer: LayerKey,
                    pending: seq<LayerKey>) returns (r: seq<LayerKey>)
    ensures forall l :: l in r <==> (l in pending || Feeds(t.edges, inputs, l, layer))
  {
    r := pending;
    for i := 0 to |t.edges|
      invariant forall l :: l in r <==> (l in pending || Feeds(t.edges[..i], inputs, l, layer))
    {
      var e := t.edges[i];
      assert t.edges[..i + 1] == t.edges[..i] + [e];
      FeedsOneMore(t.edges, i, inputs, layer);
      if e.target == layer && e.tensors - inputs != {} {
        r := r + [e.source];
      }
    }
    assert t.edges[..|t.edges|] == t.edges;
  }

  lemma FeedsOneMore(edges: seq<Edge>, i: nat, inputs: set<TensorKey>, layer: LayerKey)
    requires i < |edges|
    ensures forall l :: Feeds(edges[..i + 1], inputs, l, layer) <==>
              (Feeds(edges[..i], inputs, l, layer)
               || (edges[i].target == layer && edges[i].tensors - inputs != {} && edges[i].source == l))
  {
    assert edges[..i + 1] == edges[..i] + [edges[i]];
    forall l | Feeds(edges[..i], inputs, l, layer) ensures Feeds(edges[..i + 1], inputs, l, layer) {
      var e :| e in edges[..i] && e.target == layer && e.tensors - inputs != {} && e.source == l;
      assert e in edges[..i + 1];
    }
    if edges[i].target == layer && edges[i].tensors - inputs != {} {
      assert edges[i] in edges[..i + 1] && Feeds(edges[..i + 1], inputs, edges[i].source, layer);
    }
  }

  lemma SourceNeeded(t: Topology, inputs: set<TensorKey>, seeds: set<LayerKey>, e: Edge)
    requires e in t.edges && e.tensors - inputs != {} && Needed(t, inputs, seeds, e.target)
    ensures Needed(t, inputs, seeds, e.source)
  {
  }

  lemma PopKnown(t: Topology, inputs: set<TensorKey>, seeds: set<LayerKey>, pending: seq<LayerKey>,
                 contracted: set<LayerKey>)
    requires pending != [] && Progress(t, inputs, seeds, pending, contracted) && pending[|pending| - 1] in contracted
    ensures Progress(t, inputs, seeds, pending[..|pending| - 1], contracted)
  {
    hide Needed, Inner;
    var rest := pending[..|pending| - 1];
    assert forall l :: l in pending <==> l in rest || l == pending[|pending| - 1];
  }

  lemma PopNew(t: Topology, inputs: set<TensorKey>, seeds: set<LayerKey>, pending: seq<LayerKey>,
               contracted: set<LayerKey>,
               pending': seq<LayerKey>)
    requires Acyclic(t) && pending != [] && Progress(t, inputs, seeds, pending, contracted)
    requires var layer := pending[|pending| - 1];
             && layer !in t.inputs && layer !in t.outputs
             && forall l :: l in pending' <==> (l in pending[..|pending| - 1] || Feeds(t.edges, inputs, l, layer))
    ensures Progress(t, inputs, seeds, pending', contracted + {pending[|pending| - 1]})
  {
    hide Needed;
    var rest, layer := pending[..|pending| - 1], pending[|pending| - 1];
    assert forall l :: l in pending <==> l in rest || l == layer;
    forall l | l in pending' ensures Needed(t, inputs, seeds, l) && l in LayersOf(t) {
      if l !in rest {
        var e :| e in t.edges && e.target == layer && e.tensors - inputs != {} && e.source == l;
        SourceNeeded(t, inputs, seeds, e);
      }
    }
  }

  /** A boundary layer that is needed rules out every group. */
  lemma BoundaryNeeded(t: Topology, inputs: set<TensorKey>, outputs: set<TensorKey>, l: LayerKey)
    requires Needed(t, inputs, ProducersOf(t, outputs), l) && (l in t.inputs || l in t.outputs)
    ensures forall group :: !IsGroup(t, inputs, outputs, group)
  {
    hide ClosedBackwards, Consumed, Emitted;
  }

  lemma WorklistDone(t: Topology, inputs: set<TensorKey>, seeds: set<LayerKey>, contracted: set<LayerKey>)
    requires Progress(t, inputs, seeds, [], contracted)
    ensures IsLeastGroup(t, inputs, seeds, contracted)
  {
    hide Needed;
  }

  lemma WorklistStarts(t: Topology, inputs: set<TensorKey>, outputs: set<TensorKey>, pending: seq<LayerKey>)
    requires Acyclic(t) && forall l :: l in pending <==> l in ProducersOf(t, outputs)
    ensures Progress(t, inputs, ProducersOf(t, outputs), pending, {})
  {
  }

  /** `_infer_contracted_group`: it terminates, and it finds the group of a fused node exactly if there is one. */
  method InferContractedGroup(t: Topology, inputs: set<TensorKey>, outputs: set<TensorKey>)
    returns (r: Option<set<LayerKey>>)
    requires Acyclic(t) && SingleSource(t.edges)
    ensures r.Some? ==> IsGroup(t, inputs, outputs, r.value)
    ensures r.None? ==> forall group :: !IsGroup(t, inputs, outputs, group)
  {
    hide Acyclic, Progress, IsLeastGroup, Needed, ProducersOf, Consumed, Emitted, SingleSource, Inner;
    if outputs == {} || !(outputs <= RoutedTensors(t.edges)) {
      return None;
    }
    ghost var seeds := ProducersOf(t, outputs);
    var pending := ProducerList(t, outputs);
    var contracted: set<LayerKey> := {};
    WorklistStarts(t, inputs, outputs, pending);
    while pending != []
      invariant Progress(t, inputs, seeds, pending, contracted)
      decreases LayersOf(t) - contracted, |pending|
    {
      var layer := pending[|pending| - 1];
      var rest := pending[..|pending| - 1];
      if layer in contracted {
        PopKnown(t, inputs, seeds, pending, contracted);
        pending := rest;
        continue;
      }
      PendingNeeded(t, inputs, seeds, pending, contracted, layer);
      if layer in t.inputs || layer in t.outputs {
        BoundaryNeeded(t, inputs, outputs, layer);
        return None;
      }
      var pending' := AddSources(t, inputs, layer, rest);
      PopNew(t, inputs, seeds, pending, contracted, pending');
      pending, contracted := pending', contracted + {layer};
    }
    WorklistDone(t, inputs, seeds, contracted);
    var incoming, outgoing := BoundaryTensors(t, contracted);
    ContractedInner(t, inputs, seeds, contracted);
    if incoming != inputs || outgoing != outputs {
      OnlyThisGroup(t, inputs, outputs, contracted);
      return None;
    }
    r := Some(contracted);
  }

  lemma PendingNeeded(t: Topology, inputs: set<TensorKey>, seeds: set<LayerKey>, pending: seq<LayerKey>,
                      contracted: set<LayerKey>, layer: LayerKey)
    requires Progress(t, inputs, seeds, pending, contracted) && layer in pending
    ensures Needed(t, inputs, seeds, layer) && layer in LayersOf(t)
  {
    hide Needed;
    assert layer in Elements(pending);
  }

  lemma ContractedInner(t: Topology, inputs: set<TensorKey>, seeds: set<LayerKey>, contracted: set<LayerKey>)
    requires Progress(t, inputs, seeds, [], contracted)
    ensures Inner(t, contracted)
  {
  }

  lemma OnlyThisGroup(t: Topology, inputs: set<TensorKey>, outputs: set<TensorKey>, contracted: set<LayerKey>)
    requires IsLeastGroup(t, inputs, ProducersOf(t, outputs), contracted)
    requires Consumed(t, contracted) != inputs || Emitted(t, contracted) != outputs
    ensures forall group :: !IsGroup(t, inputs, outputs, group)
  {
    hide IsLeastGroup, Consumed, Emitted, ProducersOf;
    forall group | IsGroup(t, inputs, outputs, group) ensures group == contracted {
      LeastGroupUnique(t, inputs, ProducersOf(t, outputs), group, contracted);
    }
  }

  /** The producers of the outputs, in some order. */
  method ProducerList(t: Topology, outputs: set<TensorKey>) returns (r: seq<LayerKey>)
    requires Acyclic(t)
    ensures forall l :: l in r <==> l in ProducersOf(t, outputs)
  {
    r := InOrder(t.order, ProducersOf(t, outputs));
  }

  // ----- all groups of an optimized model

  function Positions(t: Topology, group: seq<LayerKey>): int
  {
    if group == [] then 0 else Index(t.order, group[0])
  }

  /** A group in topological order. */
  predicate OrderedGroup(t: Topology, group: seq<LayerKey>)
  {
    && (forall l :: l in group ==> l in t.order)
    && forall i, j :: 0 <= i < j < |group| ==> Index(t.order, group[i]) < Index(t.order, group[j])
  }

  predicate ByFirstLayer(t: Topology, groups: seq<seq<LayerKey>>)
  {
    forall i, j :: 0 <= i < j < |groups| ==> Positions(t, groups[i]) <= Positions(t, groups[j])
  }

  /** The place of a group in a list that is sorted by the first layer. */
  function Insert(t: Topology, groups: seq<seq<LayerKey>>, g: seq<LayerKey>): (r: seq<seq<LayerKey>>)
    ensures forall h :: h in r <==> h in groups || h == g
  {
    if groups == [] || Positions(t, g) <= Positions(t, groups[0]) then [g] + groups
    else [groups[0]] + Insert(t, groups[1..], g)
  }

  lemma {:induction false} InsertSorted(t: Topology, groups: seq<seq<LayerKey>>, g: seq<LayerKey>)
    requires ByFirstLayer(t, groups)
    ensures ByFirstLayer(t, Insert(t, groups, g))
  {
    if !(groups == [] || Positions(t, g) <= Positions(t, groups[0])) {
      var rest := Insert(t, groups[1..], g);
      InsertSorted(t, groups[1..], g);
      forall j | 0 <= j < |rest| ensures Positions(t, groups[0]) <= Positions(t, rest[j]) {
        assert rest[j] in rest;
        if rest[j] in groups[1..] {
          var i :| 0 <= i < |groups[1..]| && groups[1..][i] == rest[j];
        }
      }
    }
  }

  /** No group twice. */
  lemma {:induction false} InsertDistinct(t: Topology, groups: seq<seq<LayerKey>>, g: seq<LayerKey>)
    requires Distinct(groups) && g !in groups
    ensures Distinct(Insert(t, groups, g))
  {
    if !(groups == [] || Positions(t, g) <= Positions(t, groups[0])) {
      var rest := Insert(t, groups[1..], g);
      InsertDistinct(t, groups[1..], g);
      forall j | 0 <= j < |rest| ensures rest[j] != groups[0] {
        assert rest[j] in rest;
        if rest[j] in groups[1..] {
          var i :| 0 <= i < |groups[1..]| && groups[1..][i] == rest[j];
        } else {
          assert groups[0] in groups;
        }
      }
    }
  }

  /** A fused node of the optimized model stands for a group of at least two layers. */
  ghost predicate FusedInto(optimized: Topology, t: Topology, node: LayerKey, group: set<LayerKey>)
  {
    && node in optimized.order && node !in optimized.inputs && node !in optimized.outputs
    && IsGroup(t, Consumed(optimized, {node}), Emitted(optimized, {node}), group) && |group| >= 2
  }

  /** The list holds, in order, the groups of the nodes looked at. */
  ghost predicate Collected(optimized: Topology, t: Topology, nodes: seq<LayerKey>, groups: seq<seq<LayerKey>>)
  {
    && Distinct(groups) && ByFirstLayer(t, groups)
    && (forall g :: g in groups ==> exists node, group :: node in nodes && FusedInto(optimized, t, node, group) && g == InOrder(t.order, group))
    && (forall node, group :: node in nodes && FusedInto(optimized, t, node, group) ==> InOrder(t.order, group) in groups)
  }

  predicate DisjointGroups(groups: seq<seq<LayerKey>>)
  {
    forall i, j :: 0 <= i < j < |groups| ==> Elements(groups[i]) !! Elements(groups[j])
  }

  lemma {:induction false} InOrderAscends(t: Topology, order: seq<LayerKey>, from: nat, s: set<LayerKey>)
    requires Acyclic(t) && from <= |t.order| && order == t.order[from..]
    ensures forall l :: l in InOrder(order, s) ==> l in order && Index(t.order, l) >= from
    ensures OrderedGroup(t, InOrder(order, s))
    decreases |order|
  {
    if order != [] {
      var rest := InOrder(order[1..], s);
      InOrderAscends(t, order[1..], from + 1, s);
      IndexOfPosition(t.order, from);
      assert order[0] == t.order[from];
    }
  }

  lemma {:induction false} IndexOfPosition(order: seq<LayerKey>, i: nat)
    requires Distinct(order) && i < |order|
    ensures Index(order, order[i]) == i
  {
    if i > 0 {
      assert order[i] != order[0];
      IndexOfPosition(order[1..], i - 1);
    }
  }

  /** `_extract_contractions`: the groups of all fused nodes, sorted, or an error when two of them overlap. */
  method ExtractContractions(optimized: Topology, t: Topology) returns (r: Result<seq<seq<LayerKey>>>)
    requires Acyclic(t) && SingleSource(t.edges)
    ensures exists groups :: Collected(optimized, t, optimized.order, groups)
                             && (r.Ok? <==> DisjointGroups(groups)) && (r.Ok? ==> r.value == groups)
    ensures r.Ok? ==> forall g :: g in r.value ==> OrderedGroup(t, g)
  {
    hide FusedInto, Distinct, ByFirstLayer, InOrder, Acyclic, SingleSource, IsGroup, Consumed, Emitted;
    var groups: seq<seq<LayerKey>> := [];
    NothingCollected(optimized, t);
    for i := 0 to |optimized.order|
      invariant Collected(optimized, t, optimized.order[..i], groups)
    {
      var node := optimized.order[i];
      assert optimized.order[..i + 1] == optimized.order[..i] + [node];
      var found: Option<set<LayerKey>> := None;
      if node !in optimized.inputs && node !in optimized.outputs {
        var incoming, outgoing := BoundaryTensors(optimized, {node});
        found := InferContractedGroup(t, incoming, outgoing);
      }
      FusedOrNot(optimized, t, node, found);
      if found.Some? && |found.value| >= 2 {
        var g := InOrder(t.order, found.value);
        CollectOne(optimized, t, optimized.order[..i], groups, node, found.value);
        groups := if g in groups then groups else Insert(t, groups, g);
      } else {
        CollectNone(optimized, t, optimized.order[..i], groups, node);
      }
    }
    assert optimized.order[..|optimized.order|] == optimized.order;
    var taken: set<LayerKey> := {};
    for i := 0 to |groups|
      invariant taken == set g, l | g in groups[..i] && l in g :: l
      invariant DisjointGroups(groups[..i])
    {
      assert groups[..i + 1] == groups[..i] + [groups[i]];
      if exists l :: l in groups[i] && l in taken {
        var l :| l in groups[i] && l in taken;
        OverlapFound(groups, i, l);
        return Err("Optimized nodes produce overlapping contractions");
      }
      NoOverlap(groups, i, taken);
      taken := taken + Elements(groups[i]);
    }
    assert groups[..|groups|] == groups;
    forall g | g in groups ensures OrderedGroup(t, g) {
      GroupOrdered(optimized, t, groups, g);
    }
    r := Ok(groups);
  }

  /** What the search gives for a node says whether, and into which group, the node is fused. */
  lemma FusedOrNot(optimized: Topology, t: Topology, node: LayerKey, found: Option<set<LayerKey>>)
    requires node in optimized.order
    requires node in optimized.inputs || node in optimized.outputs ==> found.None?
    requires found.Some? ==> IsGroup(t, Consumed(optimized, {node}), Emitted(optimized, {node}), found.value)
    requires found.None? && node !in optimized.inputs && node !in optimized.outputs ==>
               forall group :: !IsGroup(t, Consumed(optimized, {node}), Emitted(optimized, {node}), group)
    ensures found.Some? && |found.value| >= 2 ==> FusedInto(optimized, t, node, found.value)
    ensures !(found.Some? && |found.value| >= 2) ==> forall group :: !FusedInto(optimized, t, node, group)
  {
    hide IsLeastGroup, Consumed, Emitted, ProducersOf;
    if found.Some? {
      forall group | IsGroup(t, Consumed(optimized, {node}), Emitted(optimized, {node}), group)
        ensures group == found.value
      {
        LeastGroupUnique(t, Consumed(optimized, {node}), ProducersOf(t, Emitted(optimized, {node})), group, found.value);
      }
    }
  }

  lemma GroupOrdered(optimized: Topology, t: Topology, groups: seq<seq<LayerKey>>, g: seq<LayerKey>)
    requires Acyclic(t) && Collected(optimized, t, optimized.order, groups) && g in groups
    ensures OrderedGroup(t, g)
  {
    hide FusedInto, InOrder, OrderedGroup, Acyclic, ByFirstLayer;
    var node, group :| node in optimized.order && FusedInto(optimized, t, node, group) && g == InOrder(t.order, group);
    assert t.order[0..] == t.order;
    InOrderAscends(t, t.order, 0, group);
  }

  lemma OverlapFound(groups: seq<seq<LayerKey>>, i: nat, l: LayerKey)
    requires i < |groups| && l in groups[i] && exists g :: g in groups[..i] && l in g
    ensures !DisjointGroups(groups)
  {
    var g :| g in groups[..i] && l in g;
    var j :| 0 <= j < i && groups[j] == g;
    assert l in Elements(groups[j]) && l in Elements(groups[i]);
  }

  lemma NoOverlap(groups: seq<seq<LayerKey>>, i: nat, taken: set<LayerKey>)
    requires i < |groups| && DisjointGroups(groups[..i])
    requires forall l :: l in groups[i] ==> l !in taken
    requires forall g, l :: g in groups[..i] && l in g ==> l in taken
    ensures DisjointGroups(groups[..i + 1])
  {
    forall a, b | 0 <= a < b < i + 1 ensures Elements(groups[a]) !! Elements(groups[b]) {
      assert groups[..i + 1][a] == groups[a];
      if b < i {
        assert groups[..i][a] == groups[a] && groups[..i][b] == groups[b];
      } else {
        assert groups[a] in groups[..i];
      }
    }
  }

  lemma NothingCollected(optimized: Topology, t: Topology)
    ensures Collected(optimized, t, [], [])
  {
  }

  lemma CollectNone(optimized: Topology, t: Topology, nodes: seq<LayerKey>, groups: seq<seq<LayerKey>>, node: LayerKey)
    requires Collected(optimized, t, nodes, groups) && forall group :: !FusedInto(optimized, t, node, group)
    ensures Collected(optimized, t, nodes + [node], groups)
  {
    hide FusedInto, Distinct, ByFirstLayer, InOrder;
    assert forall n :: n in nodes + [node] <==> n in nodes || n == node;
  }

  lemma {:induction false} CollectOne(optimized: Topology, t: Topology, nodes: seq<LayerKey>,
                                      groups: seq<seq<LayerKey>>, node: LayerKey,
                   group: set<LayerKey>)
    requires Collected(optimized, t, nodes, groups) && FusedInto(optimized, t, node, group)
    ensures var g := InOrder(t.order, group);
            Collected(optimized, t, nodes + [node], if g in groups then groups else Insert(t, groups, g))
  {
    hide FusedInto, Distinct, ByFirstLayer, InOrder, Insert;
    var g := InOrder(t.order, group);
    assert forall n :: n in nodes + [node] <==> n in nodes || n == node;
    forall other | FusedInto(optimized, t, node, other) ensures other == group {
      FusedIntoOne(optimized, t, node, group, other);
    }
    if g !in groups {
      InsertSorted(t, groups, g);
      InsertDistinct(t, groups, g);
    }
  }

  lemma FusedIntoOne(optimized: Topology, t: Topology, node: LayerKey, a: set<LayerKey>, b: set<LayerKey>)
    requires FusedInto(optimized, t, node, a) && FusedInto(optimized, t, node, b)
    ensures a == b
  {
    hide IsLeastGroup, Consumed, Emitted, ProducersOf;
    LeastGroupUnique(t, Consumed(optimized, {node}), ProducersOf(t, Emitted(optimized, {node})), a, b);
  }
}
