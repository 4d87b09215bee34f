/** The model DAG of domain/profile/model_variant_topology.py: layers, edges and tensor routes. */
module ModelTopology {
  import opened Lp
  import opened Sums

  datatype Edge = Edge(source: LayerKey, target: LayerKey, tensors: set<TensorKey>)

  /** `order` holds every layer once, in the order of `layers_in_topological_order`. */
  datatype Topology = Topology(
    order: seq<LayerKey>, edges: seq<Edge>, inputs: set<LayerKey>, outputs: set<LayerKey>)

  datatype TensorRoute = TensorRoute(
    source: LayerKey, destinations: set<LayerKey>, maximalDestinations: set<LayerKey>)

  datatype Result<T> = Ok(value: T) | Err(message: string)

  function Index(order: seq<LayerKey>, layer: LayerKey): (i: nat)
    ensures i <= |order|
    ensures layer in order <==> i < |order|
    ensures i < |order| ==> order[i] == layer
  {
    if order == [] then 0 else if order[0] == layer then 0 else 1 + Index(order[1..], layer)
  }

  /** What the constructor enforces: known endpoints, no parallel edges, no cycle. */
  predicate Acyclic(t: Topology)
  {
    && Distinct(t.order)
    && (forall e :: e in t.edges ==>
          e.source in t.order && e.target in t.order && Index(t.order, e.source) < Index(t.order, e.target))
    && (forall i, j :: 0 <= i < j < |t.edges| ==> !Parallel(t.edges[i], t.edges[j]))
  }

  predicate Parallel(a: Edge, b: Edge)
  {
    a.source == b.source && a.target == b.target
  }

  /** `nx.has_path`. */
  predicate Reachable(t: Topology, a: LayerKey, b: LayerKey)
    requires Acyclic(t)
    decreases |t.order| - Index(t.order, a)
  {
    a == b || exists e :: e in t.edges && e.source == a && Reachable(t, e.target, b)
  }

  lemma {:induction false} ReachableForward(t: Topology, a: LayerKey, b: LayerKey)
    requires Acyclic(t) && Reachable(t, a, b)
    ensures a == b || (b in t.order && Index(t.order, a) < Index(t.order, b))
    decreases |t.order| - Index(t.order, a)
  {
    if a != b {
      var e :| e in t.edges && e.source == a && Reachable(t, e.target, b);
      ReachableForward(t, e.target, b);
    }
  }

  lemma {:induction false} ReachableTransitive(t: Topology, a: LayerKey, b: LayerKey, c: LayerKey)
    requires Acyclic(t) && Reachable(t, a, b) && Reachable(t, b, c)
    ensures Reachable(t, a, c)
    decreases |t.order| - Index(t.order, a)
  {
    if a != b {
      var e :| e in t.edges && e.source == a && Reachable(t, e.target, b);
      ReachableTransitive(t, e.target, b, c);
    }
  }

  // ----- tensors

  function Consumers(edges: seq<Edge>, tensor: TensorKey): set<LayerKey>
  {
    set e | e in edges && tensor in e.tensors :: e.target
  }

  function RoutedTensors(edges: seq<Edge>): set<TensorKey>
  {
    set e, x | e in edges && x in e.tensors :: x
  }

  predicate SingleSource(edges: seq<Edge>)
  {
    forall e, f, x :: e in edges && f in edges && x in e.tensors && x in f.tensors ==> e.source == f.source
  }

  /** The layer that emits a routed tensor. */
  function Producer(edges: seq<Edge>, tensor: TensorKey): (source: LayerKey)
    requires tensor in RoutedTensors(edges)
    ensures exists e :: e in edges && tensor in e.tensors && e.source == source
  {
    if tensor in edges[0].tensors then edges[0].source else Producer(edges[1..], tensor)
  }

  predicate IsMaximal(t: Topology, destinations: set<LayerKey>, d: LayerKey)
    requires Acyclic(t)
  {
    d in destinations && forall o :: o in destinations && o != d ==> !Reachable(t, d, o)
  }

  /** Above every destination of a finite DAG there is a maximal one. */
  lemma {:induction false} MaximalAbove(t: Topology, destinations: set<LayerKey>, d: LayerKey) returns (m: LayerKey)
    requires Acyclic(t) && d in destinations
    ensures IsMaximal(t, destinations, m) && Reachable(t, d, m)
    decreases |t.order| - Index(t.order, d)
  {
    if IsMaximal(t, destinations, d) {
      m := d;
    } else {
      var o :| o in destinations && o != d && Reachable(t, d, o);
      ReachableForward(t, d, o);
      m := MaximalAbove(t, destinations, o);
      ReachableTransitive(t, d, o, m);
    }
  }

  predicate RouteOf(t: Topology, tensor: TensorKey, route: TensorRoute)
    requires Acyclic(t)
  {
    && tensor in RoutedTensors(t.edges)
    && route.source == Producer(t.edges, tensor)
    && route.destinations == Consumers(t.edges, tensor)
    && route.maximalDestinations == set d | d in route.destinations && IsMaximal(t, route.destinations, d)
  }

  lemma RoutesSnoc(edges: seq<Edge>, edge: Edge)
    ensures RoutedTensors(edges + [edge]) == RoutedTensors(edges) + edge.tensors
    ensures forall x :: Consumers(edges + [edge], x)
                     == Consumers(edges, x) + if x in edge.tensors then {edge.target} else {}
  {
    forall e ensures e in edges + [edge] <==> e in edges || e == edge { }
    forall x ensures Consumers(edges + [edge], x)
                  == Consumers(edges, x) + if x in edge.tensors then {edge.target} else {}
    {
      assert x in edge.tensors ==> edge.target in Consumers(edges + [edge], x);
    }
  }

  /** The dictionaries filled after looking at the given edges. */
  ghost predicate Filled(
    edges: seq<Edge>, sources: map<TensorKey, LayerKey>, destinations: map<TensorKey, set<LayerKey>>)
  {
    && sources.Keys == destinations.Keys == RoutedTensors(edges)
    && (forall e, x :: e in edges && x in e.tensors ==> sources[x] == e.source)
    && (forall x :: x in destinations ==> destinations[x] == Consumers(edges, x))
  }

  predicate Conflicts(sources: map<TensorKey, LayerKey>, edge: Edge)
  {
    exists x :: x in edge.tensors && x in sources && sources[x] != edge.source
  }

  lemma ConflictMeansTwoSources(edges: seq<Edge>, edge: Edge, sources: map<TensorKey, LayerKey>,
                                destinations: map<TensorKey, set<LayerKey>>)
    requires Filled(edges, sources, destinations) && SingleSource(edges)
    ensures SingleSource(edges + [edge]) <==> !Conflicts(sources, edge)
  {
    var all := edges + [edge];
    if Conflicts(sources, edge) {
      var x :| x in edge.tensors && x in sources && sources[x] != edge.source;
      var e :| e in edges && x in e.tensors;
      assert e in all && edge in all;
    } else {
      forall e, f, x | e in all && f in all && x in e.tensors && x in f.tensors ensures e.source == f.source {
        assert (e in edges || e == edge) && (f in edges || f == edge);
        assert e in edges ==> x in RoutedTensors(edges);
        assert f in edges ==> x in RoutedTensors(edges);
      }
    }
  }

  lemma SingleSourceOfPrefix(edges: seq<Edge>, n: nat)
    requires n <= |edges| && SingleSource(edges)
    ensures SingleSource(edges[..n])
  {
  }

  /** The dictionaries after the tensors in `done` of an edge have been entered. */
  ghost predicate Entered(edge: Edge, done: set<TensorKey>, sources: map<TensorKey, LayerKey>,
                          destinations: map<TensorKey, set<LayerKey>>, sources': map<TensorKey, LayerKey>,
                          destinations': map<TensorKey, set<LayerKey>>)
  {
    && sources'.Keys == sources.Keys + done
    && destinations'.Keys == destinations.Keys + done
    && (forall x :: x in sources' ==> sources'[x] == if x in done then edge.source else sources[x])
    && (forall x :: x in destinations' ==>
          destinations'[x] == (if x in destinations then destinations[x] else {})
                              + (if x in done then {edge.target} else {}))
  }

  lemma NothingEntered(edge: Edge, sources: map<TensorKey, LayerKey>, destinations: map<TensorKey, set<LayerKey>>)
    ensures Entered(edge, {}, sources, destinations, sources, destinations)
  {
  }

  lemma OneEntered(edge: Edge, done: set<TensorKey>, x: TensorKey, sources: map<TensorKey, LayerKey>,
                   destinations: map<TensorKey, set<LayerKey>>, sources': map<TensorKey, LayerKey>,
                   destinations': map<TensorKey, set<LayerKey>>)
    requires Entered(edge, done, sources, destinations, sources', destinations') && x !in done
    ensures Entered(edge, done + {x}, sources, destinations, sources'[x := edge.source],
              destinations'[x := (if x in destinations' then destinations'[x] else {}) + {edge.target}])
  {
  }

  lemma FilledByEntering(edges: seq<Edge>, edge: Edge, sources: map<TensorKey, LayerKey>,
                         destinations: map<TensorKey, set<LayerKey>>, sources': map<TensorKey, LayerKey>,
                         destinations': map<TensorKey, set<LayerKey>>)
    requires Filled(edges, sources, destinations) && !Conflicts(sources, edge)
    requires Entered(edge, edge.tensors, sources, destinations, sources', destinations')
    ensures Filled(edges + [edge], sources', destinations')
  {
    RoutesSnoc(edges, edge);
    forall e, x | e in edges + [edge] && x in e.tensors ensures sources'[x] == e.source {
      assert e in edges || e == edge;
      assert e in edges ==> x in RoutedTensors(edges);
    }
    forall x | x in destinations' ensures destinations'[x] == Consumers(edges + [edge], x) {
      assert x !in destinations ==> Consumers(edges, x) == {};
    }
  }

  method AddEdgeTensors(ghost edges: seq<Edge>, edge: Edge, sources: map<TensorKey, LayerKey>,
                        destinations: map<TensorKey, set<LayerKey>>)
    returns (sources': map<TensorKey, LayerKey>, destinations': map<TensorKey, set<LayerKey>>)
    requires Filled(edges, sources, destinations) && !Conflicts(sources, edge)
    ensures Filled(edges + [edge], sources', destinations')
  {
    hide Filled, Conflicts, Entered;
    sources', destinations' := sources, destinations;
    var pending := edge.tensors;
    ghost var done: set<TensorKey> := {};
    NothingEntered(edge, sources, destinations);
    while pending != {}
      invariant done + pending == edge.tensors && done !! pending
      invariant Entered(edge, done, sources, destinations, sources', destinations')
      decreases pending
    {
      var x :| x in pending;
      OneEntered(edge, done, x, sources, destinations, sources', destinations');
      sources' := sources'[x := edge.source];
      destinations' := destinations'[x := (if x in destinations' then destinations'[x] else {}) + {edge.target}];
      pending, done := pending - {x}, done + {x};
    }
    FilledByEntering(edges, edge, sources, destinations, sources', destinations');
  }

  /** The routes of all tensors, or an error exactly when a tensor has two sources. */
  method TensorRoutes(t: Topology) returns (r: Result<map<TensorKey, TensorRoute>>)
    requires Acyclic(t)
    ensures r.Ok? <==> SingleSource(t.edges)
    ensures r.Ok? ==> r.value.Keys == RoutedTensors(t.edges)
    ensures r.Ok? ==> forall x :: x in r.value ==> RouteOf(t, x, r.value[x])
  {
    hide Acyclic, Reachable, IsMaximal;
    var sources: map<TensorKey, LayerKey> := map[];
    var destinations: map<TensorKey, set<LayerKey>> := map[];
    for i := 0 to |t.edges|
      invariant SingleSource(t.edges[..i])
      invariant Filled(t.edges[..i], sources, destinations)
    {
      assert t.edges[..i + 1] == t.edges[..i] + [t.edges[i]];
      ConflictMeansTwoSources(t.edges[..i], t.edges[i], sources, destinations);
      if Conflicts(sources, t.edges[i]) {
        if SingleSource(t.edges) { SingleSourceOfPrefix(t.edges, i + 1); }
        return Err("Tensor has multiple sources");
      }
      sources, destinations := AddEdgeTensors(t.edges[..i], t.edges[i], sources, destinations);
    }
    assert t.edges[..|t.edges|] == t.edges;
    r := Ok(map x | x in destinations :: TensorRoute(
      sources[x], destinations[x], set d | d in destinations[x] && IsMaximal(t, destinations[x], d)));
  }
}
