/** Which tensors flow between the executable components: flow_solution_routes.py. */
module FlowRoutes {
  import opened Lp
  import opened Seqs
  import opened ModelTopology
  import opened Assignment
  import opened Structure
  import opened FlowSolutions

  /** Topologies as the model manager builds them. */
  ghost predicate AsBuilt(t: Topology)
  {
    && Acyclic(t) && SingleSource(t.edges)
    && (forall l :: l in t.inputs + t.outputs ==> l in t.order)
    && t.inputs !! t.outputs
    && (forall e :: e in t.edges ==> e.target !in t.inputs && e.source !in t.outputs && e.tensors != {})
    && (forall l {:trigger FromInput(t, l)} :: l in t.order ==> FromInput(t, l))
  }

  ghost predicate FromInput(t: Topology, l: LayerKey)
    requires Acyclic(t)
  {
    exists i :: i in t.inputs && Reachable(t, i, l)
  }

  // ----- the functions of the source

  predicate IsExecutable(c: ComponentSolution)
  {
    c.ExecutableLayers() != []
  }

  function ExecutableComponents(s: FlowSolution): (r: Result<seq<ComponentSolution>>)
    ensures r.Ok? ==> r.value != [] && forall c :: c in r.value ==> c in s.components && IsExecutable(c)
  {
    if exists i, j :: 0 <= i < j < |s.components| && s.components[i].index > s.components[j].index then
      Err("Flow components must be ordered by component index")
    else if exists i, j :: 0 <= i < j < |s.components| && s.components[i].index == s.components[j].index then
      Err("Flow component indexes must be unique")
    else
      var executable := Filter(s.components, IsExecutable);
      if executable == [] then Err("Flow has no executable components") else Ok(executable)
  }

  /** Python's `index`: the first position that holds the component. */
  function Position(components: seq<ComponentSolution>, c: ComponentSolution): (i: nat)
    requires c in components
    ensures i < |components| && components[i] == c && c !in components[..i]
  {
    if components[0] == c then 0 else 1 + Position(components[1..], c)
  }

  function CutTensors(s: FlowSolution, source: ComponentSolution, destination: ComponentSolution)
    : Result<set<TensorKey>>
  {
    var matching := Filter(s.cuts, (c: CutSolution) => c.source == source.index && c.destination == destination.index);
    if |matching| != 1 then Err("Each adjacent component pair must have exactly one cut")
    else Ok(matching[0].tensors)
  }

  function InputTensors(s: FlowSolution, first: ComponentSolution): Result<set<TensorKey>>
    requires first in s.components
  {
    var position := Position(s.components, first);
    if position == 0 then Ok(first.contract.inputs)
    else CutTensors(s, s.components[position - 1], first)
  }

  function ResultTensors(s: FlowSolution, last: ComponentSolution): Result<set<TensorKey>>
    requires last in s.components
  {
    var position := Position(s.components, last);
    if position + 1 == |s.components| then Ok(last.contract.outputs)
    else CutTensors(s, last, s.components[position + 1])
  }

  /** The cuts at the positions start, ..., stop - 1. */
  function CutsOver(s: FlowSolution, start: int, stop: int): Result<seq<set<TensorKey>>>
    requires 0 <= start && stop < |s.components|
    decreases stop - start
  {
    if start >= stop then Ok([]) else
    var head := CutTensors(s, s.components[start], s.components[start + 1]);
    if head.Err? then Err(head.message) else
    var tail := CutsOver(s, start + 1, stop);
    if tail.Err? then tail else Ok([head.value] + tail.value)
  }

  function TensorsBetween(s: FlowSolution, source: ComponentSolution, destination: ComponentSolution)
    : Result<set<TensorKey>>
    requires source in s.components && destination in s.components
  {
    var cuts := CutsOver(s, Position(s.components, source), Position(s.components, destination));
    if cuts.Err? then Err(cuts.message)
    else if cuts.value == [] then Err("tuple index out of range")
    else if exists tensors :: tensors in cuts.value[1..] && tensors != cuts.value[0] then
      Err("Cannot collapse a non-executable component that changes routed tensors")
    else Ok(cuts.value[0])
  }

  // ----- what enters and leaves a component

  // ----- when the lookups fail

  predicate Matches(s: FlowSolution, a: ComponentSolution, b: ComponentSolution, i: nat)
  {
    i < |s.cuts| && s.cuts[i].source == a.index && s.cuts[i].destination == b.index
  }

  /** The one and only cut between the two components. */
  predicate IsTheCut(s: FlowSolution, a: ComponentSolution, b: ComponentSolution, i: nat)
  {
    Matches(s, a, b, i) && forall j :: 0 <= j < |s.cuts| && j != i ==> !Matches(s, a, b, j)
  }

  /** A cut is found exactly if there is one and only one between the two components. */
  lemma CutTensorsExactly(s: FlowSolution, a: ComponentSolution, b: ComponentSolution)
    ensures CutTensors(s, a, b).Ok? <==> exists i: nat :: IsTheCut(s, a, b, i)
    ensures forall i: nat :: IsTheCut(s, a, b, i) ==> CutTensors(s, a, b) == Ok(s.cuts[i].tensors)
  {
    var f := (c: CutSolution) => c.source == a.index && c.destination == b.index;
    FilterOne(s.cuts, f);
    forall i: nat ensures IsTheCut(s, a, b, i) <==> OnlyAt(s.cuts, f, i) {
      if i < |s.cuts| {
        forall j | 0 <= j < |s.cuts| ensures Matches(s, a, b, j) <==> f(s.cuts[j]) { }
      }
    }
  }

  /** The cut after component k of the solution is found and has the tensors. */
  ghost predicate Carries(s: FlowSolution, k: int, tensors: set<TensorKey>)
  {
    0 <= k < |s.components| - 1 && CutTensors(s, s.components[k], s.components[k + 1]) == Ok(tensors)
  }

  ghost predicate AllCarry(s: FlowSolution, start: int, stop: int, tensors: set<TensorKey>)
  {
    forall k :: start <= k < stop ==> Carries(s, k, tensors)
  }

  /** The collected sets are those of the cuts. */
  lemma {:induction false} CutsOverExactly(s: FlowSolution, start: int, stop: int)
    requires 0 <= start && stop < |s.components| && CutsOver(s, start, stop).Ok?
    ensures |CutsOver(s, start, stop).value| == if start < stop then stop - start else 0
    ensures forall i :: 0 <= i < |CutsOver(s, start, stop).value| ==> Carries(s, start + i, CutsOver(s, start, stop).value[i])
    decreases stop - start
  {
    hide CutTensors;
    if start < stop { CutsOverExactly(s, start + 1, stop); }
  }

  lemma {:induction false} CutsOverFound(s: FlowSolution, start: int, stop: int, tensors: set<TensorKey>)
    requires 0 <= start && stop < |s.components| && AllCarry(s, start, stop, tensors)
    ensures CutsOver(s, start, stop).Ok? && forall x :: x in CutsOver(s, start, stop).value ==> x == tensors
    decreases stop - start
  {
    hide CutTensors;
    if start < stop {
      CutsOverFound(s, start + 1, stop, tensors);
      assert Carries(s, start, tensors);
    }
  }

  /** Between two executable components there is a single set of tensors exactly if all cuts on the way carry it. */
  lemma {:induction false} TensorsBetweenExactly(s: FlowSolution, source: ComponentSolution, destination: ComponentSolution)
    requires source in s.components && destination in s.components
    ensures var start, stop := Position(s.components, source), Position(s.components, destination);
            var r := TensorsBetween(s, source, destination);
            && (r.Ok? <==> start < stop && exists tensors :: AllCarry(s, start, stop, tensors))
            && (r.Ok? ==> AllCarry(s, start, stop, r.value))
  {
    hide CutsOver, AllCarry, Position;
    var start, stop := Position(s.components, source), Position(s.components, destination);
    var cuts := CutsOver(s, start, stop);
    if TensorsBetween(s, source, destination).Ok? {
      OneSetCarried(s, start, stop);
    }
    if start < stop && exists tensors :: AllCarry(s, start, stop, tensors) {
      var tensors :| AllCarry(s, start, stop, tensors);
      CutsOverFound(s, start, stop, tensors);
      CutsOverExactly(s, start, stop);
      assert cuts.value[0] in cuts.value && forall x :: x in cuts.value[1..] ==> x in cuts.value;
    }
  }

  lemma {:induction false} OneSetCarried(s: FlowSolution, start: int, stop: int)
    requires 0 <= start && stop < |s.components| && CutsOver(s, start, stop).Ok? && CutsOver(s, start, stop).value != []
    requires forall x :: x in CutsOver(s, start, stop).value[1..] ==> x == CutsOver(s, start, stop).value[0]
    ensures start < stop && AllCarry(s, start, stop, CutsOver(s, start, stop).value[0])
  {
    hide CutsOver, Carries;
    var sets := CutsOver(s, start, stop).value;
    CutsOverExactly(s, start, stop);
    AllTheSame(sets);
    forall k | start <= k < stop ensures Carries(s, k, sets[0]) {
      assert Carries(s, start + (k - start), sets[k - start]);
    }
  }

  lemma AllTheSame(sets: seq<set<TensorKey>>)
    requires sets != [] && forall x :: x in sets[1..] ==> x == sets[0]
    ensures forall i :: 0 <= i < |sets| ==> sets[i] == sets[0]
  {
    forall i | 0 < i < |sets| ensures sets[i] == sets[0] {
      assert sets[1..][i - 1] == sets[i] && sets[1..][i - 1] in sets[1..];
    }
  }

  /** The tensors that the input layers emit. */
  function EntryTensors(t: Topology): set<TensorKey>
  {
    set e, x | e in t.edges && e.source in t.inputs && x in e.tensors :: x
  }

  /** The tensors that the output layers receive. */
  function ExitTensors(t: Topology): set<TensorKey>
  {
    set e, x | e in t.edges && e.target in t.outputs && x in e.tensors :: x
  }

  ghost function Entering(t: Topology, pl: Placement, k: int): set<TensorKey>
  {
    if k == 1 then EntryTensors(t) else CrossingSet(t, pl, k - 1)
  }

  ghost function Leaving(t: Topology, pl: Placement, k: int): set<TensorKey>
  {
    if k == pl.last then ExitTensors(t) else CrossingSet(t, pl, k)
  }

  ghost predicate HasExecutable(t: Topology, pl: Placement, k: int)
  {
    exists l :: l in t.order && pl.componentOf(l) == k && l !in t.inputs && l !in t.outputs
  }

  /** The first and the last component with an executable layer, if there are any. */
  ghost function FirstExecutable(t: Topology, pl: Placement): int
  {
    if HasExecutable(t, pl, 1) then 1 else 2
  }

  ghost function LastExecutable(t: Topology, pl: Placement): int
  {
    if HasExecutable(t, pl, pl.last) then pl.last else pl.last - 1
  }

  // ----- facts about one placement

  ghost predicate Placed(fp: FlowProblem, t: Topology, pl: Placement)
  {
    WellFormed(fp) && Valid(fp, pl) && t == fp.topologyOf(pl.variant) && AsBuilt(t)
  }

  lemma EdgeEnds(fp: FlowProblem, t: Topology, pl: Placement, e: Edge)
    requires Placed(fp, t, pl) && e in t.edges
    ensures e.source in t.order && e.target in t.order
    ensures 1 <= pl.componentOf(e.source) <= pl.componentOf(e.target) <= pl.last
    ensures e.source in t.inputs ==> pl.componentOf(e.source) == 1
    ensures e.target in t.outputs ==> pl.componentOf(e.target) == pl.last
    ensures e.target !in t.inputs && e.source !in t.outputs
  {
  }

  /** A tensor crosses a cut when one of the edges that carry it does. */
  lemma CrossingByEdge(t: Topology, pl: Placement, cut: int, x: TensorKey)
    requires SingleSource(t.edges)
    ensures x in CrossingSet(t, pl, cut) <==> exists e :: EdgeCrosses(t, pl, cut, x, e)
  {
    if x in CrossingSet(t, pl, cut) {
      var d :| d in Consumers(t.edges, x) && pl.componentOf(d) > cut;
      var e :| e in t.edges && x in e.tensors && e.target == d;
      var f :| f in t.edges && x in f.tensors && f.source == Producer(t.edges, x);
      assert EdgeCrosses(t, pl, cut, x, e);
    }
    if e :| EdgeCrosses(t, pl, cut, x, e) {
      assert x in RoutedTensors(t.edges) && e.target in Consumers(t.edges, x);
      var f :| f in t.edges && x in f.tensors && f.source == Producer(t.edges, x);
    }
  }

  ghost predicate EdgeCrosses(t: Topology, pl: Placement, cut: int, x: TensorKey, e: Edge)
  {
    e in t.edges && x in e.tensors && pl.componentOf(e.source) <= cut < pl.componentOf(e.target)
  }

  /** If the first component only holds input layers, its cut carries what the inputs emit. */
  lemma FirstCut(fp: FlowProblem, t: Topology, pl: Placement)
    requires Placed(fp, t, pl) && !HasExecutable(t, pl, 1) && pl.last >= 2
    ensures CrossingSet(t, pl, 1) == EntryTensors(t)
  {
    forall x ensures x in CrossingSet(t, pl, 1) <==> x in EntryTensors(t) {
      CrossingByEdge(t, pl, 1, x);
      forall e | e in t.edges && x in e.tensors
        ensures EdgeCrosses(t, pl, 1, x, e) <==> e.source in t.inputs
      {
        EdgeEnds(fp, t, pl, e);
      }
    }
  }

  /** If the last component only holds output layers, the cut before it carries what they receive. */
  lemma LastCut(fp: FlowProblem, t: Topology, pl: Placement)
    requires Placed(fp, t, pl) && !HasExecutable(t, pl, pl.last) && pl.last >= 2
    ensures CrossingSet(t, pl, pl.last - 1) == ExitTensors(t)
  {
    forall x ensures x in CrossingSet(t, pl, pl.last - 1) <==> x in ExitTensors(t) {
      CrossingByEdge(t, pl, pl.last - 1, x);
      forall e | e in t.edges && x in e.tensors
        ensures EdgeCrosses(t, pl, pl.last - 1, x, e) <==> e.target in t.outputs
      {
        EdgeEnds(fp, t, pl, e);
      }
    }
  }

  /** Inner components hold neither input nor output layers, so all their layers are executable. */
  lemma InnerExecutable(fp: FlowProblem, t: Topology, pl: Placement, k: int)
    requires Placed(fp, t, pl) && 1 < k < pl.last
    ensures HasExecutable(t, pl, k)
  {
    assert Populated(t, pl, k);
    var l :| l in t.order && pl.componentOf(l) == k;
  }

  lemma ComponentExecutable(t: Topology, pl: Placement, k: int, c: ComponentSolution)
    requires IsComponent(t, pl, k, c)
    ensures forall l :: l in c.ExecutableLayers() <==>
              l in t.order && pl.componentOf(l) == k && l !in t.inputs && l !in t.outputs
    ensures IsExecutable(c) <==> HasExecutable(t, pl, k)
  {
    var layers := c.ExecutableLayers();
    if layers != [] {
      assert layers[0] in layers;
    }
  }

  // ----- the executable components are a window of all components

  lemma WindowOf(fp: FlowProblem, t: Topology, pl: Placement, s: FlowSolution)
    requires Placed(fp, t, pl) && IsSolution(fp, pl, s)
    ensures forall i :: 0 <= i < |s.components| ==>
              (IsExecutable(s.components[i]) <==> FirstExecutable(t, pl) <= i + 1 <= LastExecutable(t, pl))
  {
    hide IsExecutable, IsComponent, HasExecutable, Valid, WellFormed, AsBuilt;
    forall i | 0 <= i < |s.components|
      ensures IsExecutable(s.components[i]) <==> FirstExecutable(t, pl) <= i + 1 <= LastExecutable(t, pl)
    {
      ComponentExecutable(t, pl, i + 1, s.components[i]);
      if 0 < i < pl.last - 1 {
        InnerExecutable(fp, t, pl, i + 1);
      }
    }
  }

  /**
   Reading the routes of a solved flow fails only when the model has nothing to execute. Otherwise the
   executable components are those from the first to the last with an executable layer.
   */
  lemma ExecutableWindow(fp: FlowProblem, t: Topology, pl: Placement, s: FlowSolution)
    requires Placed(fp, t, pl) && IsSolution(fp, pl, s)
    ensures ExecutableComponents(s).Ok? <==> exists l :: l in t.order && l !in t.inputs && l !in t.outputs
    ensures ExecutableComponents(s).Ok? ==>
              && 1 <= FirstExecutable(t, pl) <= LastExecutable(t, pl) <= pl.last
              && ExecutableComponents(s).value == s.components[FirstExecutable(t, pl) - 1..LastExecutable(t, pl)]
  {
    var lo, hi := FirstExecutable(t, pl), LastExecutable(t, pl);
    WindowOf(fp, t, pl, s);
    IndexesAscend(fp, pl, s);
    SomeExecutable(fp, t, pl);
    OrderedExecutables(s);
    hide *;
    if lo <= hi {
      FilterWindow(s.components, IsExecutable, lo - 1, hi);
    } else {
      FilterWindow(s.components, IsExecutable, 0, 0);
    }
  }

  lemma OrderedExecutables(s: FlowSolution)
    requires forall i :: 0 <= i < |s.components| ==> s.components[i].index == i + 1
    ensures var executable := Filter(s.components, IsExecutable);
            && (ExecutableComponents(s).Ok? <==> executable != [])
            && (ExecutableComponents(s).Ok? ==> ExecutableComponents(s).value == executable)
  {
    hide IsExecutable, Filter;
  }

  lemma SomeExecutable(fp: FlowProblem, t: Topology, pl: Placement)
    requires Placed(fp, t, pl)
    ensures 1 <= FirstExecutable(t, pl) && LastExecutable(t, pl) <= pl.last
    ensures (exists l :: l in t.order && l !in t.inputs && l !in t.outputs)
       <==> FirstExecutable(t, pl) <= LastExecutable(t, pl)
  {
    if l :| l in t.order && l !in t.inputs && l !in t.outputs {
      assert HasExecutable(t, pl, pl.componentOf(l));
    }
    if 1 < LastExecutable(t, pl) {
      var k := if HasExecutable(t, pl, 1) then 1 else if HasExecutable(t, pl, pl.last) then pl.last else 2;
      if 1 < k < pl.last {
        InnerExecutable(fp, t, pl, k);
      }
    }
  }

  lemma IndexesAscend(fp: FlowProblem, pl: Placement, s: FlowSolution)
    requires IsSolution(fp, pl, s)
    ensures forall i :: 0 <= i < |s.components| ==> s.components[i].index == i + 1
    ensures forall i :: 0 <= i < |s.components| ==> Position(s.components, s.components[i]) == i
  {
    forall i | 0 <= i < |s.components| ensures s.components[i].index == i + 1 {
      assert IsComponent(fp.topologyOf(pl.variant), pl, i + 1, s.components[i]);
    }
  }

  lemma CutAt(fp: FlowProblem, pl: Placement, s: FlowSolution, i: int)
    requires IsSolution(fp, pl, s) && 1 <= i < |s.components|
    ensures CutTensors(s, s.components[i - 1], s.components[i])
         == Ok(CrossingSet(fp.topologyOf(pl.variant), pl, i))
  {
    IndexesAscend(fp, pl, s);
    var f := (c: CutSolution) => c.source == s.components[i - 1].index && c.destination == s.components[i].index;
    forall c | c in s.cuts ensures f(c) <==> c == s.cuts[i - 1] {
      var j :| 0 <= j < |s.cuts| && s.cuts[j] == c;
    }
    FilterSingle(s.cuts, f, s.cuts[i - 1]);
  }

  /** The first executable component is fed what the input layers emit. */
  lemma InputRoute(fp: FlowProblem, t: Topology, pl: Placement, s: FlowSolution)
    requires Placed(fp, t, pl) && IsSolution(fp, pl, s)
    requires 1 <= FirstExecutable(t, pl) <= LastExecutable(t, pl) <= pl.last
    ensures InputTensors(s, s.components[FirstExecutable(t, pl) - 1]) == Ok(EntryTensors(t))
    ensures Entering(t, pl, FirstExecutable(t, pl)) == EntryTensors(t)
  {
    IndexesAscend(fp, pl, s);
    if HasExecutable(t, pl, 1) {
      FirstContract(fp, t, pl, s.components[0]);
    } else {
      CutAt(fp, pl, s, 1);
      FirstCut(fp, t, pl);
    }
  }

  lemma FirstContract(fp: FlowProblem, t: Topology, pl: Placement, c: ComponentSolution)
    requires Placed(fp, t, pl) && IsComponent(t, pl, 1, c)
    ensures c.contract.inputs == EntryTensors(t)
  {
    var layers := LayerSet(c.layers);
    forall e | e in t.edges ensures Incoming(t, layers, e) <==> e.source in t.inputs {
      EdgeEnds(fp, t, pl, e);
      assert e.source in layers <==> pl.componentOf(e.source) == 1;
    }
    assert c.contract.inputs == set e, x | e in t.edges && Incoming(t, layers, e) && x in e.tensors :: x;
  }

  /** The last executable component sends what the output layers receive. */
  lemma ResultRoute(fp: FlowProblem, t: Topology, pl: Placement, s: FlowSolution)
    requires Placed(fp, t, pl) && IsSolution(fp, pl, s)
    requires 1 <= FirstExecutable(t, pl) <= LastExecutable(t, pl) <= pl.last
    ensures ResultTensors(s, s.components[LastExecutable(t, pl) - 1]) == Ok(ExitTensors(t))
    ensures Leaving(t, pl, LastExecutable(t, pl)) == ExitTensors(t)
  {
    IndexesAscend(fp, pl, s);
    if HasExecutable(t, pl, pl.last) {
      LastContract(fp, t, pl, s.components[pl.last - 1]);
    } else {
      CutAt(fp, pl, s, pl.last - 1);
      LastCut(fp, t, pl);
    }
  }

  lemma LastContract(fp: FlowProblem, t: Topology, pl: Placement, c: ComponentSolution)
    requires Placed(fp, t, pl) && IsComponent(t, pl, pl.last, c)
    ensures c.contract.outputs == ExitTensors(t)
  {
    var layers := LayerSet(c.layers);
    forall e | e in t.edges ensures Outgoing(t, layers, e) <==> e.target in t.outputs {
      EdgeEnds(fp, t, pl, e);
      assert e.target in layers <==> pl.componentOf(e.target) == pl.last;
    }
    assert c.contract.outputs == set e, x | e in t.edges && Outgoing(t, layers, e) && x in e.tensors :: x;
  }

  /** Neighbouring executable components exchange the tensors that cross the cut between them. */
  lemma MiddleRoute(fp: FlowProblem, pl: Placement, s: FlowSolution, i: int)
    requires IsSolution(fp, pl, s) && 1 <= i < |s.components|
    ensures TensorsBetween(s, s.components[i - 1], s.components[i])
         == Ok(CrossingSet(fp.topologyOf(pl.variant), pl, i))
  {
    hide IsSolution, CutTensors, CrossingSet, Position;
    IndexesAscend(fp, pl, s);
    CutAt(fp, pl, s, i);
    var crossing := CrossingSet(fp.topologyOf(pl.variant), pl, i);
    assert CutsOver(s, i, i) == Ok([]);
    assert [crossing] + [] == [crossing];
    assert CutsOver(s, i - 1, i) == Ok([crossing]);
  }

  // ----- no route is empty

  /** A path whose ends lie on the two sides of a cut has an edge across it. */
  lemma {:induction false} PathCrosses(t: Topology, componentOf: LayerKey -> int, a: LayerKey, b: LayerKey, cut: int)
    returns (e: Edge)
    requires Acyclic(t) && Reachable(t, a, b) && componentOf(a) <= cut < componentOf(b)
    ensures e in t.edges && componentOf(e.source) <= cut < componentOf(e.target)
    decreases |t.order| - Index(t.order, a)
  {
    e :| e in t.edges && e.source == a && Reachable(t, e.target, b);
    if componentOf(e.target) <= cut {
      e := PathCrosses(t, componentOf, e.target, b, cut);
    }
  }

  lemma CrossingNonEmpty(fp: FlowProblem, t: Topology, pl: Placement, cut: int)
    requires Placed(fp, t, pl) && 1 <= cut < pl.last
    ensures CrossingSet(t, pl, cut) != {}
  {
    assert Populated(t, pl, cut + 1);
    var l :| l in t.order && pl.componentOf(l) == cut + 1;
    assert FromInput(t, l);
    var i :| i in t.inputs && Reachable(t, i, l);
    var e := PathCrosses(t, pl.componentOf, i, l, cut);
    var x :| x in e.tensors;
    assert EdgeCrosses(t, pl, cut, x, e);
    CrossingByEdge(t, pl, cut, x);
  }

  lemma {:induction false} LastEdge(t: Topology, a: LayerKey, b: LayerKey) returns (e: Edge)
    requires Acyclic(t) && Reachable(t, a, b) && a != b
    ensures e in t.edges && e.target == b
    decreases |t.order| - Index(t.order, a)
  {
    e :| e in t.edges && e.source == a && Reachable(t, e.target, b);
    if e.target != b {
      e := LastEdge(t, e.target, b);
    }
  }

  lemma EndsNonEmpty(fp: FlowProblem, t: Topology, pl: Placement)
    requires Placed(fp, t, pl) && exists l :: l in t.order && l !in t.inputs && l !in t.outputs
    ensures EntryTensors(t) != {} && ExitTensors(t) != {}
  {
    var l :| l in t.order && l !in t.inputs && l !in t.outputs;
    assert FromInput(t, l);
    var i :| i in t.inputs && Reachable(t, i, l);
    var e :| e in t.edges && e.source == i && Reachable(t, e.target, l);
    var x :| x in e.tensors;
    assert x in EntryTensors(t);
    assert WellFormedTopology(t);
    var o :| o in t.order && o in t.outputs;
    assert FromInput(t, o);
    var j :| j in t.inputs && Reachable(t, j, o);
    var e' := LastEdge(t, j, o);
    var x' :| x' in e'.tensors;
    assert x' in ExitTensors(t);
  }
}
