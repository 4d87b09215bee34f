/** Hops, routings and worker plans: the plan domain of the controller and of the worker. */
module Plans {
  import opened Lp
  import opened Sums
  import opened ModelTopology

  /** The layers of a partition are kept sorted, so they are a set. */
  datatype PartitionId = PartitionId(variant: ModelVariantId, layers: set<LayerKey>)

  datatype Hop =
    | External
    | Ingress(variant: ModelVariantId, replica: nat)
    | Partition(id: PartitionId, replica: nat)
    | Sink(variant: ModelVariantId, replica: nat)

  datatype HopAddress = HopAddress(flow: FlowId, hop: Hop)
  datatype InputRouting = InputRouting(source: HopAddress, tensors: set<TensorKey>)
  datatype OutputRouting = OutputRouting(destination: HopAddress, tensors: set<TensorKey>)
  datatype HopRoutings = HopRoutings(inputs: seq<InputRouting>, outputs: seq<OutputRouting>)
  datatype Scheme = Scheme(inputs: set<TensorKey>, outputs: set<TensorKey>)

  datatype WorkerPlan = WorkerPlan(
    version: nat,
    executableHops: seq<Hop>,
    ingressHops: seq<Hop>,
    sinkHops: seq<Hop>,
    priorityKeys: seq<HopAddress>,
    priorities: seq<int>,
    schemes: map<PartitionId, Scheme>,
    addresses: seq<HopAddress>,
    routings: seq<HopRoutings>)

  /** The checks of HopInputRouting, HopOutputRouting and HopRoutings. */
  predicate ValidRoutings(r: HopRoutings)
  {
    && (forall i :: 0 <= i < |r.inputs| ==> r.inputs[i].tensors != {})
    && (forall i :: 0 <= i < |r.outputs| ==> r.outputs[i].tensors != {})
    && (forall i, j :: 0 <= i < j < |r.inputs| ==>
          r.inputs[i].source != r.inputs[j].source && r.inputs[i].tensors !! r.inputs[j].tensors)
    && (forall i, j :: 0 <= i < j < |r.outputs| ==> r.outputs[i].destination != r.outputs[j].destination)
  }

  function HopsOf(addresses: seq<HopAddress>): set<Hop>
  {
    set a | a in addresses :: a.hop
  }

  function PartitionsOf(hops: seq<Hop>): set<PartitionId>
  {
    set h | h in hops && h.Partition? :: h.id
  }

  /** The checks of DeploymentPlan, SchedulingPlan, HopRoutingPlan and WorkerPlan. */
  predicate ValidPlan(p: WorkerPlan)
  {
    && Distinct(p.executableHops) && Distinct(p.ingressHops) && Distinct(p.sinkHops)
    && Distinct(p.priorityKeys) && |p.priorityKeys| == |p.priorities|
    && (forall i :: 0 <= i < |p.priorities| ==> p.priorities[i] >= 0)
    && Distinct(p.addresses) && |p.addresses| == |p.routings|
    && (set h | h in p.executableHops + p.ingressHops + p.sinkHops) == HopsOf(p.addresses)
    && PartitionsOf(p.executableHops) == p.schemes.Keys
    && HopsOf(p.priorityKeys) <= set h | h in p.executableHops
  }

  /** `get_routings_for_hop_address`. */
  function RoutingsFor(p: WorkerPlan, a: HopAddress): Result<HopRoutings>
  {
    if a !in p.addresses then Err("No routing for hop address") else
    var i := AddressIndex(p.addresses, a);
    if i < |p.routings| then Ok(p.routings[i]) else Err("tuple index out of range")
  }

  function AddressIndex(addresses: seq<HopAddress>, a: HopAddress): (i: nat)
    requires a in addresses
    ensures i < |addresses| && addresses[i] == a && a !in addresses[..i]
  {
    if addresses[0] == a then 0 else 1 + AddressIndex(addresses[1..], a)
  }

  /** `get_scheme_by_partition_id`. */
  function SchemeFor(p: WorkerPlan, id: PartitionId): Result<Scheme>
  {
    if id in p.schemes then Ok(p.schemes[id]) else Err("No scheme for the partition")
  }

  // ----- readiness and routing on a worker

  /** The dictionary from source to tensors; a repeated source keeps its last entry. */
  function Expected(inputs: seq<InputRouting>): map<HopAddress, set<TensorKey>>
  {
    if inputs == [] then map[]
    else Expected(inputs[..|inputs| - 1])[inputs[|inputs| - 1].source := inputs[|inputs| - 1].tensors]
  }

  /** `check_inputs_ready`. */
  predicate InputsReady(r: HopRoutings, arrived: map<HopAddress, set<TensorKey>>)
  {
    var expected := Expected(r.inputs);
    forall s :: s in expected ==> (if s in arrived then arrived[s] else {}) == expected[s]
  }

  /** `check_valid_sources`, true when it raises nothing. */
  predicate ValidSources(r: HopRoutings, arrived: map<HopAddress, set<TensorKey>>)
  {
    var expected := Expected(r.inputs);
    arrived.Keys <= expected.Keys && forall s :: s in arrived ==> arrived[s] <= expected[s]
  }

  /** The dictionary from destination to tensors, in the order in which the destinations first occur. */
  function Destinations(outputs: seq<OutputRouting>): seq<OutputRouting>
  {
    if outputs == [] then []
    else PutDestination(Destinations(outputs[..|outputs| - 1]), outputs[|outputs| - 1])
  }

  function PutDestination(entries: seq<OutputRouting>, o: OutputRouting): seq<OutputRouting>
  {
    if entries == [] then [o]
    else if entries[0].destination == o.destination then [o] + entries[1..]
    else [entries[0]] + PutDestination(entries[1..], o)
  }

  /** `route_output_tensors`. */
  function RouteOutputTensors(r: HopRoutings, available: set<TensorKey>): Result<seq<OutputRouting>>
  {
    var routed := Destinations(r.outputs);
    if exists o :: o in routed && !(o.tensors <= available) then Err("Missing output tensors") else Ok(routed)
  }
}
