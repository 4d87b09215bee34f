/** One hop on a worker: assembling a collection, handling the invocation, routing the outputs. */
module WorkerRuntime {
  import opened Lp
  import opened ModelTopology
  import opened Plans
  import opened Inference

  datatype PassContext = PassContext(flow: FlowId, version: nat, pass: nat)

  datatype Contribution = Contribution(context: PassContext, source: Hop, destination: Hop, bundle: Bundle)

  datatype Request = Request(context: PassContext, hop: Hop, payload: Bundle)

  /** A worker's plan store, by version. */
  type PlanStore = map<nat, WorkerPlan>

  /** Bundles merged in arrival order; a later tensor replaces an earlier one of the same name. */
  function Merged(contributions: seq<Contribution>): Bundle
  {
    if contributions == [] then map[]
    else Merged(contributions[..|contributions| - 1]) + contributions[|contributions| - 1].bundle
  }

  /** `TensorBundle.filter`. */
  function Restricted(b: Bundle, names: set<TensorKey>): (r: Bundle)
    ensures r.Keys == b.Keys * names && forall x :: x in r ==> r[x] == b[x]
  {
    map x | x in b && x in names :: b[x]
  }

  predicate OneCollection(contributions: seq<Contribution>)
    requires contributions != []
  {
    forall c :: c in contributions[1..] ==>
      c.context == contributions[0].context && c.destination == contributions[0].destination
  }

  /** What reaches the handler of the destination hop, from everything that arrived for it. */
  function Payload(store: PlanStore, context: PassContext, hop: Hop, full: Bundle): Result<Bundle>
  {
    match hop
    case Partition(id, _) =>
      if context.version !in store then Err("Plan for assembling does not exist") else
      var scheme := SchemeFor(store[context.version], id);
      if scheme.Err? then Err(scheme.message)
      else if !(scheme.value.inputs <= full.Keys) then Err("Missing partition inputs")
      else Ok(Restricted(full, scheme.value.inputs))
    case Ingress(_, _) => Ok(full)
    case Sink(_, _) => Ok(full)
    case External => Err("Unsupported destination hop")
  }

  function Assembled(store: PlanStore, contributions: seq<Contribution>): Result<Request>
  {
    if contributions == [] then Err("Cannot assemble an empty contribution collection")
    else if !OneCollection(contributions) then Err("Contributions belong to different collections")
    else
      var first := contributions[0];
      var payload := Payload(store, first.context, first.destination, Merged(contributions));
      if payload.Err? then Err(payload.message) else Ok(Request(first.context, first.destination, payload.value))
  }

  method Assemble(store: PlanStore, contributions: seq<Contribution>) returns (r: Result<Request>)
    ensures r == Assembled(store, contributions)
  {
    if |contributions| == 0 {
      return Err("Cannot assemble an empty contribution collection");
    }
    var first := contributions[0];
    if exists c :: c in contributions[1..] && (c.context != first.context || c.destination != first.destination) {
      return Err("Contributions belong to different collections");
    }
    var full: Bundle := map[];
    for i := 0 to |contributions|
      invariant full == Merged(contributions[..i])
    {
      full := full + contributions[i].bundle;
      assert contributions[..i + 1][..i] == contributions[..i];
    }
    assert contributions[..|contributions|] == contributions;
    var payload := Payload(store, first.context, first.destination, full);
    if payload.Err? {
      return Err(payload.message);
    }
    r := Ok(Request(first.context, first.destination, payload.value));
  }

  /** The handlers: ingress passes its payload on, a partition executes, the sink returns nothing. */
  ghost function Handled(topologyOf: ModelVariantId -> Topology, f: LayerFunction, request: Request): Result<Bundle>
    requires request.hop.Partition? ==>
               Acyclic(topologyOf(request.hop.id.variant)) && SingleSource(topologyOf(request.hop.id.variant).edges)
  {
    match request.hop
    case Partition(id, _) => Execute(topologyOf(id.variant), f, id.layers, request.payload)
    case Ingress(_, _) => Ok(request.payload)
    case Sink(_, _) => Ok(map[])
    case External => Err("Unsupported hop")
  }

  function Send(context: PassContext, hop: Hop, available: Bundle, o: OutputRouting): Contribution
  {
    Contribution(context, hop, o.destination.hop, Restricted(available, o.tensors))
  }

  /** The contributions of a hop whose invocation gave `result`; what arrived stays available to forward. */
  function Routed(store: PlanStore, context: PassContext, hop: Hop, incoming: seq<Contribution>, result: Bundle)
    : Result<seq<Contribution>>
  {
    if context.version !in store then Err("Plan does not exist") else
    var routings := RoutingsFor(store[context.version], HopAddress(context.flow, hop));
    if routings.Err? then Err(routings.message) else
    var available := Merged(incoming) + result;
    var routed := RouteOutputTensors(routings.value, available.Keys);
    if routed.Err? then Err(routed.message)
    else if hop.Sink? then (if routed.value != [] then Err("Sink hop cannot have output routes") else Ok([]))
    else if exists o :: o in routed.value && o.destination.flow != context.flow then
      Err("Cross-flow routing requires an explicit destination context")
    else Ok(seq(|routed.value|, i requires 0 <= i < |routed.value| => Send(context, hop, available, routed.value[i])))
  }

  method Route(store: PlanStore, context: PassContext, hop: Hop, incoming: seq<Contribution>, result: Bundle)
    returns (r: Result<seq<Contribution>>)
    ensures r == Routed(store, context, hop, incoming, result)
  {
    if context.version !in store {
      return Err("Plan does not exist");
    }
    var routings := RoutingsFor(store[context.version], HopAddress(context.flow, hop));
    if routings.Err? {
      return Err(routings.message);
    }
    var available: Bundle := map[];
    for i := 0 to |incoming|
      invariant available == Merged(incoming[..i])
    {
      available := available + incoming[i].bundle;
      assert incoming[..i + 1][..i] == incoming[..i];
    }
    assert incoming[..|incoming|] == incoming;
    available := available + result;
    var routed := RouteOutputTensors(routings.value, available.Keys);
    if routed.Err? {
      return Err(routed.message);
    }
    if hop.Sink? {
      if routed.value != [] {
        return Err("Sink hop cannot have output routes");
      }
      return Ok([]);
    }
    var contributions: seq<Contribution> := [];
    for i := 0 to |routed.value|
      invariant |contributions| == i
      invariant forall j :: 0 <= j < i ==>
                  && routed.value[j].destination.flow == context.flow
                  && contributions[j] == Send(context, hop, available, routed.value[j])
    {
      if routed.value[i].destination.flow != context.flow {
        assert routed.value[i] in routed.value;
        return Err("Cross-flow routing requires an explicit destination context");
      }
      contributions := contributions + [Send(context, hop, available, routed.value[i])];
    }
    assert contributions ==
           seq(|routed.value|, i requires 0 <= i < |routed.value| => Send(context, hop, available, routed.value[i]));
    r := Ok(contributions);
  }
}
