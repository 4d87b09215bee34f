/**
 When the steps of a worker succeed and what they give, from the contributions and the plan alone: assembling what
 arrived, routing a result, and validating one more contribution.
 */
module RuntimeChecks {
  import opened Lp
  import opened Plans
  import opened Inference
  import opened WorkerRuntime
  import opened ContributionPolicy

  // ----- what merging keeps

  /** The last contribution that carries the tensor. */
  predicate LastCarrier(contributions: seq<Contribution>, x: TensorKey, i: nat)
  {
    && i < |contributions| && x in contributions[i].bundle
    && forall j :: i < j < |contributions| ==> x !in contributions[j].bundle
  }

  predicate Carried(contributions: seq<Contribution>, x: TensorKey)
  {
    exists i :: 0 <= i < |contributions| && x in contributions[i].bundle
  }

  /** The bundle has the value of the last contribution that carries the tensor. */
  ghost predicate HasLast(contributions: seq<Contribution>, x: TensorKey, b: Bundle)
  {
    forall i: nat :: LastCarrier(contributions, x, i) ==> x in b && b[x] == contributions[i].bundle[x]
  }

  /** A merged bundle has what any contribution carries; of several values the last one stays. */
  lemma {:induction false} MergedExactly(contributions: seq<Contribution>, x: TensorKey)
    ensures x in Merged(contributions) <==> Carried(contributions, x)
    ensures HasLast(contributions, x, Merged(contributions))
  {
    hide Carried, HasLast;
    if contributions != [] {
      var init, last := contributions[..|contributions| - 1], contributions[|contributions| - 1];
      MergedExactly(init, x);
      OneMore(init, last, x, Merged(init));
      OneMoreCarried(init, last, x);
      assert init + [last] == contributions;
    } else {
      NothingCarried(x);
    }
  }

  lemma NothingCarried(x: TensorKey)
    ensures !Carried([], x) && HasLast([], x, map[])
  {
  }

  lemma OneMoreCarried(init: seq<Contribution>, last: Contribution, x: TensorKey)
    ensures Carried(init + [last], x) <==> Carried(init, x) || x in last.bundle
  {
    var all := init + [last];
    assert all[|init|] == last;
    if Carried(init, x) {
      var i :| 0 <= i < |init| && x in init[i].bundle;
      assert all[i] == init[i];
    }
  }

  lemma LastOfMore(init: seq<Contribution>, last: Contribution, x: TensorKey, i: nat)
    requires LastCarrier(init + [last], x, i)
    ensures if x in last.bundle then i == |init| else i < |init| && LastCarrier(init, x, i)
  {
    var all := init + [last];
    assert all[|init|] == last;
    if i < |init| {
      forall j | i < j < |init| ensures x !in init[j].bundle { assert all[j] == init[j]; }
    }
  }

  lemma OneMore(init: seq<Contribution>, last: Contribution, x: TensorKey, b: Bundle)
    requires HasLast(init, x, b)
    ensures HasLast(init + [last], x, b + last.bundle)
  {
    var all := init + [last];
    forall i: nat | LastCarrier(all, x, i) ensures x in b + last.bundle && (b + last.bundle)[x] == all[i].bundle[x] {
      LastOfMore(init, last, x, i);
    }
  }

  // ----- assembling

  /** The contributions belong together, and a partition finds its scheme and all its inputs. */
  predicate CanAssemble(store: PlanStore, contributions: seq<Contribution>)
  {
    && contributions != []
    && (forall i :: 0 <= i < |contributions| ==>
          && contributions[i].context == contributions[0].context
          && contributions[i].destination == contributions[0].destination)
    && !contributions[0].destination.External?
    && (contributions[0].destination.Partition? ==>
          HasInputs(store, contributions, contributions[0].context.version, contributions[0].destination.id))
  }

  predicate HasInputs(store: PlanStore, contributions: seq<Contribution>, version: nat, id: PartitionId)
  {
    && version in store && id in store[version].schemes
    && forall x :: x in store[version].schemes[id].inputs ==> Carried(contributions, x)
  }

  /** The payload has the merged tensors, for a partition those that its scheme names. */
  predicate Wanted(store: PlanStore, c: Contribution, x: TensorKey)
  {
    c.destination.Partition? ==>
      && c.context.version in store && c.destination.id in store[c.context.version].schemes
      && x in store[c.context.version].schemes[c.destination.id].inputs
  }

  ghost predicate AssemblesTo(store: PlanStore, contributions: seq<Contribution>, q: Request)
    requires contributions != []
  {
    && q.context == contributions[0].context && q.hop == contributions[0].destination
    && (forall x :: x in q.payload <==> Carried(contributions, x) && Wanted(store, contributions[0], x))
    && forall x :: x in q.payload ==> HasLast(contributions, x, q.payload)
  }

  lemma AssembledExactly(store: PlanStore, contributions: seq<Contribution>)
    ensures Assembled(store, contributions).Ok? <==> CanAssemble(store, contributions)
    ensures Assembled(store, contributions).Ok? ==>
              AssemblesTo(store, contributions, Assembled(store, contributions).value)
  {
    hide HasLast, Carried, Merged;
    forall x ensures x in Merged(contributions) <==> Carried(contributions, x) { MergedExactly(contributions, x); }
    if contributions != [] {
      assert forall i :: 0 < i < |contributions| ==> contributions[1..][i - 1] == contributions[i];
    }
    if Assembled(store, contributions).Ok? {
      var q := Assembled(store, contributions).value;
      forall x | x in q.payload ensures HasLast(contributions, x, q.payload) {
        MergedExactly(contributions, x);
        SameLast(contributions, x, Merged(contributions), q.payload);
      }
    }
  }

  lemma SameLast(contributions: seq<Contribution>, x: TensorKey, b: Bundle, c: Bundle)
    requires HasLast(contributions, x, b) && x in b && x in c && c[x] == b[x]
    ensures HasLast(contributions, x, c)
  {
  }

  // ----- routing

  /** The last entry for its destination, the one that counts. */
  predicate Counts(outputs: seq<OutputRouting>, i: nat)
  {
    i < |outputs| && forall j :: i < j < |outputs| ==> outputs[j].destination != outputs[i].destination
  }

  lemma {:induction false} PutExactly(entries: seq<OutputRouting>, o: OutputRouting, e: OutputRouting)
    requires forall i, j :: 0 <= i < j < |entries| ==> entries[i].destination != entries[j].destination
    ensures var r := PutDestination(entries, o);
            && (e in r <==> e == o || (e in entries && e.destination != o.destination))
            && (forall i, j :: 0 <= i < j < |r| ==> r[i].destination != r[j].destination)
  {
    if entries != [] {
      var rest := entries[1..];
      assert entries == [entries[0]] + rest;
      if entries[0].destination != o.destination {
        PutExactly(rest, o, e);
        var r := PutDestination(rest, o);
        forall j | 0 <= j < |r| ensures r[j].destination != entries[0].destination {
          PutExactly(rest, o, r[j]);
        }
      }
    }
  }

  /** The entry is the last one for its destination. */
  ghost predicate Final(outputs: seq<OutputRouting>, o: OutputRouting)
  {
    exists i: nat :: Counts(outputs, i) && outputs[i] == o
  }

  lemma OneMoreOutput(init: seq<OutputRouting>, last: OutputRouting, e: OutputRouting)
    ensures Final(init + [last], e) <==> e == last || (Final(init, e) && e.destination != last.destination)
  {
    var outputs := init + [last];
    assert Counts(outputs, |init|) && outputs[|init|] == last;
    if Final(init, e) && e.destination != last.destination {
      var i: nat :| Counts(init, i) && init[i] == e;
      assert Counts(outputs, i) && outputs[i] == e;
    }
    if Final(outputs, e) && e != last {
      var i: nat :| Counts(outputs, i) && outputs[i] == e;
      assert outputs[|init|].destination != outputs[i].destination;
      assert Counts(init, i) by {
        forall j | i < j < |init| ensures init[j].destination != init[i].destination { assert outputs[j] == init[j]; }
      }
    }
  }

  predicate OncePerDestination(entries: seq<OutputRouting>)
  {
    forall i, j :: 0 <= i < j < |entries| ==> entries[i].destination != entries[j].destination
  }

  lemma {:induction false} DestinationsExactly(outputs: seq<OutputRouting>, e: OutputRouting)
    ensures e in Destinations(outputs) <==> Final(outputs, e)
    ensures OncePerDestination(Destinations(outputs))
  {
    hide Final;
    if outputs != [] {
      var init, last := outputs[..|outputs| - 1], outputs[|outputs| - 1];
      DestinationsExactly(init, e);
      PutExactly(Destinations(init), last, e);
      assert init + [last] == outputs;
      OneMoreOutput(init, last, e);
    } else {
      NothingFinal(e);
    }
  }

  lemma NothingFinal(e: OutputRouting)
    ensures !Final([], e)
  {
  }

  /** The plan knows the hop, every tensor to send is there, a sink sends nothing, and nothing leaves the flow. */
  ghost predicate CanRoute(store: PlanStore, context: PassContext, hop: Hop, incoming: seq<Contribution>, result: Bundle)
  {
    && context.version in store && RoutingsFor(store[context.version], HopAddress(context.flow, hop)).Ok?
    && var outputs := RoutingsFor(store[context.version], HopAddress(context.flow, hop)).value.outputs;
       && (hop.Sink? ==> outputs == [])
       && forall o :: Final(outputs, o) ==> o.destination.flow == context.flow && CanSend(incoming, result, o)
  }

  ghost predicate CanSend(incoming: seq<Contribution>, result: Bundle, o: OutputRouting)
  {
    forall x :: x in o.tensors ==> x in result || Carried(incoming, x)
  }

  /** A contribution with exactly the tensors of the entry; a computed value comes before one that arrived. */
  ghost predicate Sent(context: PassContext, hop: Hop, incoming: seq<Contribution>, result: Bundle, o: OutputRouting,
                       c: Contribution)
  {
    && c.context == context && c.source == hop && c.destination == o.destination.hop && c.bundle.Keys == o.tensors
    && forall x :: x in o.tensors ==> if x in result then c.bundle[x] == result[x] else HasLast(incoming, x, c.bundle)
  }

  /** One contribution for the last entry of each destination. */
  ghost predicate RoutesTo(store: PlanStore, context: PassContext, hop: Hop, incoming: seq<Contribution>, result: Bundle,
                           sent: seq<Contribution>)
    requires CanRoute(store, context, hop, incoming, result)
  {
    exists entries: seq<OutputRouting> ::
      && |entries| == |sent| && OncePerDestination(entries)
      && (forall o :: o in entries <==>
            Final(RoutingsFor(store[context.version], HopAddress(context.flow, hop)).value.outputs, o))
      && forall k :: 0 <= k < |sent| ==> Sent(context, hop, incoming, result, entries[k], sent[k])
  }

  lemma {:induction false} AvailableExactly(incoming: seq<Contribution>, result: Bundle, x: TensorKey)
    ensures x in Merged(incoming) + result <==> x in result || Carried(incoming, x)
    ensures x in Merged(incoming) && x !in result ==> HasLast(incoming, x, Merged(incoming) + result)
  {
    hide HasLast, Carried, Merged;
    MergedExactly(incoming, x);
    if x in Merged(incoming) && x !in result { SameLast(incoming, x, Merged(incoming), Merged(incoming) + result); }
  }

  lemma {:induction false} SendIsSent(context: PassContext, hop: Hop, incoming: seq<Contribution>, result: Bundle, o: OutputRouting)
    requires o.tensors <= (Merged(incoming) + result).Keys
    ensures Sent(context, hop, incoming, result, o, Send(context, hop, Merged(incoming) + result, o))
  {
    hide HasLast, Merged;
    var c := Send(context, hop, Merged(incoming) + result, o);
    forall x | x in o.tensors
      ensures if x in result then c.bundle[x] == result[x] else HasLast(incoming, x, c.bundle)
    {
      AvailableExactly(incoming, result, x);
      if x !in result { SameLast(incoming, x, Merged(incoming) + result, c.bundle); }
    }
  }

  lemma {:induction false} AllThere(incoming: seq<Contribution>, result: Bundle, o: OutputRouting)
    ensures o.tensors <= (Merged(incoming) + result).Keys <==> CanSend(incoming, result, o)
  {
    hide Carried, Merged;
    forall x ensures x in Merged(incoming) + result <==> x in result || Carried(incoming, x) {
      AvailableExactly(incoming, result, x);
    }
  }

  /** What is left of the entries, and when all of it can be sent. */
  lemma {:induction false} EntriesExactly(outputs: seq<OutputRouting>, incoming: seq<Contribution>, result: Bundle)
    ensures OncePerDestination(Destinations(outputs)) && (Destinations(outputs) == [] <==> outputs == [])
    ensures forall o :: o in Destinations(outputs) <==> Final(outputs, o)
    ensures forall o: OutputRouting :: o.tensors <= (Merged(incoming) + result).Keys <==> CanSend(incoming, result, o)
  {
    hide Final, Merged, CanSend, Destinations, OncePerDestination;
    forall o
      ensures o in Destinations(outputs) <==> Final(outputs, o)
      ensures o.tensors <= (Merged(incoming) + result).Keys <==> CanSend(incoming, result, o)
    {
      DestinationsExactly(outputs, o);
      AllThere(incoming, result, o);
    }
    NoEntries(outputs);
    DestinationsExactly(outputs, OutputRouting(HopAddress(FlowId(0), External), {}));
  }

  /** Routing succeeds exactly if it can. */
  lemma RoutedWhen(store: PlanStore, context: PassContext, hop: Hop, incoming: seq<Contribution>, result: Bundle)
    ensures Routed(store, context, hop, incoming, result).Ok? <==> CanRoute(store, context, hop, incoming, result)
  {
    hide Final, Merged, CanSend, Destinations, RoutingsFor, OncePerDestination, Send;
    if context.version in store && RoutingsFor(store[context.version], HopAddress(context.flow, hop)).Ok? {
      EntriesExactly(RoutingsFor(store[context.version], HopAddress(context.flow, hop)).value.outputs, incoming, result);
    }
  }

  /** Routing sends one contribution for the last entry of each destination, with what the entry names. */
  lemma RoutedExactly(store: PlanStore, context: PassContext, hop: Hop, incoming: seq<Contribution>, result: Bundle)
    ensures var r := Routed(store, context, hop, incoming, result);
            && (r.Ok? <==> CanRoute(store, context, hop, incoming, result))
            && (r.Ok? ==> RoutesTo(store, context, hop, incoming, result, r.value))
  {
    hide Final, Merged, CanSend, Destinations, RoutingsFor, Sent, OncePerDestination, CanRoute, Send;
    RoutedWhen(store, context, hop, incoming, result);
    var r := Routed(store, context, hop, incoming, result);
    if r.Ok? {
      var outputs := RoutingsFor(store[context.version], HopAddress(context.flow, hop)).value.outputs;
      var entries := Destinations(outputs);
      EntriesExactly(outputs, incoming, result);
      forall k | 0 <= k < |entries| ensures Sent(context, hop, incoming, result, entries[k], r.value[k]) {
        SendIsSent(context, hop, incoming, result, entries[k]);
      }
    }
  }

  lemma {:induction false} NoEntries(outputs: seq<OutputRouting>)
    ensures Destinations(outputs) == [] <==> outputs == []
  {
    hide PutDestination;
    if outputs != [] { PutSome(Destinations(outputs[..|outputs| - 1]), outputs[|outputs| - 1]); }
  }

  lemma {:induction false} PutSome(entries: seq<OutputRouting>, o: OutputRouting)
    ensures PutDestination(entries, o) != []
  {
  }

  // ----- validating

  /** The contribution belongs to the others, its source is expected, and it brings only expected tensors, none twice. */
  ghost predicate Acceptable(plans: PlanStore, others: seq<Contribution>, c: Contribution)
  {
    && (forall i :: 0 <= i < |others| ==> KeyOf(others[i]) == KeyOf(c))
    && c.context.version in plans
    && RoutingsFor(plans[c.context.version], HopAddress(c.context.flow, c.destination)).Ok?
    && var expected := Expected(RoutingsFor(plans[c.context.version], HopAddress(c.context.flow, c.destination)).value.inputs);
       && Origin(c) in expected
       && forall x :: x in c.bundle ==> x in expected[Origin(c)] && !Carried(others, x)
  }

  /** A contribution is accepted exactly if it is acceptable, and the plan is missed only for one that belongs. */
  lemma ValidateExactly(plans: PlanStore, others: seq<Contribution>, c: Contribution)
    ensures Validate(plans, others, c) == Fine <==> Acceptable(plans, others, c)
    ensures Validate(plans, others, c) == NoPlan <==>
            (forall i :: 0 <= i < |others| ==> KeyOf(others[i]) == KeyOf(c)) && c.context.version !in plans
  {
    hide RoutingsFor, Expected;
    forall x ensures x in Received(others) <==> Carried(others, x) { ReceivedIsCarried(others, x); }
    assert forall x :: x in c.bundle.Keys * Received(others) <==> x in c.bundle && Carried(others, x);
  }

  lemma ReceivedIsCarried(contributions: seq<Contribution>, x: TensorKey)
    ensures x in Received(contributions) <==> Carried(contributions, x)
  {
    if Carried(contributions, x) {
      var i :| 0 <= i < |contributions| && x in contributions[i].bundle;
      assert contributions[i] in contributions;
    }
  }
}
