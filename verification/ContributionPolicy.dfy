/** Which contributions a worker accepts and when a collection is complete: the gathering policy. */
module ContributionPolicy {
  import opened Lp
  import opened ModelTopology
  import opened Plans
  import opened WorkerRuntime

  datatype Key = Key(context: PassContext, hop: Hop)

  function KeyOf(c: Contribution): Key
  {
    Key(c.context, c.destination)
  }

  function Origin(c: Contribution): HopAddress
  {
    HopAddress(c.context.flow, c.source)
  }

  function Destination(k: Key): HopAddress
  {
    HopAddress(k.context.flow, k.hop)
  }

  datatype Verdict = Fine | NoPlan | Invalid

  function Received(contributions: seq<Contribution>): set<TensorKey>
  {
    set c, x | c in contributions && x in c.bundle :: x
  }

  /** `validate`; the exceptions are the two bad verdicts. */
  function Validate(plans: PlanStore, others: seq<Contribution>, c: Contribution): Verdict
  {
    if exists o :: o in others && KeyOf(o) != KeyOf(c) then Invalid
    else if c.context.version !in plans then NoPlan
    else
      var routings := RoutingsFor(plans[c.context.version], Destination(KeyOf(c)));
      if routings.Err? then Invalid
      else if !ValidSources(routings.value, map[Origin(c) := c.bundle.Keys]) then Invalid
      else if c.bundle.Keys * Received(others) != {} then Invalid
      else Fine
  }

  /** The dictionary from source to everything received from it. */
  function Arrived(contributions: seq<Contribution>): map<HopAddress, set<TensorKey>>
  {
    if contributions == [] then map[] else
    var init, last := Arrived(contributions[..|contributions| - 1]), contributions[|contributions| - 1];
    init[Origin(last) := (if Origin(last) in init then init[Origin(last)] else {}) + last.bundle.Keys]
  }

  /** The loop of `is_ready` that fills the dictionary. */
  method CollectArrived(contributions: seq<Contribution>) returns (arrived: map<HopAddress, set<TensorKey>>)
    ensures arrived == Arrived(contributions)
  {
    arrived := map[];
    for i := 0 to |contributions|
      invariant arrived == Arrived(contributions[..i])
    {
      var c := contributions[i];
      arrived := arrived[Origin(c) := (if Origin(c) in arrived then arrived[Origin(c)] else {}) + c.bundle.Keys];
      assert contributions[..i + 1][..i] == contributions[..i];
    }
    assert contributions[..|contributions|] == contributions;
  }

  predicate HasRoutings(plans: PlanStore, k: Key)
  {
    k.context.version in plans && RoutingsFor(plans[k.context.version], Destination(k)).Ok?
  }

  function RoutingsOf(plans: PlanStore, k: Key): HopRoutings
    requires HasRoutings(plans, k)
  {
    RoutingsFor(plans[k.context.version], Destination(k)).value
  }

  /** `is_ready`, for a key whose routings exist. */
  predicate Ready(plans: PlanStore, k: Key, contributions: seq<Contribution>)
    requires HasRoutings(plans, k)
  {
    contributions != [] && InputsReady(RoutingsOf(plans, k), Arrived(contributions))
  }

  predicate DisjointBundles(contributions: seq<Contribution>)
  {
    forall i, j :: 0 <= i < j < |contributions| ==>
      contributions[i].bundle.Keys !! contributions[j].bundle.Keys
  }

  /** Contributions of one key, each within the routing contract, with no tensor twice. */
  predicate Accepted(plans: PlanStore, k: Key, contributions: seq<Contribution>)
  {
    && HasRoutings(plans, k)
    && (forall c :: c in contributions ==>
          KeyOf(c) == k && ValidSources(RoutingsOf(plans, k), map[Origin(c) := c.bundle.Keys]))
    && DisjointBundles(contributions)
  }

  lemma ValidateAccepts(plans: PlanStore, k: Key, others: seq<Contribution>, c: Contribution)
    requires KeyOf(c) == k && Validate(plans, others, c) == Fine
    requires others != [] ==> Accepted(plans, k, others)
    ensures Accepted(plans, k, others + [c])
  {
    hide ValidSources, RoutingsFor;
    var all := others + [c];
    forall i, j | 0 <= i < j < |all| ensures all[i].bundle.Keys !! all[j].bundle.Keys {
      if j == |others| {
        assert all[i] in others;
        forall x | x in all[i].bundle.Keys ensures x !in c.bundle.Keys {
          assert x in Received(others) && (x in c.bundle.Keys ==> x in c.bundle.Keys * Received(others));
        }
      }
    }
  }

  // ----- what a complete collection looks like

  lemma {:induction false} ArrivedFrom(contributions: seq<Contribution>, source: HopAddress, x: TensorKey)
    ensures (source in Arrived(contributions) && x in Arrived(contributions)[source])
       <==> exists i :: 0 <= i < |contributions| && Origin(contributions[i]) == source && x in contributions[i].bundle
  {
    if contributions != [] {
      var init, last := contributions[..|contributions| - 1], contributions[|contributions| - 1];
      ArrivedFrom(init, source, x);
      assert forall i :: 0 <= i < |init| ==> init[i] == contributions[i];
      if Origin(last) == source && x in last.bundle {
        assert Origin(contributions[|init|]) == source;
      }
      if i :| 0 <= i < |init| && Origin(init[i]) == source && x in init[i].bundle {
        assert Origin(contributions[i]) == source;
      }
    }
  }

  /**
   Every tensor that the routing expects from a source is in exactly one contribution, and that one comes
   from this source; nothing else is there.
   */
  lemma CompleteMeansExact(plans: PlanStore, k: Key, contributions: seq<Contribution>, source: HopAddress, x: TensorKey)
    requires Accepted(plans, k, contributions) && Ready(plans, k, contributions)
    ensures var expected := Expected(RoutingsOf(plans, k).inputs);
            (source in expected && x in expected[source])
            <==> exists i :: 0 <= i < |contributions| && Origin(contributions[i]) == source && x in contributions[i].bundle
    ensures forall i, j :: 0 <= i < |contributions| && 0 <= j < |contributions| ==>
              (x in contributions[i].bundle && x in contributions[j].bundle ==> i == j)
  {
    hide Expected, RoutingsFor;
    var expected := Expected(RoutingsOf(plans, k).inputs);
    ArrivedFrom(contributions, source, x);
    if i :| 0 <= i < |contributions| && Origin(contributions[i]) == source && x in contributions[i].bundle {
      var c := contributions[i];
      assert c in contributions;
      var arrived := map[Origin(c) := c.bundle.Keys];
      assert ValidSources(RoutingsOf(plans, k), arrived);
      assert source in arrived && arrived[source] == c.bundle.Keys;
    }
  }

  // ----- the merged payload

  lemma {:induction false} MergedFrom(contributions: seq<Contribution>, i: nat, x: TensorKey)
    requires DisjointBundles(contributions) && i < |contributions| && x in contributions[i].bundle
    ensures x in Merged(contributions) && Merged(contributions)[x] == contributions[i].bundle[x]
  {
    var init, last := contributions[..|contributions| - 1], contributions[|contributions| - 1];
    if i < |init| {
      MergedFrom(init, i, x);
      assert contributions[i].bundle.Keys !! last.bundle.Keys;
    }
  }

  lemma {:induction false} MergedOnly(contributions: seq<Contribution>, x: TensorKey) returns (i: nat)
    requires x in Merged(contributions)
    ensures i < |contributions| && x in contributions[i].bundle
  {
    var init, last := contributions[..|contributions| - 1], contributions[|contributions| - 1];
    if x in last.bundle {
      i := |init|;
    } else {
      i := MergedOnly(init, x);
    }
  }

  /** The payload of a collection does not depend on the order in which its contributions arrived. */
  lemma {:induction false} MergedIgnoresOrder(a: seq<Contribution>, b: seq<Contribution>)
    requires DisjointBundles(a) && DisjointBundles(b) && forall c :: c in a <==> c in b
    ensures Merged(a) == Merged(b)
  {
    MergedIncluded(a, b);
    MergedIncluded(b, a);
    assert Merged(a).Keys == Merged(b).Keys;
  }

  lemma {:induction false} MergedIncluded(a: seq<Contribution>, b: seq<Contribution>)
    requires DisjointBundles(a) && DisjointBundles(b) && forall c :: c in a ==> c in b
    ensures forall x :: x in Merged(a) ==> x in Merged(b) && Merged(a)[x] == Merged(b)[x]
  {
    forall x | x in Merged(a) ensures x in Merged(b) && Merged(a)[x] == Merged(b)[x] {
      var i := MergedOnly(a, x);
      MergedFrom(a, i, x);
      assert a[i] in b;
      var j :| 0 <= j < |b| && b[j] == a[i];
      MergedFrom(b, j, x);
    }
  }
}
