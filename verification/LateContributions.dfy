/**
 Which handles of the contribution pipeline can still be resolved, and two runs in which a contribution comes
 after its collection has been deposited.
 */
module LateContributions {
  import opened Lp
  import opened Plans
  import opened Inference
  import opened WorkerRuntime
  import opened ContributionPolicy
  import opened ContributionPipeline
  import opened ContributionOutcomes

  // ----- two runs

  function SinkHop(): Hop { Sink(ModelVariantId(0), 0) }

  function SourceHop(i: nat): Hop { Ingress(ModelVariantId(0), i) }

  function Expecting(i: nat, x: TensorKey): InputRouting
  {
    InputRouting(HopAddress(FlowId(0), SourceHop(i)), {x})
  }

  /** A worker with one sink. */
  function SinkPlan(inputs: seq<InputRouting>): WorkerPlan
  {
    WorkerPlan(0, [], [], [SinkHop()], [], [], map[], [HopAddress(FlowId(0), SinkHop())], [HopRoutings(inputs, [])])
  }

  function OneSource(): WorkerPlan { SinkPlan([Expecting(0, "x")]) }

  function TwoSources(): WorkerPlan { SinkPlan([Expecting(0, "x"), Expecting(1, "y")]) }

  lemma PlansAreValid()
    ensures ValidPlan(OneSource()) && ValidRoutings(OneSource().routings[0])
    ensures ValidPlan(TwoSources()) && ValidRoutings(TwoSources().routings[0])
  {
    var p, q := OneSource(), TwoSources();
    assert (set h | h in p.executableHops + p.ingressHops + p.sinkHops) == {SinkHop()} == HopsOf(p.addresses);
    assert (set h | h in q.executableHops + q.ingressHops + q.sinkHops) == {SinkHop()} == HopsOf(q.addresses);
    assert PartitionsOf(p.executableHops) == {} == PartitionsOf(q.executableHops);
  }

  function TheKey(): Key { Key(PassContext(FlowId(0), 0, 0), SinkHop()) }

  function Carrier(i: nat, x: TensorKey): Contribution
  {
    Contribution(TheKey().context, SourceHop(i), SinkHop(), map[x := Tensor([], [])])
  }

  /** Nothing has been submitted yet. */
  function Fresh(plan: WorkerPlan): State
  {
    State(map[0 := plan], map[], [], map[], [], map[], {}, [], [])
  }

  lemma FreshIsInitial(plan: WorkerPlan) returns (run: seq<State>)
    ensures run == [Fresh(plan)] && Reached(run, Fresh(plan)) && Leads(Fresh(plan), Fresh(plan)) && Inv(Fresh(plan))
    ensures Idle(Fresh(plan), TheKey()) && Free(Fresh(plan), TheKey()) && Waitable(Fresh(plan), TheKey())
  {
    hide Inv;
    run := [Fresh(plan)];
    InitialKeeps(Fresh(plan));
    LeadsSelf(Fresh(plan));
  }

  lemma ExpectedOfOne(a: InputRouting)
    ensures Expected([a]) == map[a.source := a.tensors]
  {
    var one := [a];
    assert one[..|one| - 1] == [] && one[|one| - 1] == a;
    assert Expected(one) == Expected([])[a.source := a.tensors];
  }

  lemma ExpectedOfTwo(a: InputRouting, b: InputRouting)
    ensures Expected([a, b]) == map[a.source := a.tensors][b.source := b.tensors]
  {
    var two := [a, b];
    assert two[..|two| - 1] == [a] && two[|two| - 1] == b;
    ExpectedOfOne(a);
    assert Expected(two) == Expected([a])[b.source := b.tensors];
  }

  lemma ArrivedOfOne(c: Contribution)
    ensures Arrived([c]) == map[Origin(c) := c.bundle.Keys]
  {
    var one := [c];
    assert one[..|one| - 1] == [] && one[|one| - 1] == c;
    assert Arrived([]) == map[];
    assert {} + c.bundle.Keys == c.bundle.Keys;
    assert Arrived(one) == Arrived([])[Origin(c) := {} + c.bundle.Keys];
  }

  lemma ArrivedOfTwo(c: Contribution, d: Contribution)
    requires Origin(c) != Origin(d)
    ensures Arrived([c, d]) == map[Origin(c) := c.bundle.Keys, Origin(d) := d.bundle.Keys]
  {
    var two := [c, d];
    assert two[..|two| - 1] == [c] && two[|two| - 1] == d;
    ArrivedOfOne(c);
    assert {} + d.bundle.Keys == d.bundle.Keys;
    assert Arrived(two) == Arrived([c])[Origin(d) := {} + d.bundle.Keys];
  }

  lemma PlanKnowsSink(inputs: seq<InputRouting>)
    ensures HasRoutings(map[0 := SinkPlan(inputs)], TheKey())
    ensures RoutingsOf(map[0 := SinkPlan(inputs)], TheKey()) == HopRoutings(inputs, [])
  {
  }

  /** With one source its contribution is valid, and it is a complete set. */
  lemma OneSourceJudges()
    ensures var plans := map[0 := OneSource()];
            && HasRoutings(plans, TheKey()) && Validate(plans, [], Carrier(0, "x")) == Fine
            && Ready(plans, TheKey(), [Carrier(0, "x")])
  {
    PlanKnowsSink([Expecting(0, "x")]);
    ExpectedOfOne(Expecting(0, "x"));
    ArrivedOfOne(Carrier(0, "x"));
    assert Carrier(0, "x").bundle.Keys == {"x"};
    assert Received([]) == {};
  }

  /** With two sources, the contribution of one of them is valid, and it needs the other to be complete. */
  lemma TwoSourcesJudge()
    ensures var plans, a, b := map[0 := TwoSources()], Carrier(0, "x"), Carrier(1, "y");
            && HasRoutings(plans, TheKey())
            && Validate(plans, [], a) == Fine && !Ready(plans, TheKey(), [a])
            && Validate(plans, [a], b) == Fine && Ready(plans, TheKey(), [a, b])
  {
    var a, b := Carrier(0, "x"), Carrier(1, "y");
    PlanKnowsSink([Expecting(0, "x"), Expecting(1, "y")]);
    ExpectedOfTwo(Expecting(0, "x"), Expecting(1, "y"));
    ArrivedOfOne(a);
    ArrivedOfTwo(a, b);
    assert a.bundle.Keys == {"x"} && b.bundle.Keys == {"y"};
    assert Received([]) == {} && Received([a]) == {"x"};
  }

  /**
   A complete contribution is submitted twice, one after the other: the second one is refused, and leaves a
   registered handle that is pending.
   */
  lemma LateCompleteIsRefused() returns (run: seq<State>, s: State, t: nat)
    ensures Reached(run, s) && TheKey() in s.keys
    ensures t < |s.tasks| && TaskKey(s.tasks[t]) == TheKey() && s.tasks[t].pc == Done(DuplicateSubmission)
    ensures TheKey() in s.handles && s.handles[TheKey()] < |s.futures|
    ensures s.futures[s.handles[TheKey()]] == Future(TheKey(), Pending) && Idle(s, TheKey())
  {
    hide Inv, Leads, Validate, Ready, OneSource, Step;
    var s0, c := Fresh(OneSource()), Carrier(0, "x");
    OneSourceJudges();
    var start := FreshIsInitial(OneSource());
    assert [] + [c] == [c];
    var s1, h := LoneSubmission(s0, s0, c);
    AddedIdle(s0, s1, c);
    var s2, h2 := LoneSubmission(s0, s1, c);
    AddedIdle(s1, s2, c);
    run := LeadsReached(start, s0, s2);
    s, t := s2, 1;
  }

  /**
   With two sources, the first contribution is stored and the second one completes the collection; when the
   first one is submitted again, it is stored again and its submitter gets a fresh handle that is pending.
   */
  lemma LateIncompleteIsStored() returns (run: seq<State>, s: State, t: nat, h: nat)
    ensures Reached(run, s) && TheKey() in s.keys && StoreAt(s, TheKey()) == [Carrier(0, "x")]
    ensures t < |s.tasks| && TaskKey(s.tasks[t]) == TheKey() && s.tasks[t].pc == Done(Returned(h))
    ensures TheKey() in s.handles && s.handles[TheKey()] == h && h < |s.futures|
    ensures s.futures[h] == Future(TheKey(), Pending) && Idle(s, TheKey())
  {
    hide Inv, Leads, Validate, Ready, TwoSources, Step;
    var s0, a, b := Fresh(TwoSources()), Carrier(0, "x"), Carrier(1, "y");
    TwoSourcesJudge();
    var start := FreshIsInitial(TwoSources());
    var s1, h1 := LoneSubmission(s0, s0, a);
    AddedIdle(s0, s1, a);
    assert [] + [a] == [a] && [a] + [b] == [a, b];
    var s2, h2 := LoneSubmission(s0, s1, b);
    AddedIdle(s1, s2, b);
    var s3, h3 := LoneSubmission(s0, s2, a);
    AddedIdle(s2, s3, a);
    run := LeadsReached(start, s0, s3);
    s, t, h := s3, 2, h3;
  }

  // ----- which handles can still be resolved

  /**
   What can be read off the routings of a key: contributions of its own flow can bring all that is expected,
   and no tensor is expected from two sources, since one that arrives twice is a duplicate.
   */
  ghost predicate Completable(plans: PlanStore, k: Key)
  {
    && HasRoutings(plans, k)
    && var expected := Expected(RoutingsOf(plans, k).inputs);
       && (exists a :: a in expected && a.flow == k.context.flow)
       && (forall a, b :: a in expected && b in expected && a != b ==> expected[a] !! expected[b])
       && (forall a :: a in expected && expected[a] != {} ==> a.flow == k.context.flow)
  }

  lemma {:induction false} ExpectedEntries(inputs: seq<InputRouting>, a: HopAddress)
    ensures a in Expected(inputs) ==>
              exists i :: 0 <= i < |inputs| && inputs[i].source == a && inputs[i].tensors == Expected(inputs)[a]
    ensures (exists i :: 0 <= i < |inputs| && inputs[i].source == a) ==> a in Expected(inputs)
  {
    if inputs != [] {
      var init, last := inputs[..|inputs| - 1], inputs[|inputs| - 1];
      ExpectedEntries(init, a);
      if a == last.source {
        assert inputs[|init|].source == a;
      } else {
        if i :| 0 <= i < |inputs| && inputs[i].source == a {
          assert init[i].source == a;
        }
        if a in Expected(init) {
          var i :| 0 <= i < |init| && init[i].source == a && init[i].tensors == Expected(init)[a];
          assert inputs[i].source == a;
        }
      }
    }
  }

  /** Routings that pass the checks of a plan, with inputs of the hop's own flow, are completable. */
  lemma PlannedIsCompletable(plans: PlanStore, k: Key)
    requires HasRoutings(plans, k) && ValidRoutings(RoutingsOf(plans, k)) && RoutingsOf(plans, k).inputs != []
    requires forall i :: i in RoutingsOf(plans, k).inputs ==> i.source.flow == k.context.flow
    ensures Completable(plans, k)
  {
    hide RoutingsOf, HasRoutings, Expected;
    var inputs := RoutingsOf(plans, k).inputs;
    var expected := Expected(inputs);
    ExpectedEntries(inputs, inputs[0].source);
    assert inputs[0] in inputs;
    forall a | a in expected ensures a.flow == k.context.flow {
      ExpectedEntries(inputs, a);
      var i :| 0 <= i < |inputs| && inputs[i].source == a && inputs[i].tensors == expected[a];
      assert inputs[i] in inputs;
    }
    forall a, b | a in expected && b in expected && a != b ensures expected[a] !! expected[b] {
      ExpectedEntries(inputs, a);
      ExpectedEntries(inputs, b);
    }
  }

  /** A set that was accepted as complete shows that the routings are completable. */
  lemma CompleteIsCompletable(plans: PlanStore, k: Key, cs: seq<Contribution>)
    requires Accepted(plans, k, cs) && Ready(plans, k, cs)
    ensures Completable(plans, k)
  {
    hide Expected, RoutingsFor, Arrived;
    var expected := Expected(RoutingsOf(plans, k).inputs);
    var c := cs[0];
    assert c in cs && Origin(c) in map[Origin(c) := c.bundle.Keys];
    forall a, x | a in expected && x in expected[a] ensures a.flow == k.context.flow {
      CompleteMeansExact(plans, k, cs, a, x);
      var i :| 0 <= i < |cs| && Origin(cs[i]) == a && x in cs[i].bundle;
      assert cs[i] in cs;
    }
    forall a, b, x | a in expected && b in expected && a != b && x in expected[a] ensures x !in expected[b] {
      CompleteMeansExact(plans, k, cs, a, x);
      CompleteMeansExact(plans, k, cs, b, x);
    }
  }

  /** The lock of the key is free, and its registered handle waits for a collection that has not been deposited. */
  ghost predicate Open(s: State, k: Key, h: nat)
  {
    Inv(s) && Free(s, k) && Registered(s, k, h) && k !in s.keys
  }

  function Rank(pc: Pc): nat
  {
    if pc.Fetching? then 4 else if pc.Validating? then 3 else if pc.Gathering? then 2 else 1
  }

  /** Whoever is inside the lock runs to its end, and either resolves the handle or leaves it open. */
  lemma {:induction false} HolderEnds(s0: State, s: State, t: nat, k: Key, h: nat) returns (s': State)
    requires Leads(s0, s) && Holds(s, t, k) && Registered(s, k, h) && k !in s.keys
    ensures Leads(s0, s') && (ResolvedOf(s', k, h) || (Open(s', k, h) && s'.plans == s.plans))
    decreases Rank(s.tasks[t].pc)
  {
    hide Leads, Inv, Free, Count, Accepted, Ready, Shaped, Validate, HasRoutings, KeyOk, Rest;
    match s.tasks[t].pc
    case Fetching(_, _) =>
      var s1 := HolderGoesOn(s0, s, t, k);
      s' := HolderEnds(s0, s1, t, k, h);
    case Validating(_, _, _) =>
      var s1 := CheckGoesOn(s0, s, t, k, h);
      s' := HolderEnds(s0, s1, t, k, h);
    case Deciding(_, _, _) =>
      s' := DecideOutcome(s0, s, t, k, h);
      EndedOpen(s, s', t, k, h, StoreAt(s, k) + [s.tasks[t].contribution]);
    case Gathering(_, _, _) =>
      var s1 := HolderGoesOn(s0, s, t, k);
      s' := HolderEnds(s0, s1, t, k, h);
    case Depositing(_, _, _) =>
      s' := DepositOutcome(s0, s, t, k, h);
    case Putting(_, _) =>
      s' := PutOutcome(s0, s, t, k, h);
      SamePlans(s, s', t);
    case Leaving(_, _) =>
      s' := LeaveOutcome(s0, s, t, k);
      SamePlans(s, s', t);
    case _ =>
      var s1 := HolderGoesOn(s0, s, t, k);
      s' := s;
  }

  lemma SamePlans(s: State, s': State, t: nat)
    requires Rest(s, s', t)
    ensures s'.plans == s.plans
  {
  }

  lemma EndedOpen(s: State, s': State, t: nat, k: Key, h: nat, candidate: seq<Contribution>)
    requires HasRoutings(s.plans, k) && Ended(s, s', t, k, h, candidate) && Inv(s') && k !in s.keys
    ensures ResolvedOf(s', k, h) || (Open(s', k, h) && s'.plans == s.plans)
  {
    hide Inv, Free, Count, Ready, HasRoutings;
  }

  /** The version of a registered key has a plan, so a contribution is found valid or invalid. */
  lemma CheckGoesOn(s0: State, s: State, t: nat, k: Key, h: nat) returns (s1: State)
    requires Leads(s0, s) && Holds(s, t, k) && s.tasks[t].pc.Validating? && Registered(s, k, h) && k !in s.keys
    ensures Leads(s0, s1) && Holds(s1, t, k) && Registered(s1, k, h) && k !in s1.keys && s1.plans == s.plans
    ensures s1.tasks[t].pc.Deciding? || s1.tasks[t].pc.Leaving?
  {
    hide Leads, Inv, Validate, Accepted, Ready, Shaped;
    s1 := HolderGoesOn(s0, s, t, k);
    ValidateVerdict(s.plans, s.tasks[t].pc.old_, s.tasks[t].contribution);
  }

  // ----- the continuation that brings what is missing

  function GotFrom(contributions: seq<Contribution>, a: HopAddress): set<TensorKey>
  {
    if a in Arrived(contributions) then Arrived(contributions)[a] else {}
  }

  /** The sources of which something is still missing. */
  ghost function MissingSources(plans: PlanStore, k: Key, contributions: seq<Contribution>): set<HopAddress>
    requires HasRoutings(plans, k)
  {
    var expected := Expected(RoutingsOf(plans, k).inputs);
    set a | a in expected && GotFrom(contributions, a) != expected[a]
  }

  /** All that is missing of one source. */
  function Remainder(plans: PlanStore, k: Key, contributions: seq<Contribution>, a: HopAddress): Contribution
    requires HasRoutings(plans, k) && a in Expected(RoutingsOf(plans, k).inputs)
  {
    Contribution(k.context, a.hop, k.hop,
                 map x | x in Expected(RoutingsOf(plans, k).inputs)[a] - GotFrom(contributions, a) :: Tensor([], []))
  }

  lemma GotOneMore(contributions: seq<Contribution>, c: Contribution, a: HopAddress)
    ensures GotFrom(contributions + [c], a) == GotFrom(contributions, a) + if Origin(c) == a then c.bundle.Keys else {}
  {
    assert (contributions + [c])[..|contributions|] == contributions;
  }

  lemma GotWithin(plans: PlanStore, k: Key, contributions: seq<Contribution>, a: HopAddress, x: TensorKey)
    requires Accepted(plans, k, contributions) && x in GotFrom(contributions, a)
    ensures a in Expected(RoutingsOf(plans, k).inputs) && x in Expected(RoutingsOf(plans, k).inputs)[a]
  {
    hide Expected, RoutingsFor, DisjointBundles;
    ArrivedFrom(contributions, a, x);
    var i :| 0 <= i < |contributions| && Origin(contributions[i]) == a && x in contributions[i].bundle;
    var c := contributions[i];
    assert c in contributions;
    var arrived := map[Origin(c) := c.bundle.Keys];
    assert ValidSources(RoutingsOf(plans, k), arrived) && a in arrived && arrived[a] == c.bundle.Keys;
  }

  lemma ReceivedWithin(plans: PlanStore, k: Key, contributions: seq<Contribution>, x: TensorKey) returns (b: HopAddress)
    requires Accepted(plans, k, contributions) && x in Received(contributions)
    ensures x in GotFrom(contributions, b)
    ensures b in Expected(RoutingsOf(plans, k).inputs) && x in Expected(RoutingsOf(plans, k).inputs)[b]
  {
    hide Expected, RoutingsFor, DisjointBundles, RoutingsOf, Accepted, Arrived;
    var c :| c in contributions && x in c.bundle;
    var i :| 0 <= i < |contributions| && contributions[i] == c;
    b := Origin(c);
    ArrivedFrom(contributions, b, x);
    GotWithin(plans, k, contributions, b, x);
  }

  /** What is missing of a source is a valid contribution, and afterwards nothing of this source is missing. */
  lemma RemainderIsValid(plans: PlanStore, k: Key, contributions: seq<Contribution>, a: HopAddress)
    requires Completable(plans, k) && (contributions != [] ==> Accepted(plans, k, contributions))
    requires a in Expected(RoutingsOf(plans, k).inputs) && a.flow == k.context.flow
    ensures var c := Remainder(plans, k, contributions, a);
            && KeyOf(c) == k && Origin(c) == a && Validate(plans, contributions, c) == Fine
            && MissingSources(plans, k, contributions + [c]) == MissingSources(plans, k, contributions) - {a}
  {
    hide Expected, RoutingsFor, Arrived, DisjointBundles, GotFrom;
    var expected, c := Expected(RoutingsOf(plans, k).inputs), Remainder(plans, k, contributions, a);
    assert c.bundle.Keys == expected[a] - GotFrom(contributions, a);
    forall x | x in c.bundle.Keys ensures x !in Received(contributions) {
      if x in Received(contributions) {
        var b := ReceivedWithin(plans, k, contributions, x);
      }
    }
    forall b | b in expected
      ensures GotFrom(contributions + [c], b) == expected[b] <==> (b == a || GotFrom(contributions, b) == expected[b])
    {
      GotOneMore(contributions, c, b);
      if b == a {
        forall x | x in GotFrom(contributions, a) ensures x in expected[a] {
          if contributions == [] { NothingGot(a); } else { GotWithin(plans, k, contributions, a, x); }
        }
      }
    }
    assert forall o :: o in contributions ==> KeyOf(o) == k;
  }

  lemma NothingGot(a: HopAddress)
    ensures GotFrom([], a) == {}
  {
  }

  lemma ReadyWhenNothingMisses(plans: PlanStore, k: Key, contributions: seq<Contribution>)
    requires HasRoutings(plans, k)
    ensures Ready(plans, k, contributions) <==> contributions != [] && MissingSources(plans, k, contributions) == {}
  {
    hide Expected, RoutingsFor, Arrived;
    var expected := Expected(RoutingsOf(plans, k).inputs);
    assert MissingSources(plans, k, contributions) == {} <==> (forall a :: a in expected ==> a !in MissingSources(plans, k, contributions));
  }

  /** The source to ask next: one of which something is missing, or any of the flow. */
  lemma NextSource(plans: PlanStore, k: Key, contributions: seq<Contribution>) returns (a: HopAddress)
    requires Completable(plans, k) && (contributions != [] ==> Accepted(plans, k, contributions))
    ensures a in Expected(RoutingsOf(plans, k).inputs) && a.flow == k.context.flow
    ensures MissingSources(plans, k, contributions) != {} ==> a in MissingSources(plans, k, contributions)
  {
    hide Expected, RoutingsOf, RoutingsFor, GotFrom, HasRoutings, Accepted;
    var expected := Expected(RoutingsOf(plans, k).inputs);
    if MissingSources(plans, k, contributions) != {} {
      a :| a in MissingSources(plans, k, contributions);
      if expected[a] == {} && contributions != [] {
        forall x | x in GotFrom(contributions, a) ensures false { GotWithin(plans, k, contributions, a, x); }
      }
      if contributions == [] { NothingGot(a); }
    } else {
      a :| a in expected && a.flow == k.context.flow;
    }
  }

  /** Submitting what is missing, source by source, completes the collection. */
  lemma {:induction false} MissingCompletes(s0: State, s: State, k: Key, h: nat) returns (s': State)
    requires Leads(s0, s) && Open(s, k, h) && Completable(s.plans, k)
    ensures Leads(s0, s') && ResolvedOf(s', k, h)
    decreases |MissingSources(s.plans, k, StoreAt(s, k))|
  {
    hide Leads, Inv, Free, Accepted, Ready, Validate, HasRoutings, Completable, MissingSources, Remainder, Registered;
    hide RoutingsOf, Expected;
    var old_ := StoreAt(s, k);
    StoredIsAccepted(s, k);
    CompletableRoutes(s.plans, k);
    var a := NextSource(s.plans, k, old_);
    var c := Remainder(s.plans, k, old_, a);
    RemainderIsValid(s.plans, k, old_, a);
    RegisteredWaits(s, k, h);
    var s1, h1 := LoneSubmission(s0, s, c);
    ReadyWhenNothingMisses(s.plans, k, old_ + [c]);
    if Ready(s.plans, k, old_ + [c]) {
      s' := s1;
    } else {
      assert s1.plans == s.plans && Free(s1, k);
      assert MissingSources(s.plans, k, old_ + [c]) < MissingSources(s.plans, k, old_);
      SmallerSet(MissingSources(s.plans, k, old_ + [c]), MissingSources(s.plans, k, old_));
      s' := MissingCompletes(s0, s1, k, h);
    }
  }

  lemma CompletableRoutes(plans: PlanStore, k: Key)
    requires Completable(plans, k)
    ensures HasRoutings(plans, k)
  {
  }

  lemma StoredIsAccepted(s: State, k: Key)
    requires Inv(s)
    ensures StoreAt(s, k) != [] ==> Accepted(s.plans, k, StoreAt(s, k))
  {
    hide SlotsOk, LocalsOk, DepositsOk, FuturesOk, Accepted, Ready;
    assert KeyOk(s, k);
  }

  lemma RegisteredWaits(s: State, k: Key, h: nat)
    requires Registered(s, k, h)
    ensures Waitable(s, k) && k in s.handles && s.handles[k] == h
  {
  }

  lemma SmallerSet(a: set<HopAddress>, b: set<HopAddress>)
    requires a < b
    ensures |a| < |b|
  {
    assert b == a + (b - a);
    assert |b - a| > 0;
  }

  // ----- exactly when a handle can still be resolved

  ghost predicate PlansGrow(s: State, s': State)
  {
    forall v :: v in s.plans ==> v in s'.plans && s'.plans[v] == s.plans[v]
  }

  lemma StepPlans(s: State, s': State)
    requires Inv(s) && Step(s, s')
    ensures PlansGrow(s, s')
  {
    hide Inv, Next, Enabled, Shaped;
    if c :| s' == Submitted(s, c) {
    } else if version: nat, plan :| version !in s.plans && s' == PlanStored(s, version, plan) {
    } else {
      var t: nat :| Enabled(s, t) && s' == Next(s, t);
      NextPlans(s, t);
    }
  }

  lemma NextPlans(s: State, t: nat)
    requires Shaped(s) && Enabled(s, t)
    ensures Next(s, t).plans == s.plans
  {
    hide Accepted, Ready, Validate, HasRoutings;
    match s.tasks[t].pc
    case Calling => AcquireEffects(s, t);
    case Leaving(_, _) =>
    case Validating(_, _, _) => CheckShape(s, t);
    case _ =>
  }

  lemma {:induction false} PathKeeps(run: seq<State>, s: State, s': State)
    requires Path(run, s, s') && Inv(s)
    ensures Inv(s') && PlansGrow(s, s')
    decreases |run|
  {
    hide Inv, Step;
    if |run| > 1 {
      var init := run[..|run| - 1];
      assert forall i :: 0 <= i < |init| ==> init[i] == run[i];
      PathKeeps(init, s, run[|run| - 2]);
      assert Step(run[|run| - 2], s');
      StepKeeps(run[|run| - 2], s');
      StepPlans(run[|run| - 2], s');
    }
  }

  /** After the deposit has been concluded, no continuation resolves a further handle of the key. */
  lemma {:induction false} ConcludedForGood(run: seq<State>, s: State, s': State, k: Key, h: nat)
    requires Path(run, s, s') && Inv(s) && Concluded(s, k)
    ensures Inv(s') && Concluded(s', k) && (ResolvedOf(s', k, h) ==> ResolvedOf(s, k, h))
    decreases |run|
  {
    hide Inv, Step, Concluded, ResolvedOf;
    if |run| > 1 {
      var init := run[..|run| - 1];
      assert forall i :: 0 <= i < |init| ==> init[i] == run[i];
      ConcludedForGood(init, s, run[|run| - 2], k, h);
      assert Step(run[|run| - 2], s');
      StepConcluded(run[|run| - 2], s', k, h);
      StepKeeps(run[|run| - 2], s');
    }
  }

  ghost predicate SomeoneConcludes(s: State, k: Key)
  {
    exists t :: 0 <= t < |s.tasks| && Concluding(s.tasks[t], k)
  }

  /** Some continuation resolves the handle. */
  ghost predicate CanResolve(s: State, k: Key, h: nat)
  {
    exists s' :: Leads(s, s') && ResolvedOf(s', k, h)
  }

  /**
   A registered handle that is pending can still be resolved if and only if its collection is being concluded
   right now, or has not been deposited and the routings can be met. All of this can be read off before a
   submission, and for routings that pass the checks of a plan the last condition always holds.
   */
  lemma ResolvableExactly(run: seq<State>, s: State, k: Key, h: nat)
    requires Reached(run, s) && Registered(s, k, h)
    ensures CanResolve(s, k, h) <==> (SomeoneConcludes(s, k) || (k !in s.keys && Completable(s.plans, k)))
  {
    hide Inv, IsRun, Leads, Completable, Registered;
    RunKeeps(run);
    if SomeoneConcludes(s, k) || (k !in s.keys && Completable(s.plans, k)) {
      ResolvesSomehow(s, k, h);
    }
    if CanResolve(s, k, h) && !SomeoneConcludes(s, k) {
      OnlyOpenResolves(s, k, h);
    }
  }

  lemma ResolvesSomehow(s: State, k: Key, h: nat)
    requires Inv(s) && Registered(s, k, h)
    requires SomeoneConcludes(s, k) || (k !in s.keys && Completable(s.plans, k))
    ensures CanResolve(s, k, h)
  {
    hide Inv, Leads, Completable, Registered, Holds;
    LeadsSelf(s);
    InvShaped(s);
    if t :| 0 <= t < |s.tasks| && Concluding(s.tasks[t], k) {
      var s' := ConcludingResolves(s, s, t, k, h);
    } else if u :| 0 <= u < |s.tasks| && TaskKey(s.tasks[u]) == k && Locked(s.tasks[u]) {
      assert Holds(s, u, k) by { HoldsWhen(s, u, k); }
      var s1 := HolderEnds(s, s, u, k, h);
      if !ResolvedOf(s1, k, h) {
        var s' := MissingCompletes(s, s1, k, h);
      }
    } else {
      var s' := MissingCompletes(s, s, k, h);
    }
  }

  lemma HoldsWhen(s: State, t: nat, k: Key)
    requires Inv(s) && Shaped(s) && t < |s.tasks| && TaskKey(s.tasks[t]) == k && Locked(s.tasks[t])
    ensures Holds(s, t, k)
  {
  }

  lemma OnlyOpenResolves(s: State, k: Key, h: nat)
    requires Inv(s) && Registered(s, k, h) && CanResolve(s, k, h) && !SomeoneConcludes(s, k)
    ensures k !in s.keys && Completable(s.plans, k)
  {
    hide Inv, Path, Completable, CompleteSet;
    var s' :| Leads(s, s') && ResolvedOf(s', k, h);
    var run :| Path(run, s, s');
    if k in s.keys {
      ConcludedForGood(run, s, s', k, h);
    }
    PathKeeps(run, s, s');
    ResolvedIsComplete(s', k, h);
    assert k.context.version in s.plans by { RegisteredHasPlan(s, k); }
    SameCompletable(s.plans, s'.plans, k);
  }

  lemma RegisteredHasPlan(s: State, k: Key)
    requires Inv(s) && k in s.handles
    ensures k.context.version in s.plans
  {
    hide SlotsOk, LocalsOk, DepositsOk, FuturesOk;
    assert KeyOk(s, k);
  }

  lemma ResolvedIsComplete(s: State, k: Key, h: nat)
    requires Inv(s) && ResolvedOf(s, k, h)
    ensures Completable(s.plans, k)
  {
    hide SlotsOk, LocalsOk, KeysOk, Completable, Accepted, Ready;
    var i :| 0 <= i < |s.deposits| && s.deposits[i].key == k;
    CompleteIsCompletable(s.plans, k, s.deposits[i].contributions);
  }

  lemma SameCompletable(plans: PlanStore, plans': PlanStore, k: Key)
    requires k.context.version in plans && k.context.version in plans'
    requires plans'[k.context.version] == plans[k.context.version]
    ensures Completable(plans', k) <==> Completable(plans, k)
  {
  }
}
