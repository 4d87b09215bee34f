/**
 Rollouts succeed when nothing fails: from every idle state, every deployment can be prepared, applied and
 published. And nothing is published in any other way.
 */
module RolloutProgress {
  import opened Lp
  import opened Plans
  import opened Rollout

  // ----- continuations

  ghost predicate Path(run: seq<State>, s: State, s': State)
  {
    run != [] && run[0] == s && run[|run| - 1] == s' && forall i :: 0 < i < |run| ==> Step(run[i - 1], run[i])
  }

  /** Some continuation of s reaches s'. */
  ghost predicate Leads(s: State, s': State)
  {
    exists run :: Path(run, s, s')
  }

  lemma LeadsSelf(s: State)
    ensures Leads(s, s)
  {
    assert Path([s], s, s);
  }

  lemma LeadsStep(s: State, s': State, s'': State)
    requires Leads(s, s') && Step(s', s'')
    ensures Leads(s, s'')
  {
    hide Step;
    var run :| Path(run, s, s');
    assert Path(run + [s''], s, s'');
  }

  /** The controller is preparing the version, and everything else is as the invariant says. */
  lemma Taken(s0: State, s: State, s': State)
    requires Leads(s0, s) && Inv(s) && Step(s, s')
    ensures Leads(s0, s') && Inv(s')
  {
    hide Leads, Inv, Step;
    LeadsStep(s0, s, s');
    StepKeeps(s, s');
  }

  // ----- one worker prepares

  /** Only one preparation has moved, and what it does on its worker and in the catalog. */
  ghost predicate Only(s: State, s': State, n: nat)
  {
    && s'.counter == s.counter && s'.phase == s.phase && s'.deployments == s.deployments
    && n < |s.preparations| == |s'.preparations|
    && s'.preparations[n].version == s.preparations[n].version && s'.preparations[n].worker == s.preparations[n].worker
    && forall i :: 0 <= i < |s.preparations| && i != n ==> s'.preparations[i] == s.preparations[i]
  }

  lemma OnlyThen(s: State, s': State, s'': State, n: nat)
    requires Only(s, s', n) && Only(s', s'', n)
    ensures Only(s, s'', n)
  {
  }

  lemma PreparationKnown(s: State, n: nat)
    requires Inv(s) && n < |s.preparations|
    ensures Known(s, s.preparations[n]) && PreparationOk(s, s.preparations[n])
    ensures WellBuilt(s.preparations[n].version, s.deployments[s.preparations[n].version])
    ensures StoresOk(s)
  {
    hide WellBuilt, StoresOk, CatalogOk, PhaseOk, PublishedOk, WorkerReady, HasExecutors, HasEntries;
    assert PreparationOk(s, s.preparations[n]);
  }

  lemma Creates(s0: State, s: State, n: nat) returns (s': State)
    requires Leads(s0, s) && Inv(s) && n < |s.preparations| && s.preparations[n].pc.Creating?
    ensures Leads(s0, s') && Inv(s') && Only(s, s', n)
    ensures var j, plan := s.preparations[n].pc.next, PlanAt(s, n);
            s'.preparations[n].pc == if j < |plan.executableHops| then Creating(j + 1) else Registering
  {
    hide Inv, Leads, WellBuilt, PreparationOk, StoresOk;
    PreparationKnown(s, n);
    var p, plan, j := s.preparations[n], PlanAt(s, n), s.preparations[n].pc.next;
    s' := if j < |plan.executableHops|
          then Advanced(s.(executors := s.executors + {(p.worker, p.version, plan.executableHops[j])}), n, Creating(j + 1))
          else Advanced(s, n, Registering);
    assert PrepareStep(s, s', n);
    Taken(s0, s, s');
  }

  /** The plan that a preparation is about. */
  ghost function PlanAt(s: State, n: nat): WorkerPlan
    requires Inv(s) && n < |s.preparations|
  {
    PreparationKnown(s, n);
    PlanFor(s, s.preparations[n])
  }

  lemma {:induction false} CreatesAll(s0: State, s: State, n: nat) returns (s': State)
    requires Leads(s0, s) && Inv(s) && n < |s.preparations| && s.preparations[n].pc.Creating?
    ensures Leads(s0, s') && Inv(s') && Only(s, s', n) && s'.preparations[n].pc.Registering?
    decreases |PlanAt(s, n).executableHops| - s.preparations[n].pc.next
  {
    hide Inv, Leads, PlanAt;
    var s1 := Creates(s0, s, n);
    SamePlan(s, s1, n);
    if s.preparations[n].pc.next < |PlanAt(s, n).executableHops| {
      s' := CreatesAll(s0, s1, n);
      OnlyThen(s, s1, s', n);
    } else {
      s' := s1;
    }
  }

  lemma SamePlan(s: State, s': State, n: nat)
    requires Inv(s) && Inv(s') && Only(s, s', n)
    ensures PlanAt(s', n) == PlanAt(s, n)
  {
    hide Inv;
    PreparationKnown(s, n);
    PreparationKnown(s', n);
  }

  lemma RegistersAndStores(s0: State, s: State, n: nat) returns (s': State)
    requires Leads(s0, s) && Inv(s) && n < |s.preparations| && s.preparations[n].pc.Registering?
    ensures Leads(s0, s') && Inv(s') && Only(s, s', n) && s'.preparations[n].pc.Prepared?
  {
    hide Inv, Leads, WellBuilt, PreparationOk, StoresOk, PlannedHops;
    PreparationKnown(s, n);
    var p := s.preparations[n];
    var plan := PlanFor(s, p);
    var s1 := Advanced(s.(catalog := s.catalog + map h | h in PlannedHops(plan) :: (p.version, h) := p.worker), n, Storing);
    assert PrepareStep(s, s1, n);
    Taken(s0, s, s1);
    PreparationKnown(s1, n);
    PlanVersionIs(s1, s1.preparations[n]);
    PutSucceeds(s1, s1.preparations[n]);
    s' := Advanced(s1.(stores := s1.stores[p.worker := StoreOf(s1, p.worker)[p.version := plan]]), n, Prepared);
    assert PrepareStep(s1, s', n);
    Taken(s0, s1, s');
  }

  // ----- all workers prepare

  /** The first workers of the list have prepared and answered; the others have not begun. */
  ghost predicate Underway(s: State, v: nat, d: Deployment, base: nat, workers: seq<WorkerId>, n: nat)
  {
    && n <= |workers| && base + |workers| <= |s.preparations|
    && s.counter == v && v in s.deployments && s.deployments[v] == d
    && s.phase == Preparing(v, First(workers, n))
    && forall j {:trigger s.preparations[j]} :: base + n <= j < base + |workers| ==>
         s.preparations[j] == Preparation(v, workers[j - base], Creating(0))
  }

  function First(workers: seq<WorkerId>, n: nat): set<WorkerId>
    requires n <= |workers|
  {
    set w | w in workers[..n]
  }

  lemma OneMore(workers: seq<WorkerId>, n: nat)
    requires n < |workers|
    ensures First(workers, n + 1) == First(workers, n) + {workers[n]}
  {
    assert workers[..n + 1] == workers[..n] + [workers[n]];
  }

  lemma WorkerPrepares(s0: State, s: State, v: nat, d: Deployment, base: nat, workers: seq<WorkerId>, n: nat)
    returns (s': State)
    requires Leads(s0, s) && Inv(s) && Underway(s, v, d, base, workers, n) && n < |workers|
    ensures Leads(s0, s') && Inv(s') && Underway(s', v, d, base, workers, n + 1)
  {
    hide Inv, Leads, First;
    var s1 := CreatesAll(s0, s, base + n);
    var s2 := RegistersAndStores(s0, s1, base + n);
    OnlyThen(s, s1, s2, base + n);
    s' := s2.(phase := Preparing(v, s2.phase.answered + {workers[n]}));
    assert PrepareAnswered(s2, s', base + n);
    Taken(s0, s2, s');
    OneMore(workers, n);
  }

  lemma {:induction false} AllPrepare(s0: State, s: State, v: nat, d: Deployment, base: nat, workers: seq<WorkerId>, n: nat)
    returns (s': State)
    requires Leads(s0, s) && Inv(s) && Underway(s, v, d, base, workers, n)
    ensures Leads(s0, s') && Inv(s') && Underway(s', v, d, base, workers, |workers|)
    decreases |workers| - n
  {
    hide Inv, Leads, Underway;
    Bounded(s, v, d, base, workers, n);
    if n < |workers| {
      var s1 := WorkerPrepares(s0, s, v, d, base, workers, n);
      s' := AllPrepare(s0, s1, v, d, base, workers, n + 1);
    } else {
      s' := s;
    }
  }

  lemma Bounded(s: State, v: nat, d: Deployment, base: nat, workers: seq<WorkerId>, n: nat)
    requires Underway(s, v, d, base, workers, n)
    ensures n <= |workers|
  {
  }

  // ----- all workers apply

  ghost predicate ApplyingTo(s: State, v: nat, d: Deployment, workers: seq<WorkerId>, n: nat)
  {
    && n <= |workers| && s.counter == v && v in s.deployments && s.deployments[v] == d
    && s.phase == Applying(v, First(workers, n))
  }

  lemma {:induction false} AllApply(s0: State, s: State, v: nat, d: Deployment, workers: seq<WorkerId>, n: nat)
    returns (s': State)
    requires Leads(s0, s) && Inv(s) && ApplyingTo(s, v, d, workers, n)
    requires forall w :: w in workers ==> w in d.plans
    ensures Leads(s0, s') && Inv(s') && ApplyingTo(s', v, d, workers, |workers|)
    decreases |workers| - n
  {
    hide Inv, Leads, First;
    if n < |workers| {
      var w := workers[n];
      var s1 := s.(active := s.active[w := v], phase := Applying(v, s.phase.answered + {w}));
      HasPlan(s, v, w);
      assert ApplyAnswered(s, s1, w);
      Taken(s0, s, s1);
      OneMore(workers, n);
      s' := AllApply(s0, s1, v, d, workers, n + 1);
    } else {
      s' := s;
    }
  }

  lemma HasPlan(s: State, v: nat, w: WorkerId)
    requires Inv(s) && s.phase.Applying? && s.phase.version == v && v in s.deployments && w in s.deployments[v].plans
    ensures v in StoreOf(s, w)
  {
    hide WellBuilt, StoresOk, CatalogOk, PublishedOk, PreparationOk;
    assert WorkerReady(s, v, w);
  }

  // ----- the whole rollout

  /** The version is published for every flow of the deployment, and active on every worker of it. */
  ghost predicate RolledOutTo(s: State, v: nat, d: Deployment)
  {
    && s.phase == Idle && s.counter == v && v in s.deployments && s.deployments[v] == d
    && (forall f :: f in d.flows ==>
          && (f, v) in s.flowPlans && s.flowPlans[(f, v)] == d.flows[f].ends
          && f in s.current && s.current[f] == v)
    && forall w :: w in d.plans ==> w in s.active && s.active[w] == v
  }

  /** What a started rollout looks like. */
  lemma Starts(s0: State, s: State, d: Deployment, workers: seq<WorkerId>) returns (s': State)
    requires Leads(s0, s) && Inv(s) && s.phase == Idle && WellBuilt(s.counter + 1, d)
    requires forall w :: w in workers <==> w in d.plans
    ensures Leads(s0, s') && Inv(s') && Underway(s', s.counter + 1, d, |s.preparations|, workers, 0)
  {
    hide Inv, Leads, WellBuilt;
    var v := s.counter + 1;
    s' := s.(counter := v, phase := Preparing(v, {}), deployments := s.deployments[v := d],
             preparations := s.preparations
                             + seq(|workers|, i requires 0 <= i < |workers| => Preparation(v, workers[i], Creating(0))));
    assert Start(s, s', d, workers);
    Taken(s0, s, s');
    assert First(workers, 0) == {};
  }

  lemma Publishes(s0: State, s: State, v: nat, d: Deployment, workers: seq<WorkerId>) returns (s': State)
    requires Leads(s0, s) && Inv(s) && ApplyingTo(s, v, d, workers, |workers|)
    requires forall w :: w in workers <==> w in d.plans
    ensures Leads(s0, s') && Inv(s') && RolledOutTo(s', v, d)
  {
    hide Inv, Leads, EndsOf, VersionOf;
    assert workers[..|workers|] == workers;
    assert First(workers, |workers|) == d.plans.Keys;
    var s1 := s.(phase := Publishing(v));
    assert AllApplied(s, s1);
    Taken(s0, s, s1);
    AppliedEverywhere(s1);
    s' := s1.(phase := Idle, flowPlans := s1.flowPlans + EndsOf(d.flows, v), current := s1.current + VersionOf(d.flows, v));
    assert Publish(s1, s');
    Taken(s0, s1, s');
    EntriesOf(d.flows, v);
  }

  lemma AppliedEverywhere(s: State)
    requires Inv(s) && s.phase.Publishing?
    ensures s.phase.version in s.deployments && VersionReady(s, s.phase.version)
    ensures forall w :: w in s.deployments[s.phase.version].plans ==> Applied(s, s.phase.version, w)
  {
    hide WellBuilt, StoresOk, CatalogOk, PublishedOk, PreparationOk, WorkerReady;
  }

  /**
   Whatever happened before, the next rollout can succeed: from every idle state that a run can reach, and
   for every deployment of the next version, some continuation publishes all its flows and activates the
   version on all its workers.
   */
  lemma RolloutCanSucceed(run: seq<State>, s: State, d: Deployment, workers: seq<WorkerId>) returns (s': State)
    requires Reached(run, s) && s.phase == Idle && WellBuilt(s.counter + 1, d)
    requires forall w :: w in workers <==> w in d.plans
    ensures Leads(s, s') && RolledOutTo(s', s.counter + 1, d)
  {
    hide IsRun, Inv, Leads, WellBuilt, RolledOutTo, First;
    RunKeeps(run);
    LeadsSelf(s);
    var v := s.counter + 1;
    var s1 := Starts(s, s, d, workers);
    var s2 := AllPrepare(s, s1, v, d, |s.preparations|, workers, 0);
    AllAnswered(workers, d);
    var s3 := s2.(phase := Applying(v, {}));
    assert AllPrepared(s2, s3);
    Taken(s, s2, s3);
    NoneYet(workers);
    var s4 := AllApply(s, s3, v, d, workers, 0);
    s' := Publishes(s, s4, v, d, workers);
  }

  lemma AllAnswered(workers: seq<WorkerId>, d: Deployment)
    requires forall w :: w in workers <==> w in d.plans
    ensures First(workers, |workers|) == d.plans.Keys
  {
    assert workers[..|workers|] == workers;
  }

  lemma NoneYet(workers: seq<WorkerId>)
    ensures First(workers, 0) == {}
  {
  }

  /**
   Nothing is published early: what a step adds to the published flows, or makes current, belongs to a version
   that is ready and active on every worker of its deployment, with the endpoints of that deployment.
   */
  lemma OnlyAppliedVersionsArePublished(run: seq<State>, s: State, s': State, f: FlowId, v: nat)
    requires Reached(run, s) && Step(s, s') && (f, v) in s'.flowPlans
    requires (f, v) !in s.flowPlans || s'.flowPlans[(f, v)] != s.flowPlans[(f, v)]
    ensures v in s'.deployments && f in s'.deployments[v].flows && VersionReady(s', v)
    ensures forall w :: w in s'.deployments[v].plans ==> w in s'.active && s'.active[w] == v
    ensures s'.flowPlans[(f, v)] == s'.deployments[v].flows[f].ends && f in s'.current && s'.current[f] == v
  {
    hide IsRun, Inv, Start, PrepareStep, PrepareFails, PrepareAnswered, AllPrepared, ApplyAnswered, AllApplied, GiveUp;
    hide Publish, VersionReady;
    RunKeeps(run);
    StepExtends(s, s');
    StepKeeps(s, s');
    if d, workers :| Start(s, s', d, workers) {
      StartExtends(s, s', d, workers);
    } else if i: nat :| PrepareStep(s, s', i) {
      PrepareExtends(s, s', i);
    } else if i: nat :| PrepareFails(s, s', i) {
      FailExtends(s, s', i);
    } else if Publish(s, s') {
      PublishedByVersion(s, s', f, v);
    } else {
      OthersPublishNothing(s, s');
    }
  }

  lemma OthersPublishNothing(s: State, s': State)
    requires (exists i: nat :: PrepareAnswered(s, s', i)) || AllPrepared(s, s') || AllApplied(s, s') || GiveUp(s, s')
             || (exists w :: ApplyAnswered(s, s', w))
    ensures s'.flowPlans == s.flowPlans
  {
    hide StoreOf, Advanced;
    if i: nat :| PrepareAnswered(s, s', i) {
      AnswerPublishesNothing(s, s', i);
    } else if w :| ApplyAnswered(s, s', w) {
      ApplyPublishesNothing(s, s', w);
    }
  }

  lemma AnswerPublishesNothing(s: State, s': State, i: nat)
    requires PrepareAnswered(s, s', i)
    ensures s'.flowPlans == s.flowPlans
  {
  }

  lemma ApplyPublishesNothing(s: State, s': State, w: WorkerId)
    requires ApplyAnswered(s, s', w)
    ensures s'.flowPlans == s.flowPlans
  {
    hide StoreOf;
  }

  lemma PublishedByVersion(s: State, s': State, f: FlowId, v: nat)
    requires Inv(s) && Publish(s, s') && Inv(s') && (f, v) in s'.flowPlans
    requires (f, v) !in s.flowPlans || s'.flowPlans[(f, v)] != s.flowPlans[(f, v)]
    ensures v in s'.deployments && f in s'.deployments[v].flows && VersionReady(s', v)
    ensures forall w :: w in s'.deployments[v].plans ==> w in s'.active && s'.active[w] == v
    ensures s'.flowPlans[(f, v)] == s'.deployments[v].flows[f].ends && f in s'.current && s'.current[f] == v
  {
    hide Inv, EndsOf, VersionOf, VersionReady, Grows;
    AppliedEverywhere(s);
    EntriesOf(s.deployments[s.phase.version].flows, s.phase.version);
    PublishGrows(s, s');
    VersionStaysReady(s, s', s.phase.version);
  }
}
