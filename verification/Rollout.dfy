/**
 Rolling out plan versions: prepare on all workers, apply on all workers, publish the flow plans. Any part
 may fail at any time, workers may still be busy with a version that the controller has given up, and later
 versions may follow.
 */
module Rollout {
  import opened Lp
  import opened ModelTopology
  import opened Assignment
  import opened FlowSolutions
  import opened Plans
  import opened WorkerRuntime
  import opened ReplicaIds
  import opened PlanBuilder
  import opened PlanGluing

  // ----- what a version consists of

  datatype FlowEntry = FlowEntry(ends: Endpoints, chain: seq<PlacedHop>)

  /** The output of plan building for one version. */
  datatype Deployment = Deployment(
    hops: seq<PlacedHop>, plans: map<WorkerId, WorkerPlan>, flows: map<FlowId, FlowEntry>)

  predicate LeadsTo(g: PlacedHop, h: PlacedHop)
  {
    |g.routings.outputs| == 1 && g.routings.outputs[0].destination == h.address
  }

  ghost predicate ChainFor(f: FlowId, entry: FlowEntry, hops: seq<PlacedHop>)
  {
    && entry.chain != []
    && entry.chain[0].address == HopAddress(f, entry.ends.ingress)
    && entry.chain[|entry.chain| - 1].address == HopAddress(f, entry.ends.sink)
    && entry.chain[|entry.chain| - 1].routings.outputs == []
    && (forall j :: 0 <= j < |entry.chain| ==> entry.chain[j] in hops)
    && (forall j :: 0 <= j < |entry.chain| - 1 ==> LeadsTo(entry.chain[j], entry.chain[j + 1]))
  }

  ghost predicate WellBuilt(version: nat, d: Deployment)
  {
    && DistinctHops(d.hops) && ProperHops(d.hops) && Consistent(d.hops) && Drafted(version, d.hops, d.plans)
    && forall f :: f in d.flows ==> ChainFor(f, d.flows[f], d.hops)
  }

  function PlannedHops(p: WorkerPlan): seq<Hop>
  {
    p.executableHops + p.ingressHops + p.sinkHops
  }

  // ----- the state of all services

  datatype PreparePc = Creating(next: nat) | Registering | Storing | Prepared | Stopped

  /** A worker's run of `prepare_plan`. */
  datatype Preparation = Preparation(version: nat, worker: WorkerId, pc: PreparePc)

  /** Where the controller is in `actuate_solution`, with the workers that have answered without failure. */
  datatype Phase =
    | Idle
    | Preparing(version: nat, answered: set<WorkerId>)
    | Applying(version: nat, answered: set<WorkerId>)
    | Publishing(version: nat)

  datatype State = State(
    counter: nat,
    phase: Phase,
    deployments: map<nat, Deployment>,
    preparations: seq<Preparation>,
    stores: map<WorkerId, PlanStore>,
    active: map<WorkerId, nat>,
    executors: set<(WorkerId, nat, Hop)>,
    catalog: map<(nat, Hop), WorkerId>,
    flowPlans: map<(FlowId, nat), Endpoints>,
    current: map<FlowId, nat>)

  function StoreOf(s: State, w: WorkerId): PlanStore { if w in s.stores then s.stores[w] else map[] }

  /** `put_plan`. */
  function PutPlan(store: PlanStore, plan: WorkerPlan): Result<PlanStore>
  {
    if plan.version in store && store[plan.version] != plan then Err("Plan version already exists")
    else Ok(store[plan.version := plan])
  }

  class InMemoryPlanStore {
    var plansByVersion: PlanStore
    var activeVersion: Option<nat>

    constructor ()
      ensures plansByVersion == map[] && activeVersion == None
    {
      plansByVersion, activeVersion := map[], None;
    }

    /** False stands for DuplicatePlanError. */
    method Put(plan: WorkerPlan) returns (ok: bool)
      modifies this`plansByVersion
      ensures ok == PutPlan(old(plansByVersion), plan).Ok?
      ensures plansByVersion == if ok then PutPlan(old(plansByVersion), plan).value else old(plansByVersion)
      ensures forall v :: v in old(plansByVersion) ==> v in plansByVersion && plansByVersion[v] == old(plansByVersion)[v]
    {
      if plan.version in plansByVersion && plansByVersion[plan.version] != plan {
        return false;
      }
      plansByVersion := plansByVersion[plan.version := plan];
      ok := true;
    }

    /** False stands for NotExistentPlanError. */
    method Activate(version: nat) returns (ok: bool)
      modifies this`activeVersion
      ensures ok == (version in plansByVersion)
      ensures activeVersion == if ok then Some(version) else old(activeVersion)
    {
      if version !in plansByVersion {
        return false;
      }
      activeVersion := Some(version);
      ok := true;
    }
  }

  class PartitionExecutorRegistry {
    var registered: set<(nat, Hop)>

    constructor ()
      ensures registered == {}
    {
      registered := {};
    }

    /** False stands for PartitionExecutorRegistrationError. */
    method Register(version: nat, hop: Hop) returns (ok: bool)
      modifies this
      ensures ok == ((version, hop) !in old(registered)) && registered == old(registered) + {(version, hop)}
    {
      ok := (version, hop) !in registered;
      if ok {
        registered := registered + {(version, hop)};
      }
    }
  }

  class PlanVersionBuilder {
    var currentPlanVersion: nat

    constructor ()
      ensures currentPlanVersion == 0
    {
      currentPlanVersion := 0;
    }

    method BuildNextPlanVersion() returns (version: nat)
      modifies this
      ensures version == currentPlanVersion == old(currentPlanVersion) + 1
    {
      currentPlanVersion := currentPlanVersion + 1;
      version := currentPlanVersion;
    }
  }

  // ----- steps

  /** The controller starts a version; every worker of it starts to prepare. */
  ghost predicate Start(s: State, s': State, d: Deployment, workers: seq<WorkerId>)
  {
    var version := s.counter + 1;
    && s.phase == Idle && WellBuilt(version, d)
    && (forall w :: w in workers <==> w in d.plans)
    && s' == s.(counter := version, phase := Preparing(version, {}), deployments := s.deployments[version := d],
                preparations := s.preparations
                                + seq(|workers|, i requires 0 <= i < |workers| => Preparation(version, workers[i], Creating(0))))
  }

  function Advanced(s: State, i: nat, pc: PreparePc): State
    requires i < |s.preparations|
  {
    s.(preparations := s.preparations[i := s.preparations[i].(pc := pc)])
  }

  ghost predicate Known(s: State, p: Preparation)
  {
    p.version in s.deployments && p.worker in s.deployments[p.version].plans
  }

  ghost function PlanFor(s: State, p: Preparation): WorkerPlan
    requires Known(s, p)
  {
    s.deployments[p.version].plans[p.worker]
  }

  /** One step of `prepare_plan`: an executor that does not exist yet, the catalog entries, or the plan. */
  ghost predicate PrepareStep(s: State, s': State, i: nat)
  {
    && i < |s.preparations|
    && Known(s, s.preparations[i])
    && var p := s.preparations[i]; var plan := PlanFor(s, p);
       match p.pc
       case Creating(j) =>
         if j < |plan.executableHops| then
           s' == Advanced(s.(executors := s.executors + {(p.worker, p.version, plan.executableHops[j])}), i, Creating(j + 1))
         else s' == Advanced(s, i, Registering)
       case Registering =>
         s' == Advanced(s.(catalog := s.catalog + map h | h in PlannedHops(plan) :: (p.version, h) := p.worker), i, Storing)
       case Storing =>
         var stored := PutPlan(StoreOf(s, p.worker), plan);
         s' == if stored.Ok? then Advanced(s.(stores := s.stores[p.worker := stored.value]), i, Prepared)
               else Advanced(s, i, Stopped)
       case _ => false
  }

  /** Any unfinished preparation may fail; what it has done so far stays. */
  ghost predicate PrepareFails(s: State, s': State, i: nat)
  {
    i < |s.preparations| && !s.preparations[i].pc.Prepared? && s' == Advanced(s, i, Stopped)
  }

  /** A worker's success reaches the controller. */
  ghost predicate PrepareAnswered(s: State, s': State, i: nat)
  {
    && i < |s.preparations| && s.preparations[i].pc.Prepared?
    && s.phase.Preparing? && s.phase.version == s.preparations[i].version
    && s' == s.(phase := Preparing(s.phase.version, s.phase.answered + {s.preparations[i].worker}))
  }

  ghost predicate AllPrepared(s: State, s': State)
  {
    && s.phase.Preparing? && s.phase.version in s.deployments
    && s.phase.answered == s.deployments[s.phase.version].plans.Keys
    && s' == s.(phase := Applying(s.phase.version, {}))
  }

  /** `apply_plan` on a worker, whose success reaches the controller. */
  ghost predicate ApplyAnswered(s: State, s': State, w: WorkerId)
  {
    && s.phase.Applying? && s.phase.version in StoreOf(s, w)
    && s' == s.(active := s.active[w := s.phase.version],
                phase := Applying(s.phase.version, s.phase.answered + {w}))
  }

  ghost predicate AllApplied(s: State, s': State)
  {
    && s.phase.Applying? && s.phase.version in s.deployments
    && s.phase.answered == s.deployments[s.phase.version].plans.Keys
    && s' == s.(phase := Publishing(s.phase.version))
  }

  /** The controller sees a failure of any kind, in any phase, and gives the version up without undoing anything. */
  ghost predicate GiveUp(s: State, s': State)
  {
    s' == s.(phase := Idle)
  }

  /** One transaction writes the flow plans of all flows and makes them current. */
  ghost predicate Publish(s: State, s': State)
  {
    && s.phase.Publishing? && s.phase.version in s.deployments
    && var v, flows := s.phase.version, s.deployments[s.phase.version].flows;
       s' == s.(phase := Idle,
                flowPlans := s.flowPlans + EndsOf(flows, v), current := s.current + VersionOf(flows, v))
  }

  function EndsOf(flows: map<FlowId, FlowEntry>, v: nat): map<(FlowId, nat), Endpoints>
  {
    map f | f in flows :: (f, v) := flows[f].ends
  }

  function VersionOf(flows: map<FlowId, FlowEntry>, v: nat): map<FlowId, nat>
  {
    map f | f in flows :: v
  }

  ghost predicate Step(s: State, s': State)
  {
    || (exists d, workers :: Start(s, s', d, workers))
    || (exists i: nat :: PrepareStep(s, s', i))
    || (exists i: nat :: PrepareFails(s, s', i))
    || (exists i: nat :: PrepareAnswered(s, s', i))
    || AllPrepared(s, s')
    || (exists w :: ApplyAnswered(s, s', w))
    || AllApplied(s, s')
    || GiveUp(s, s')
    || Publish(s, s')
  }

  // ----- the invariant

  ghost predicate HasExecutors(s: State, v: nat, w: WorkerId, hops: seq<Hop>)
  {
    forall h :: h in hops ==> (w, v, h) in s.executors
  }

  ghost predicate HasEntries(s: State, v: nat, w: WorkerId, hops: seq<Hop>)
  {
    forall h :: h in hops ==> (v, h) in s.catalog && s.catalog[(v, h)] == w
  }

  ghost predicate PreparationOk(s: State, p: Preparation)
  {
    && Known(s, p)
    && var plan := PlanFor(s, p);
       match p.pc
       case Creating(j) => j <= |plan.executableHops| && HasExecutors(s, p.version, p.worker, plan.executableHops[..j])
       case Registering => HasExecutors(s, p.version, p.worker, plan.executableHops)
       case Storing =>
         HasExecutors(s, p.version, p.worker, plan.executableHops) && HasEntries(s, p.version, p.worker, PlannedHops(plan))
       case Prepared => WorkerReady(s, p.version, p.worker)
       case Stopped => true
  }

  /** A worker can serve a version: executors, catalog entries and the plan are all there. */
  ghost predicate WorkerReady(s: State, v: nat, w: WorkerId)
  {
    && v in s.deployments && w in s.deployments[v].plans
    && var plan := s.deployments[v].plans[w];
       && HasExecutors(s, v, w, plan.executableHops) && HasEntries(s, v, w, PlannedHops(plan))
       && v in StoreOf(s, w) && StoreOf(s, w)[v] == plan
  }

  ghost predicate VersionReady(s: State, v: nat)
  {
    v in s.deployments && forall w :: w in s.deployments[v].plans ==> WorkerReady(s, v, w)
  }

  ghost predicate StoresOk(s: State)
  {
    forall w, v :: v in StoreOf(s, w) ==>
      v in s.deployments && w in s.deployments[v].plans && StoreOf(s, w)[v] == s.deployments[v].plans[w]
  }

  ghost predicate EntryOk(s: State, v: nat, h: Hop, w: WorkerId)
  {
    v in s.deployments && w in s.deployments[v].plans && h in PlannedHops(s.deployments[v].plans[w])
  }

  ghost predicate CatalogOk(s: State)
  {
    forall v, h :: (v, h) in s.catalog ==> EntryOk(s, v, h, s.catalog[(v, h)])
  }

  ghost predicate PhaseOk(s: State)
  {
    match s.phase
    case Idle => true
    case Preparing(v, answered) =>
      v == s.counter && v in s.deployments && forall w :: w in answered ==> WorkerReady(s, v, w)
    case Applying(v, answered) => v == s.counter && VersionReady(s, v) && forall w :: w in answered ==> Applied(s, v, w)
    case Publishing(v) =>
      v == s.counter && VersionReady(s, v) && forall w :: w in s.deployments[v].plans ==> Applied(s, v, w)
  }

  /** The worker has made the version its active one. */
  predicate Applied(s: State, v: nat, w: WorkerId)
  {
    w in s.active && s.active[w] == v
  }

  ghost predicate PublishedOk(s: State)
  {
    && (forall f, v :: (f, v) in s.flowPlans ==>
          && VersionReady(s, v) && f in s.deployments[v].flows
          && s.flowPlans[(f, v)] == s.deployments[v].flows[f].ends)
    && (forall f :: f in s.current ==> (f, s.current[f]) in s.flowPlans)
    && (forall f, v :: (f, v) in s.flowPlans ==> f in s.current && v <= s.current[f])
  }

  ghost predicate Inv(s: State)
  {
    && (forall v :: v in s.deployments ==> v <= s.counter && WellBuilt(v, s.deployments[v]))
    && (forall i :: 0 <= i < |s.preparations| ==> PreparationOk(s, s.preparations[i]))
    && StoresOk(s) && CatalogOk(s) && PhaseOk(s) && PublishedOk(s)
  }

  // ----- what has been done stays done

  /** Everything that makes a version work only grows. */
  ghost predicate Grows(s: State, s': State)
  {
    && s.counter <= s'.counter
    && (forall v :: v in s.deployments ==> v in s'.deployments && s'.deployments[v] == s.deployments[v])
    && s.executors <= s'.executors
    && (forall key :: key in s.catalog ==> key in s'.catalog && s'.catalog[key] == s.catalog[key])
    && (forall w, v :: v in StoreOf(s, w) ==> v in StoreOf(s', w) && StoreOf(s', w)[v] == StoreOf(s, w)[v])
  }

  lemma WorkerStaysReady(s: State, s': State, v: nat, w: WorkerId)
    requires Grows(s, s') && WorkerReady(s, v, w)
    ensures WorkerReady(s', v, w)
  {
  }

  lemma PreparationStaysOk(s: State, s': State, p: Preparation)
    requires Grows(s, s') && PreparationOk(s, p)
    ensures PreparationOk(s', p)
  {
    hide WorkerReady;
    if p.pc.Prepared? {
      WorkerStaysReady(s, s', p.version, p.worker);
    }
  }

  lemma VersionStaysReady(s: State, s': State, v: nat)
    requires Grows(s, s') && VersionReady(s, v)
    ensures VersionReady(s', v)
  {
    hide WorkerReady, Grows;
    assert v in s'.deployments && s'.deployments[v] == s.deployments[v] by { GrownDeployments(s, s', v); }
    forall w | w in s'.deployments[v].plans ensures WorkerReady(s', v, w) {
      WorkerStaysReady(s, s', v, w);
    }
  }

  lemma GrownDeployments(s: State, s': State, v: nat)
    requires Grows(s, s') && v in s.deployments
    ensures v in s'.deployments && s'.deployments[v] == s.deployments[v]
  {
  }

  lemma PublishedStaysOk(s: State, s': State)
    requires Grows(s, s') && PublishedOk(s) && s'.flowPlans == s.flowPlans && s'.current == s.current
    ensures PublishedOk(s')
  {
    hide VersionReady, Grows;
    forall f, v | (f, v) in s'.flowPlans
      ensures VersionReady(s', v) && v in s'.deployments && f in s'.deployments[v].flows
              && s'.flowPlans[(f, v)] == s'.deployments[v].flows[f].ends
    {
      VersionKnown(s, v);
      VersionStaysReady(s, s', v);
      GrownDeployments(s, s', v);
    }
  }

  lemma VersionKnown(s: State, v: nat)
    requires VersionReady(s, v)
    ensures v in s.deployments
  {
  }

  /** A hop is planned on one worker of its version only. */
  lemma PlannedOnce(v: nat, d: Deployment, w: WorkerId, w': WorkerId, h: Hop)
    requires WellBuilt(v, d) && w in d.plans && w' in d.plans
    requires h in PlannedHops(d.plans[w]) && h in PlannedHops(d.plans[w'])
    ensures w == w'
  {
    hide PlanOf, ChainFor, Consistent, DistinctHops;
    var g := PlannedHop(v, d, w, h);
    var g' := PlannedHop(v, d, w', h);
    SameHop(d.hops, g, g');
  }

  lemma PlannedHop(v: nat, d: Deployment, w: WorkerId, h: Hop) returns (g: PlacedHop)
    requires WellBuilt(v, d) && w in d.plans && h in PlannedHops(d.plans[w])
    ensures g in d.hops && g.worker == w && g.address.hop == h
  {
    hide PlanOf, ChainFor, Consistent, DistinctHops, ProperHops;
    PlanListsHops(v, d.hops, w);
    g :| g in d.hops && g.worker == w && g.address.hop == h;
  }

  // ----- every step keeps the invariant

  ghost predicate DeploymentsOk(s: State)
  {
    forall v :: v in s.deployments ==> v <= s.counter && WellBuilt(v, s.deployments[v])
  }

  /** A step that only adds, and moves one preparation to a point where it is in order. */
  lemma PrepareStepKeeps(s: State, s': State, i: nat)
    requires Inv(s) && i < |s.preparations| == |s'.preparations| && Grows(s, s') && s'.deployments == s.deployments
    requires s'.counter == s.counter && s'.phase == s.phase && s'.flowPlans == s.flowPlans && s'.current == s.current
    requires s'.preparations == s.preparations[i := s'.preparations[i]] && PreparationOk(s', s'.preparations[i])
    requires StoresOk(s') && CatalogOk(s') && s'.active == s.active
    ensures Inv(s')
  {
    hide PreparationOk, WorkerReady, VersionReady, PublishedOk, StoresOk, CatalogOk, WellBuilt, Grows;
    forall j | 0 <= j < |s'.preparations| ensures PreparationOk(s', s'.preparations[j]) {
      if j != i {
        assert PreparationOk(s, s.preparations[j]);
        PreparationStaysOk(s, s', s.preparations[j]);
      }
    }
    PhaseStaysOk(s, s');
    PublishedStaysOk(s, s');
  }

  lemma PhaseStaysOk(s: State, s': State)
    requires PhaseOk(s) && Grows(s, s') && s'.counter == s.counter && s'.phase == s.phase && s'.active == s.active
    ensures PhaseOk(s')
  {
    hide WorkerReady, VersionReady, Grows;
    match s.phase
    case Idle =>
    case Preparing(v, answered) =>
      GrownDeployments(s, s', v);
      forall w | w in answered ensures WorkerReady(s', v, w) {
        WorkerStaysReady(s, s', v, w);
      }
    case Applying(v, _) => VersionStaysReady(s, s', v);
    case Publishing(v) => VersionStaysReady(s, s', v); VersionKnown(s, v); GrownDeployments(s, s', v);
  }

  lemma CreateKeeps(s: State, s': State, i: nat)
    requires Inv(s) && i < |s.preparations| && PrepareStep(s, s', i) && s.preparations[i].pc.Creating?
    ensures Inv(s')
  {
    hide WorkerReady, VersionReady, PublishedOk, WellBuilt, PlannedHops, PhaseOk, StoresOk, CatalogOk, PrepareStep;
    hide PreparationOk, Grows;
    assert PreparationOk(s, s.preparations[i]);
    Created(s, s', i);
    EntriesKept(s, s');
    StoresKept(s, s');
    PrepareStepKeeps(s, s', i);
  }

  lemma Created(s: State, s': State, i: nat)
    requires i < |s.preparations| && PrepareStep(s, s', i) && s.preparations[i].pc.Creating? && PreparationOk(s, s.preparations[i])
    ensures |s'.preparations| == |s.preparations| && s'.preparations == s.preparations[i := s'.preparations[i]]
    ensures PreparationOk(s', s'.preparations[i]) && Grows(s, s')
    ensures s' == s.(executors := s'.executors, preparations := s'.preparations)
  {
    hide WorkerReady, PlannedHops, HasExecutors, Grows;
    var p := s.preparations[i];
    var plan := PlanFor(s, p);
    var j := p.pc.next;
    ExecutorsGrow(s, s');
    if j < |plan.executableHops| {
      OneMoreExecutor(s, s', p, plan.executableHops, j);
    } else {
      assert plan.executableHops[..j] == plan.executableHops;
      SameExecutors(s, s', p);
    }
  }

  lemma ExecutorsGrow(s: State, s': State)
    requires s' == s.(executors := s'.executors, preparations := s'.preparations) && s.executors <= s'.executors
    ensures Grows(s, s')
  {
    assert forall w :: StoreOf(s', w) == StoreOf(s, w);
  }

  lemma StoresKept(s: State, s': State)
    requires StoresOk(s) && s'.stores == s.stores && s'.deployments == s.deployments
    ensures StoresOk(s')
  {
    assert forall w :: StoreOf(s', w) == StoreOf(s, w);
  }

  lemma OneMoreExecutor(s: State, s': State, p: Preparation, hops: seq<Hop>, j: nat)
    requires j < |hops| && HasExecutors(s, p.version, p.worker, hops[..j])
    requires s'.executors == s.executors + {(p.worker, p.version, hops[j])}
    ensures HasExecutors(s', p.version, p.worker, hops[..j + 1])
  {
    assert hops[..j + 1] == hops[..j] + [hops[j]];
  }

  lemma EntriesKept(s: State, s': State)
    requires CatalogOk(s) && s'.catalog == s.catalog && s'.deployments == s.deployments
    ensures CatalogOk(s')
  {
    forall v, h | (v, h) in s'.catalog ensures EntryOk(s', v, h, s'.catalog[(v, h)]) {
      assert EntryOk(s, v, h, s.catalog[(v, h)]);
    }
  }

  lemma RegisterKeeps(s: State, s': State, i: nat)
    requires Inv(s) && i < |s.preparations| && PrepareStep(s, s', i) && s.preparations[i].pc.Registering?
    ensures Inv(s')
  {
    hide WorkerReady, VersionReady, PublishedOk, WellBuilt, PlannedHops, PhaseOk, StoresOk, CatalogOk, PrepareStep;
    hide PreparationOk, Grows;
    assert PreparationOk(s, s.preparations[i]);
    assert DeploymentsOk(s);
    Registered(s, s', i);
    StoresKept(s, s');
    PrepareStepKeeps(s, s', i);
  }

  /** A hop that is already in the catalog belongs to the same worker, so that nothing is overwritten. */
  lemma Registered(s: State, s': State, i: nat)
    requires i < |s.preparations| && PrepareStep(s, s', i) && s.preparations[i].pc.Registering? && CatalogOk(s)
    requires DeploymentsOk(s) && PreparationOk(s, s.preparations[i])
    ensures |s'.preparations| == |s.preparations| && s'.preparations == s.preparations[i := s'.preparations[i]]
    ensures PreparationOk(s', s'.preparations[i]) && Grows(s, s') && CatalogOk(s')
    ensures s' == s.(catalog := s'.catalog, preparations := s'.preparations)
  {
    hide WorkerReady, WellBuilt, PlannedHops, HasExecutors, CatalogOk, EntryOk;
    var p := s.preparations[i];
    var hops := PlannedHops(PlanFor(s, p));
    forall v, h | (v, h) in s.catalog ensures (v, h) in s'.catalog && s'.catalog[(v, h)] == s.catalog[(v, h)] {
      if v == p.version && h in hops {
        SameWorker(s, p, h);
      }
    }
    EntriesAdded(s, s', p);
    assert HasExecutors(s', p.version, p.worker, PlanFor(s, p).executableHops) by {
      ExecutorsOnly(s, s', p.version, p.worker, PlanFor(s, p).executableHops);
    }
    assert forall w :: StoreOf(s', w) == StoreOf(s, w);
  }

  lemma ExecutorsOnly(s: State, s': State, v: nat, w: WorkerId, hops: seq<Hop>)
    requires s'.executors == s.executors && HasExecutors(s, v, w, hops)
    ensures HasExecutors(s', v, w, hops)
  {
  }

  lemma SameWorker(s: State, p: Preparation, h: Hop)
    requires CatalogOk(s) && DeploymentsOk(s) && Known(s, p)
    requires (p.version, h) in s.catalog && h in PlannedHops(PlanFor(s, p))
    ensures s.catalog[(p.version, h)] == p.worker
  {
    hide WellBuilt, PlannedHops;
    assert EntryOk(s, p.version, h, s.catalog[(p.version, h)]);
    PlannedOnce(p.version, s.deployments[p.version], p.worker, s.catalog[(p.version, h)], h);
  }

  lemma EntriesAdded(s: State, s': State, p: Preparation)
    requires CatalogOk(s) && Known(s, p) && s'.deployments == s.deployments
    requires s'.catalog == s.catalog + map h | h in PlannedHops(PlanFor(s, p)) :: (p.version, h) := p.worker
    ensures CatalogOk(s') && HasEntries(s', p.version, p.worker, PlannedHops(PlanFor(s, p)))
  {
    hide PlannedHops;
    forall v, h | (v, h) in s'.catalog ensures EntryOk(s', v, h, s'.catalog[(v, h)]) {
      if (v, h) in s.catalog {
        assert EntryOk(s, v, h, s.catalog[(v, h)]);
      }
    }
  }

  lemma StoreKeeps(s: State, s': State, i: nat)
    requires Inv(s) && i < |s.preparations| && PrepareStep(s, s', i) && s.preparations[i].pc.Storing?
    ensures Inv(s')
  {
    hide WorkerReady, VersionReady, PublishedOk, WellBuilt, PlannedHops, PhaseOk, StoresOk, CatalogOk, PrepareStep;
    hide PreparationOk, Grows;
    assert PreparationOk(s, s.preparations[i]);
    assert DeploymentsOk(s);
    Stored(s, s', i);
    EntriesKept(s, s');
    PrepareStepKeeps(s, s', i);
  }

  /** Storing never fails here: what the store already holds for the version is the same plan. */
  lemma Stored(s: State, s': State, i: nat)
    requires i < |s.preparations| && PrepareStep(s, s', i) && s.preparations[i].pc.Storing?
    requires StoresOk(s) && DeploymentsOk(s) && PreparationOk(s, s.preparations[i])
    ensures |s'.preparations| == |s.preparations| && s'.preparations == s.preparations[i := s'.preparations[i]]
    ensures PreparationOk(s', s'.preparations[i]) && Grows(s, s') && StoresOk(s')
    ensures s' == s.(stores := s'.stores, preparations := s'.preparations)
  {
    hide WellBuilt, PlannedHops, HasExecutors, HasEntries, StoresOk, Grows, DeploymentsOk;
    var p := s.preparations[i];
    var plan := PlanFor(s, p);
    assert WellBuilt(p.version, s.deployments[p.version]) by { DeploymentBuilt(s, p.version); }
    PlanVersionIs(s, p);
    PutSucceeds(s, p);
    SameExecutors(s, s', p);
    PlanAdded(s, s', p);
  }

  lemma DeploymentBuilt(s: State, v: nat)
    requires DeploymentsOk(s) && v in s.deployments
    ensures WellBuilt(v, s.deployments[v])
  {
  }

  lemma PutSucceeds(s: State, p: Preparation)
    requires StoresOk(s) && Known(s, p) && PlanFor(s, p).version == p.version
    ensures PutPlan(StoreOf(s, p.worker), PlanFor(s, p)) == Ok(StoreOf(s, p.worker)[p.version := PlanFor(s, p)])
  {
  }

  lemma PlanAdded(s: State, s': State, p: Preparation)
    requires StoresOk(s) && Known(s, p)
    requires s' == s.(stores := s.stores[p.worker := StoreOf(s, p.worker)[p.version := PlanFor(s, p)]],
                      preparations := s'.preparations)
    ensures StoresOk(s') && Grows(s, s')
    ensures p.version in StoreOf(s', p.worker) && StoreOf(s', p.worker)[p.version] == PlanFor(s, p)
  {
    assert forall w :: w != p.worker ==> StoreOf(s', w) == StoreOf(s, w);
  }

  lemma SameExecutors(s: State, s': State, p: Preparation)
    requires s'.executors == s.executors && s'.catalog == s.catalog
    ensures forall hops :: HasExecutors(s, p.version, p.worker, hops) ==> HasExecutors(s', p.version, p.worker, hops)
    ensures forall hops :: HasEntries(s, p.version, p.worker, hops) ==> HasEntries(s', p.version, p.worker, hops)
  {
  }

  lemma PlanVersionIs(s: State, p: Preparation)
    requires Known(s, p) && WellBuilt(p.version, s.deployments[p.version])
    ensures PlanFor(s, p).version == p.version
  {
    hide DistinctHops, ProperHops, Consistent, ChainFor;
    PlanOfVersion(p.version, s.deployments[p.version].hops, p.worker);
  }

  lemma {:induction false} PlanOfVersion(version: nat, hops: seq<PlacedHop>, w: WorkerId)
    ensures PlanOf(version, hops, w).version == version
  {
    if hops != [] {
      PlanOfVersion(version, hops[..|hops| - 1], w);
    }
  }

  lemma FailKeeps(s: State, s': State, i: nat)
    requires Inv(s) && PrepareFails(s, s', i)
    ensures Inv(s')
  {
    hide WorkerReady, VersionReady, PublishedOk, WellBuilt, PlannedHops, PhaseOk;
    assert PreparationOk(s, s.preparations[i]);
    PrepareStepKeeps(s, s', i);
  }

  lemma StartKeeps(s: State, s': State, d: Deployment, workers: seq<WorkerId>)
    requires Inv(s) && Start(s, s', d, workers)
    ensures Inv(s')
  {
    hide WorkerReady, VersionReady, PublishedOk, WellBuilt, PlannedHops, PreparationOk, Grows, StoresOk, CatalogOk;
    assert s.counter + 1 !in s.deployments;
    StartGrows(s, s', d, workers);
    forall i | 0 <= i < |s'.preparations| ensures PreparationOk(s', s'.preparations[i]) {
      if i < |s.preparations| {
        assert PreparationOk(s, s.preparations[i]);
        PreparationStaysOk(s, s', s.preparations[i]);
      } else {
        NewPreparationOk(s', Preparation(s'.counter, workers[i - |s.preparations|], Creating(0)));
      }
    }
    PublishedStaysOk(s, s');
  }

  lemma NewPreparationOk(s: State, p: Preparation)
    requires Known(s, p) && p.pc == Creating(0)
    ensures PreparationOk(s, p)
  {
  }

  lemma StartGrows(s: State, s': State, d: Deployment, workers: seq<WorkerId>)
    requires Start(s, s', d, workers) && s.counter + 1 !in s.deployments && StoresOk(s) && CatalogOk(s)
    ensures Grows(s, s') && StoresOk(s') && CatalogOk(s')
  {
    hide WellBuilt, PlannedHops;
    assert forall w :: StoreOf(s', w) == StoreOf(s, w);
    forall v, h | (v, h) in s'.catalog ensures EntryOk(s', v, h, s'.catalog[(v, h)]) {
      assert EntryOk(s, v, h, s.catalog[(v, h)]);
    }
  }

  /** The steps of the controller that touch nothing but its own phase and what is active. */
  lemma PhaseStepKeeps(s: State, s': State)
    requires Inv(s) && s' == s.(phase := s'.phase, active := s'.active) && PhaseOk(s')
    ensures Inv(s')
  {
    hide WorkerReady, VersionReady, PublishedOk, WellBuilt, PlannedHops, PhaseOk, PreparationOk;
    assert Grows(s, s');
    forall i | 0 <= i < |s'.preparations| ensures PreparationOk(s', s'.preparations[i]) {
      assert PreparationOk(s, s.preparations[i]);
      PreparationStaysOk(s, s', s.preparations[i]);
    }
    forall v, h | (v, h) in s'.catalog ensures EntryOk(s', v, h, s'.catalog[(v, h)]) {
      assert EntryOk(s, v, h, s.catalog[(v, h)]);
    }
    PublishedStaysOk(s, s');
  }

  lemma AnswerKeeps(s: State, s': State, i: nat)
    requires Inv(s) && PrepareAnswered(s, s', i)
    ensures Inv(s')
  {
    hide WellBuilt, PublishedOk, StoresOk, CatalogOk, WorkerReady;
    assert PreparationOk(s, s.preparations[i]);
    assert Grows(s, s');
    forall w | w in s'.phase.answered ensures WorkerReady(s', s'.phase.version, w) {
      WorkerStaysReady(s, s', s.phase.version, w);
    }
    PhaseStepKeeps(s, s');
  }

  lemma PreparedKeeps(s: State, s': State)
    requires Inv(s) && AllPrepared(s, s')
    ensures Inv(s')
  {
    hide WellBuilt, PublishedOk, StoresOk, CatalogOk, PreparationOk, WorkerReady;
    var v := s.phase.version;
    assert VersionReady(s, v);
    VersionStaysReady(s, s', v);
    PhaseStepKeeps(s, s');
  }

  lemma AppliedKeeps(s: State, s': State)
    requires Inv(s) && (AllApplied(s, s') || GiveUp(s, s') || exists w :: ApplyAnswered(s, s', w))
    ensures Inv(s')
  {
    hide WellBuilt, PublishedOk, StoresOk, CatalogOk, PreparationOk, VersionReady;
    if !GiveUp(s, s') {
      VersionStaysReady(s, s', s.phase.version);
    }
    PhaseStepKeeps(s, s');
  }

  lemma PublishKeeps(s: State, s': State)
    requires Inv(s) && Publish(s, s')
    ensures Inv(s')
  {
    hide WorkerReady, WellBuilt, EntryOk, PreparationOk, VersionReady, PublishedOk, EndsOf, VersionOf;
    PublishGrows(s, s');
    forall i | 0 <= i < |s'.preparations| ensures PreparationOk(s', s'.preparations[i]) {
      assert PreparationOk(s, s.preparations[i]);
      PreparationStaysOk(s, s', s.preparations[i]);
    }
    EntriesKept(s, s');
    PublishedNow(s, s');
  }

  lemma PublishedNow(s: State, s': State)
    requires PublishedOk(s) && PhaseOk(s) && Publish(s, s') && DeploymentsOk(s)
    ensures PublishedOk(s')
  {
    hide WorkerReady, WellBuilt, VersionReady, Grows, EndsOf, VersionOf;
    var now := s.phase.version;
    var flows := s.deployments[now].flows;
    PublishGrows(s, s');
    EntriesOf(flows, now);
    forall f, v: nat | (f, v) in s'.flowPlans
      ensures VersionReady(s', v) && v in s'.deployments && f in s'.deployments[v].flows
      ensures s'.flowPlans[(f, v)] == s'.deployments[v].flows[f].ends
      ensures f in s'.current && v <= s'.current[f]
    {
      assert (f, v) in s.flowPlans || (v == now && f in flows);
      VersionKnown(s, v);
      VersionStaysReady(s, s', v);
    }
    forall f | f in s'.current ensures (f, s'.current[f]) in s'.flowPlans {
      assert f !in flows ==> (f, s.current[f]) in s.flowPlans;
    }
  }

  lemma EntriesOf(flows: map<FlowId, FlowEntry>, now: nat)
    ensures forall f, v :: (f, v) in EndsOf(flows, now) <==> v == now && f in flows
    ensures forall f :: f in flows ==> EndsOf(flows, now)[(f, now)] == flows[f].ends
    ensures VersionOf(flows, now).Keys == flows.Keys && forall f :: f in flows ==> VersionOf(flows, now)[f] == now
  {
  }

  lemma PublishGrows(s: State, s': State)
    requires Publish(s, s')
    ensures Grows(s, s')
  {
    hide EndsOf, VersionOf;
    assert forall w :: StoreOf(s', w) == StoreOf(s, w);
  }

  lemma StepKeeps(s: State, s': State)
    requires Inv(s) && Step(s, s')
    ensures Inv(s')
  {
    hide Inv, Start, PrepareFails, PrepareAnswered, AllPrepared, ApplyAnswered, AllApplied, GiveUp, Publish;
    if d, workers :| Start(s, s', d, workers) {
      StartKeeps(s, s', d, workers);
    } else if i: nat :| PrepareStep(s, s', i) {
      if s.preparations[i].pc.Creating? { CreateKeeps(s, s', i); }
      else if s.preparations[i].pc.Registering? { RegisterKeeps(s, s', i); }
      else { StoreKeeps(s, s', i); }
    } else if i: nat :| PrepareFails(s, s', i) {
      FailKeeps(s, s', i);
    } else if i: nat :| PrepareAnswered(s, s', i) {
      AnswerKeeps(s, s', i);
    } else if Publish(s, s') {
      PublishKeeps(s, s');
    } else if AllPrepared(s, s') {
      PreparedKeeps(s, s');
    } else {
      AppliedKeeps(s, s');
    }
  }

  ghost predicate Initial(s: State)
  {
    && s.counter == 0 && s.phase == Idle && s.deployments == map[] && s.preparations == [] && s.stores == map[]
    && s.active == map[] && s.executors == {} && s.catalog == map[] && s.flowPlans == map[] && s.current == map[]
  }

  ghost predicate IsRun(run: seq<State>)
  {
    run != [] && Initial(run[0]) && forall i :: 0 < i < |run| ==> Step(run[i - 1], run[i])
  }

  ghost predicate Reached(run: seq<State>, s: State)
  {
    IsRun(run) && run[|run| - 1] == s
  }

  lemma {:induction false} RunKeeps(run: seq<State>)
    requires IsRun(run)
    ensures Inv(run[|run| - 1])
  {
    hide Inv, Step, Initial;
    if |run| == 1 {
      InitialOk(run[0]);
    } else {
      var init := run[..|run| - 1];
      assert forall i :: 0 <= i < |init| ==> init[i] == run[i];
      RunKeeps(init);
      assert Step(run[|run| - 2], run[|run| - 1]);
      StepKeeps(run[|run| - 2], run[|run| - 1]);
    }
  }

  lemma InitialOk(s: State)
    requires Initial(s)
    ensures Inv(s)
  {
  }

  // ----- safety

  /**
   Following the routes of one version from a hop: every lookup that a worker, or a sender, makes on the
   way. None stands for a lookup that fails, or for a path that is longer than the given number of hops.
   */
  ghost function Follow(s: State, v: nat, a: HopAddress, steps: nat): Option<seq<HopAddress>>
    decreases steps
  {
    if steps == 0 || (v, a.hop) !in s.catalog then None else
    var w := s.catalog[(v, a.hop)];
    if v !in StoreOf(s, w) then None else
    var routings := RoutingsFor(StoreOf(s, w)[v], a);
    if routings.Err? then None else
    if a.hop.Partition? && (w, v, a.hop) !in s.executors then None else
    if routings.value.outputs == [] then Some([a]) else
    if |routings.value.outputs| > 1 then None else
    var rest := Follow(s, v, routings.value.outputs[0].destination, steps - 1);
    if rest.None? then None else Some([a] + rest.value)
  }

  function Addresses(chain: seq<PlacedHop>): (r: seq<HopAddress>)
    ensures |r| == |chain| && forall j :: 0 <= j < |r| ==> r[j] == chain[j].address
  {
    seq(|chain|, j requires 0 <= j < |chain| => chain[j].address)
  }

  /** A hop of a version that is ready on all workers is catalogued, planned and has its executor. */
  lemma HopServed(s: State, v: nat, h: PlacedHop)
    requires VersionReady(s, v) && WellBuilt(v, s.deployments[v]) && h in s.deployments[v].hops
    ensures (v, h.address.hop) in s.catalog && s.catalog[(v, h.address.hop)] == h.worker
    ensures v in StoreOf(s, h.worker) && RoutingsFor(StoreOf(s, h.worker)[v], h.address) == Ok(h.routings)
    ensures h.address.hop.Partition? ==> (h.worker, v, h.address.hop) in s.executors
  {
    hide PlanOf, ChainFor, Consistent, DistinctHops, RoutingsFor;
    var d := s.deployments[v];
    assert h.worker in d.plans;
    var plan := d.plans[h.worker];
    assert WorkerReady(s, v, h.worker);
    HopPlanned(v, d, h);
    HopFound(v, d.hops, h);
  }

  lemma HopPlanned(v: nat, d: Deployment, h: PlacedHop)
    requires WellBuilt(v, d) && h in d.hops
    ensures h.worker in d.plans && h.address.hop in PlannedHops(d.plans[h.worker])
    ensures h.address.hop.Partition? ==> h.address.hop in d.plans[h.worker].executableHops
  {
    hide PlanOf, ChainFor, Consistent, DistinctHops;
    PlanListsHops(v, d.hops, h.worker);
    assert ProperHop(h) && h.worker in d.plans;
    var p, hop := d.plans[h.worker], h.address.hop;
    assert IsPartition()(hop) || IsIngress()(hop) || IsSink()(hop);
    assert hop in p.executableHops || hop in p.ingressHops || hop in p.sinkHops;
  }

  lemma {:induction false} FollowChain(s: State, v: nat, entry: FlowEntry, f: FlowId, j: nat)
    requires VersionReady(s, v) && WellBuilt(v, s.deployments[v])
    requires ChainFor(f, entry, s.deployments[v].hops) && j < |entry.chain|
    ensures Follow(s, v, entry.chain[j].address, |entry.chain| - j) == Some(Addresses(entry.chain[j..]))
    decreases |entry.chain| - j
  {
    hide VersionReady, WellBuilt, RoutingsFor;
    var h := entry.chain[j];
    HopServed(s, v, h);
    if j < |entry.chain| - 1 {
      FollowChain(s, v, entry, f, j + 1);
      assert LeadsTo(h, entry.chain[j + 1]);
      assert Addresses(entry.chain[j..]) == [h.address] + Addresses(entry.chain[j + 1..]);
    } else {
      assert Addresses(entry.chain[j..]) == [h.address];
    }
  }

  /**
   Rollout safety: whatever failed before or since, the routes of every published version of a flow lead
   from its ingress to its sink, and every hop on the way is served.
   */
  lemma {:induction false} PublishedFlowsAreServed(run: seq<State>, s: State, f: FlowId, v: nat)
    requires Reached(run, s) && (f, v) in s.flowPlans
    ensures v in s.deployments && f in s.deployments[v].flows
    ensures var entry := s.deployments[v].flows[f];
            && s.flowPlans[(f, v)] == entry.ends
            && entry.chain != [] && entry.chain[|entry.chain| - 1].address == HopAddress(f, entry.ends.sink)
            && Follow(s, v, HopAddress(f, entry.ends.ingress), |entry.chain|) == Some(Addresses(entry.chain))
  {
    hide IsRun, PreparationOk, VersionReady, StoresOk, CatalogOk, PhaseOk, Follow, DistinctHops, ProperHops, Consistent;
    hide Drafted;
    RunKeeps(run);
    VersionKnown(s, v);
    var entry := s.deployments[v].flows[f];
    FollowChain(s, v, entry, f, 0);
    assert entry.chain[0..] == entry.chain;
  }

  /** The current version of a flow is a published one, and no published version is newer. */
  lemma CurrentIsNewest(run: seq<State>, s: State, f: FlowId, v: nat)
    requires Reached(run, s) && (f, v) in s.flowPlans
    ensures f in s.current && (f, s.current[f]) in s.flowPlans && v <= s.current[f] <= s.counter
  {
    hide IsRun, PreparationOk, VersionReady, StoresOk, CatalogOk, PhaseOk;
    RunKeeps(run);
    VersionKnown(s, s.current[f]);
  }

  /** Once published, a version stays published and served: later versions and failures take nothing away. */
  lemma PublishedVersionsStay(run: seq<State>, s: State, s': State, f: FlowId, v: nat)
    requires Reached(run, s) && Step(s, s') && (f, v) in s.flowPlans
    ensures (f, v) in s'.flowPlans && v in s.deployments && v in s'.deployments
    ensures s'.deployments[v] == s.deployments[v] && s'.flowPlans[(f, v)] == s.flowPlans[(f, v)]
  {
    hide IsRun, PreparationOk, StoresOk, CatalogOk, WellBuilt, VersionReady, Step;
    RunKeeps(run);
    VersionKnown(s, v);
    StepExtends(s, s');
    StepKeeps(s, s');
    assert v in s'.deployments && f in s'.deployments[v].flows;
  }

  lemma StepExtends(s: State, s': State)
    requires Inv(s) && Step(s, s')
    ensures forall key :: key in s.flowPlans ==> key in s'.flowPlans
    ensures forall v :: v in s.deployments ==> v in s'.deployments && s'.deployments[v] == s.deployments[v]
  {
    hide Inv, Start, PrepareStep, PrepareFails, PrepareAnswered, AllPrepared, ApplyAnswered, AllApplied, GiveUp, Publish;
    if d, workers :| Start(s, s', d, workers) {
      StartExtends(s, s', d, workers);
    } else if i: nat :| PrepareStep(s, s', i) {
      PrepareExtends(s, s', i);
    } else if i: nat :| PrepareFails(s, s', i) {
      assert s'.flowPlans == s.flowPlans && s'.deployments == s.deployments by { FailExtends(s, s', i); }
    } else {
      ControllerExtends(s, s');
    }
  }

  /** No step takes back an executor, a catalog entry, a stored plan or a deployment. */
  lemma StepGrows(s: State, s': State)
    requires Inv(s) && Step(s, s')
    ensures Grows(s, s')
  {
    hide Inv, Grows, Start, PrepareStep, PrepareFails, PrepareAnswered, AllPrepared, ApplyAnswered, AllApplied, GiveUp, Publish;
    if d, workers :| Start(s, s', d, workers) {
      StartOnlyGrows(s, s', d, workers);
    } else if i: nat :| PrepareStep(s, s', i) {
      PrepareGrows(s, s', i);
    } else if Publish(s, s') {
      PublishGrows(s, s');
    } else {
      OthersGrow(s, s');
    }
  }

  lemma StartOnlyGrows(s: State, s': State, d: Deployment, workers: seq<WorkerId>)
    requires Inv(s) && Start(s, s', d, workers)
    ensures Grows(s, s')
  {
    hide WorkerReady, VersionReady, PublishedOk, WellBuilt, PlannedHops, PreparationOk, Grows, StoresOk, CatalogOk;
    assert s.counter + 1 !in s.deployments;
    StartGrows(s, s', d, workers);
  }

  lemma PrepareGrows(s: State, s': State, i: nat)
    requires Inv(s) && PrepareStep(s, s', i)
    ensures Grows(s, s')
  {
    hide PreparationOk, WorkerReady, VersionReady, PublishedOk, WellBuilt, PlannedHops, PhaseOk, Grows, StoresOk, CatalogOk;
    assert i < |s.preparations| && PreparationOk(s, s.preparations[i]);
    if s.preparations[i].pc.Creating? { Created(s, s', i); }
    else if s.preparations[i].pc.Registering? { Registered(s, s', i); }
    else { Stored(s, s', i); }
  }

  lemma OthersGrow(s: State, s': State)
    requires (exists i: nat :: PrepareFails(s, s', i) || PrepareAnswered(s, s', i)) || AllPrepared(s, s')
             || AllApplied(s, s') || GiveUp(s, s') || (exists w :: ApplyAnswered(s, s', w))
    ensures Grows(s, s')
  {
    hide Grows, StoreOf, Advanced;
    if i: nat :| PrepareFails(s, s', i) {
      FailGrows(s, s', i);
    } else {
      SameGrows(s, s');
    }
  }

  lemma FailGrows(s: State, s': State, i: nat)
    requires PrepareFails(s, s', i)
    ensures Grows(s, s')
  {
    hide Grows;
    SameGrows(s, s');
  }

  lemma SameGrows(s: State, s': State)
    requires s' == s.(phase := s'.phase, active := s'.active, preparations := s'.preparations)
    ensures Grows(s, s')
  {
    assert forall w :: StoreOf(s', w) == StoreOf(s, w);
  }

  lemma GrowsFrom(s: State)
    ensures Grows(s, s)
  {
  }

  lemma GrowsOn(s: State, s': State, s'': State)
    requires Grows(s, s') && Grows(s', s'')
    ensures Grows(s, s'')
  {
  }

  lemma FailExtends(s: State, s': State, i: nat)
    requires PrepareFails(s, s', i)
    ensures s'.flowPlans == s.flowPlans && s'.deployments == s.deployments
  {
  }

  lemma ControllerExtends(s: State, s': State)
    requires (exists i: nat :: PrepareAnswered(s, s', i)) || AllPrepared(s, s') || AllApplied(s, s') || GiveUp(s, s')
             || (exists w :: ApplyAnswered(s, s', w)) || Publish(s, s')
    ensures forall key :: key in s.flowPlans ==> key in s'.flowPlans
    ensures s'.deployments == s.deployments
  {
    hide Publish, StoreOf;
    if Publish(s, s') {
      PublishExtends(s, s');
    }
  }

  lemma PublishExtends(s: State, s': State)
    requires Publish(s, s')
    ensures forall key :: key in s.flowPlans ==> key in s'.flowPlans
    ensures s'.deployments == s.deployments
  {
    hide EndsOf, VersionOf;
  }

  lemma StartExtends(s: State, s': State, d: Deployment, workers: seq<WorkerId>)
    requires Inv(s) && Start(s, s', d, workers)
    ensures s'.flowPlans == s.flowPlans
    ensures forall v :: v in s.deployments ==> v in s'.deployments && s'.deployments[v] == s.deployments[v]
  {
    hide WellBuilt, PreparationOk, StoresOk, CatalogOk, PublishedOk, PhaseOk;
    assert s.counter + 1 !in s.deployments;
  }

  lemma PrepareExtends(s: State, s': State, i: nat)
    requires PrepareStep(s, s', i)
    ensures s'.flowPlans == s.flowPlans && s'.deployments == s.deployments
  {
    hide PutPlan, PlannedHops, StoreOf;
    match s.preparations[i].pc
    case Creating(j) =>
    case Registering =>
    case Storing =>
    case _ =>
  }
}
