/**
 Concurrent submissions to one worker: default_contribution_pipeline.py with its lock slots, handles,
 contribution store and outbox. Every await ends an atomic section; the sections of all submissions may
 interleave in any order.
 */
module ContributionPipeline {
  import opened Lp
  import opened ModelTopology
  import opened Assignment
  import opened Plans
  import opened WorkerRuntime
  import opened ContributionPolicy

  datatype Slot = Slot(users: nat, holder: Option<nat>)

  datatype FutureState = Pending | Resolved | Failed

  datatype Future = Future(key: Key, state: FutureState)

  datatype Collection = Collection(key: Key, contributions: seq<Contribution>)

  datatype Outcome = Returned(handle: nat) | InvalidSubmission | DuplicateSubmission | RoutingLost

  /** Where a submission is: the await that it will resume from, and its local variables. */
  datatype Pc =
    | Calling
    | Waiting(slot: nat)
    | Fetching(slot: nat, handle: nat)
    | Validating(slot: nat, handle: nat, old_: seq<Contribution>)
    | Deciding(slot: nat, handle: nat, old_: seq<Contribution>)
    | Gathering(slot: nat, handle: nat, candidate: seq<Contribution>)
    | Depositing(slot: nat, handle: nat, candidate: seq<Contribution>)
    | Discarding(slot: nat, handle: nat)
    | Resolving(slot: nat, handle: nat)
    | Putting(slot: nat, handle: nat)
    | Leaving(slot: nat, outcome: Outcome)
    | Done(outcome: Outcome)

  datatype Task = Task(contribution: Contribution, pc: Pc)

  datatype State = State(
    plans: PlanStore,
    lockSlots: map<Key, nat>,
    slots: seq<Slot>,
    handles: map<Key, nat>,
    futures: seq<Future>,
    store: map<Key, seq<Contribution>>,
    keys: set<Key>,
    deposits: seq<Collection>,
    tasks: seq<Task>)

  function TaskKey(task: Task): Key { KeyOf(task.contribution) }

  function StoreAt(s: State, k: Key): seq<Contribution> { if k in s.store then s.store[k] else [] }

  /** Between acquiring and releasing its lock slot. */
  predicate InRegion(task: Task) { !task.pc.Calling? && !task.pc.Done? }

  predicate Locked(task: Task) { InRegion(task) && !task.pc.Waiting? }

  predicate HasHandle(task: Task) { Locked(task) && !task.pc.Leaving? }

  // ----- the atomic sections

  /** References point to existing lock slots and futures. */
  predicate Shaped(s: State)
  {
    && (forall k :: k in s.lockSlots ==> s.lockSlots[k] < |s.slots|)
    && (forall k :: k in s.handles ==> s.handles[k] < |s.futures|)
    && (forall t :: 0 <= t < |s.tasks| ==> TaskShaped(s, s.tasks[t]))
  }

  predicate TaskShaped(s: State, task: Task)
  {
    && (InRegion(task) ==> task.pc.slot < |s.slots| && s.slots[task.pc.slot].users > 0)
    && (HasHandle(task) ==> task.pc.handle < |s.futures|)
  }

  function Move(s: State, t: nat, pc: Pc): State
    requires t < |s.tasks|
  {
    s.(tasks := s.tasks[t := s.tasks[t].(pc := pc)])
  }

  /** `_acquire_lock_slot`. */
  function Acquire(s: State, t: nat): State
    requires Shaped(s) && t < |s.tasks|
  {
    var k := TaskKey(s.tasks[t]);
    var s' := if k in s.lockSlots then s
              else s.(lockSlots := s.lockSlots[k := |s.slots|], slots := s.slots + [Slot(0, None)]);
    var id := s'.lockSlots[k];
    Move(s'.(slots := s'.slots[id := s'.slots[id].(users := s'.slots[id].users + 1)]), t, Waiting(id))
  }

  /** The lock is taken, then `_get_or_build_handle`; a resolved handle is returned at once. */
  function Enter(s: State, t: nat): State
    requires Shaped(s) && t < |s.tasks| && s.tasks[t].pc.Waiting?
  {
    var k, id := TaskKey(s.tasks[t]), s.tasks[t].pc.slot;
    var s' := s.(slots := s.slots[id := s.slots[id].(holder := Some(t))]);
    if k !in s.handles then
      Move(s'.(futures := s.futures + [Future(k, Pending)]), t, Fetching(id, |s.futures|))
    else if s.futures[s.handles[k]].state.Pending? then Move(s', t, Fetching(id, s.handles[k]))
    else Move(s', t, Leaving(id, Returned(s.handles[k])))
  }

  function Settle(s: State, h: nat, state: FutureState): State
    requires h < |s.futures|
  {
    if s.futures[h].state.Pending? then s.(futures := s.futures[h := s.futures[h].(state := state)]) else s
  }

  /** `validate`, with its exceptions handled, and the registration of the handle. */
  function Check(s: State, t: nat): State
    requires Shaped(s) && t < |s.tasks| && s.tasks[t].pc.Validating?
  {
    var task := s.tasks[t];
    var k, id, h := TaskKey(task), task.pc.slot, task.pc.handle;
    match Validate(s.plans, task.pc.old_, task.contribution)
    case NoPlan => Move(Settle(s, h, Failed), t, Leaving(id, Returned(h)))
    case Invalid => Move(s, t, Leaving(id, InvalidSubmission))
    case Fine =>
      Move(s.(handles := if k in s.handles then s.handles else s.handles[k := h]), t, Deciding(id, h, task.pc.old_))
  }

  /** `is_ready`. */
  function Decide(s: State, t: nat): State
    requires Shaped(s) && t < |s.tasks| && s.tasks[t].pc.Deciding?
  {
    var task := s.tasks[t];
    var k, id, h := TaskKey(task), task.pc.slot, task.pc.handle;
    var candidate := task.pc.old_ + [task.contribution];
    if k.context.version !in s.plans then Move(Settle(s, h, Failed), t, Leaving(id, Returned(h)))
    else if !HasRoutings(s.plans, k) then Move(s, t, Leaving(id, RoutingLost))
    else if Ready(s.plans, k, candidate) then Move(s, t, Gathering(id, h, candidate))
    else Move(s, t, Putting(id, h))
  }

  /** `OrderedPostbox.deposit`, with its exception handled. */
  function Deposit(s: State, t: nat): State
    requires Shaped(s) && t < |s.tasks| && s.tasks[t].pc.Depositing?
  {
    var k, id, h := TaskKey(s.tasks[t]), s.tasks[t].pc.slot, s.tasks[t].pc.handle;
    if k in s.keys then Move(s, t, Leaving(id, DuplicateSubmission))
    else Move(s.(keys := s.keys + {k}, deposits := s.deposits + [Collection(k, s.tasks[t].pc.candidate)]), t,
              Discarding(id, h))
  }

  /** The lock is released, then `_release_lock_slot`. */
  function Leave(s: State, t: nat): State
    requires Shaped(s) && t < |s.tasks| && s.tasks[t].pc.Leaving?
  {
    var k, id := TaskKey(s.tasks[t]), s.tasks[t].pc.slot;
    var slot := Slot(s.slots[id].users - 1, None);
    var s' := s.(slots := s.slots[id := slot]);
    var s'' :=
      if slot.users > 0 then s'
      else s'.(lockSlots := s.lockSlots - {k},
               handles := if k in s.handles && !s.futures[s.handles[k]].state.Pending?
                          then s.handles - {k} else s.handles);
    Move(s'', t, Done(s.tasks[t].pc.outcome))
  }

  predicate Enabled(s: State, t: nat)
    requires Shaped(s)
  {
    && t < |s.tasks| && !s.tasks[t].pc.Done?
    && (s.tasks[t].pc.Waiting? ==> s.slots[s.tasks[t].pc.slot].holder == None)
  }

  /** The next atomic section of one submission. */
  function Next(s: State, t: nat): State
    requires Shaped(s) && Enabled(s, t)
  {
    var task := s.tasks[t];
    var k := TaskKey(task);
    match task.pc
    case Calling => Acquire(s, t)
    case Waiting(_) => Enter(s, t)
    case Fetching(id, h) => Move(s, t, Validating(id, h, StoreAt(s, k)))
    case Validating(_, _, _) => Check(s, t)
    case Deciding(_, _, _) => Decide(s, t)
    case Gathering(id, h, candidate) => Move(s, t, Depositing(id, h, candidate))
    case Depositing(_, _, _) => Deposit(s, t)
    case Discarding(id, h) => Move(s.(store := s.store - {k}), t, Resolving(id, h))
    case Resolving(id, h) => Move(Settle(s, h, Resolved), t, Leaving(id, Returned(h)))
    case Putting(id, h) =>
      Move(s.(store := s.store[k := StoreAt(s, k) + [task.contribution]]), t, Leaving(id, Returned(h)))
    case Leaving(_, _) => Leave(s, t)
  }

  /** One step of the system: a new submission, a new plan, or the next section of a submission. */
  ghost predicate Step(s: State, s': State)
  {
    || (exists c :: s' == Submitted(s, c))
    || (exists version: nat, plan :: version !in s.plans && s' == PlanStored(s, version, plan))
    || (Shaped(s) && exists t: nat :: Enabled(s, t) && s' == Next(s, t))
  }

  function Submitted(s: State, c: Contribution): State
  {
    s.(tasks := s.tasks + [Task(c, Calling)])
  }

  function PlanStored(s: State, version: nat, plan: WorkerPlan): State
  {
    s.(plans := s.plans[version := plan])
  }

  // ----- the invariant

  function CountIn(task: Task, k: Key): nat { if InRegion(task) && TaskKey(task) == k then 1 else 0 }

  /** The number of submissions of a key between acquire and release. */
  function Count(tasks: seq<Task>, k: Key): nat
  {
    if tasks == [] then 0 else Count(tasks[..|tasks| - 1], k) + CountIn(tasks[|tasks| - 1], k)
  }

  ghost predicate HolderOk(s: State, k: Key, t: nat)
  {
    t < |s.tasks| && Locked(s.tasks[t]) && TaskKey(s.tasks[t]) == k
  }

  ghost predicate SlotOk(s: State, k: Key)
    requires k in s.lockSlots
  {
    && s.lockSlots[k] < |s.slots|
    && s.slots[s.lockSlots[k]].users == Count(s.tasks, k)
    && (s.slots[s.lockSlots[k]].holder.Some? ==> HolderOk(s, k, s.slots[s.lockSlots[k]].holder.value))
  }

  ghost predicate TaskSlotOk(s: State, t: nat)
    requires t < |s.tasks|
  {
    var task := s.tasks[t];
    && (InRegion(task) ==> TaskKey(task) in s.lockSlots && task.pc.slot == s.lockSlots[TaskKey(task)])
    && (Locked(task) ==> task.pc.slot < |s.slots| && s.slots[task.pc.slot].holder == Some(t))
  }

  /** A key has a slot exactly while a submission uses it; users counts those; one of them holds the lock. */
  ghost predicate SlotsOk(s: State)
  {
    && (forall k :: k in s.lockSlots <==> Count(s.tasks, k) > 0)
    && (forall k :: k in s.lockSlots ==> SlotOk(s, k))
    && (forall k, l :: k in s.lockSlots && l in s.lockSlots && s.lockSlots[k] == s.lockSlots[l] ==> k == l)
    && (forall t :: 0 <= t < |s.tasks| ==> TaskSlotOk(s, t))
  }

  predicate PendingHandle(s: State, k: Key, h: nat)
  {
    h < |s.futures| && s.futures[h] == Future(k, Pending) && (k in s.handles ==> s.handles[k] == h)
  }

  predicate Registered(s: State, k: Key, h: nat)
  {
    PendingHandle(s, k, h) && k in s.handles
  }

  /** What a submission relies on at each point while it holds the lock. */
  ghost predicate LocalOk(s: State, task: Task)
  {
    var k, c := TaskKey(task), task.contribution;
    match task.pc
    case Fetching(_, h) => PendingHandle(s, k, h)
    case Validating(_, h, old_) => PendingHandle(s, k, h) && old_ == StoreAt(s, k)
    case Deciding(_, h, old_) => Registered(s, k, h) && old_ == StoreAt(s, k) && Accepted(s.plans, k, old_ + [c])
    case Gathering(_, h, candidate) => Registered(s, k, h) && CompleteSet(s, k, candidate)
    case Depositing(_, h, candidate) => Registered(s, k, h) && CompleteSet(s, k, candidate)
    case Discarding(_, h) => Registered(s, k, h) && k in s.keys
    case Resolving(_, h) => Registered(s, k, h) && k in s.keys && StoreAt(s, k) == []
    case Putting(_, h) =>
      Registered(s, k, h) && Accepted(s.plans, k, StoreAt(s, k) + [c]) && !Ready(s.plans, k, StoreAt(s, k) + [c])
    case Leaving(_, outcome) => !outcome.RoutingLost?
    case Done(outcome) => !outcome.RoutingLost?
    case _ => true
  }

  ghost predicate CompleteSet(s: State, k: Key, contributions: seq<Contribution>)
  {
    Accepted(s.plans, k, contributions) && Ready(s.plans, k, contributions)
  }

  /** What holds of a key at any time: stored contributions are acceptable, incomplete, and have a pending handle. */
  ghost predicate KeyOk(s: State, k: Key)
  {
    && (k in s.handles ==>
          s.handles[k] < |s.futures| && s.futures[s.handles[k]].key == k && k.context.version in s.plans)
    && (StoreAt(s, k) != [] ==>
          && k in s.handles && s.futures[s.handles[k]].state.Pending?
          && Accepted(s.plans, k, StoreAt(s, k)) && !Ready(s.plans, k, StoreAt(s, k)))
  }

  /** Every key is deposited at most once, with a complete set. */
  ghost predicate DepositsOk(s: State)
  {
    && (forall i :: 0 <= i < |s.deposits| ==>
          s.deposits[i].key in s.keys && CompleteSet(s, s.deposits[i].key, s.deposits[i].contributions))
    && (forall i, j :: 0 <= i < j < |s.deposits| ==> s.deposits[i].key != s.deposits[j].key)
    && (forall k :: k in s.keys ==> exists i :: 0 <= i < |s.deposits| && s.deposits[i].key == k)
  }

  /** A submission is only told that its collection is complete when the collection has been deposited. */
  ghost predicate FuturesOk(s: State)
  {
    forall h :: 0 <= h < |s.futures| && s.futures[h].state.Resolved? ==> s.futures[h].key in s.keys
  }

  ghost predicate LocalsOk(s: State)
  {
    forall t :: 0 <= t < |s.tasks| ==> LocalOk(s, s.tasks[t])
  }

  ghost predicate KeysOk(s: State)
  {
    forall k :: KeyOk(s, k)
  }

  ghost predicate Inv(s: State)
  {
    SlotsOk(s) && LocalsOk(s) && KeysOk(s) && DepositsOk(s) && FuturesOk(s)
  }

  // ----- frames

  /** Nothing that concerns a key has changed. */
  ghost predicate SameAt(s: State, s': State, k: Key)
  {
    && StoreAt(s, k) == StoreAt(s', k)
    && (k in s.handles <==> k in s'.handles) && (k in s.handles ==> s.handles[k] == s'.handles[k])
    && (k in s.keys <==> k in s'.keys)
    && |s.futures| <= |s'.futures|
    && (forall h :: 0 <= h < |s.futures| && s.futures[h].key == k ==> s'.futures[h] == s.futures[h])
  }

  lemma LocalFramed(s: State, s': State, task: Task)
    requires LocalOk(s, task) && SameAt(s, s', TaskKey(task)) && s.plans == s'.plans
    ensures LocalOk(s', task)
  {
    hide Accepted, Ready;
  }

  lemma KeyFramed(s: State, s': State, k: Key)
    requires KeyOk(s, k) && SameAt(s, s', k) && s.plans == s'.plans
    ensures KeyOk(s', k)
  {
    hide Accepted, Ready;
  }

  /** A section of submission t that touches only its own key k, which no other submission holds the lock of. */
  lemma SectionKeeps(s: State, s': State, t: nat)
    requires LocalsOk(s) && KeysOk(s) && t < |s.tasks| == |s'.tasks| && s.plans == s'.plans
    requires s'.tasks == s.tasks[t := s'.tasks[t]] && TaskKey(s'.tasks[t]) == TaskKey(s.tasks[t])
    requires forall k :: k != TaskKey(s.tasks[t]) ==> SameAt(s, s', k)
    requires forall u :: 0 <= u < |s.tasks| && u != t && TaskKey(s.tasks[u]) == TaskKey(s.tasks[t]) ==>
               !Locked(s.tasks[u]) || SameAt(s, s', TaskKey(s.tasks[t]))
    requires LocalOk(s', s'.tasks[t]) && KeyOk(s', TaskKey(s.tasks[t]))
    ensures LocalsOk(s') && KeysOk(s')
  {
    hide SameAt, KeyOk;
    forall u | 0 <= u < |s'.tasks| ensures LocalOk(s', s'.tasks[u]) {
      if u != t {
        assert LocalOk(s, s.tasks[u]);
        if SameAt(s, s', TaskKey(s.tasks[u])) {
          LocalFramed(s, s', s.tasks[u]);
        }
      }
    }
    forall k ensures KeyOk(s', k) {
      if k != TaskKey(s.tasks[t]) {
        assert KeyOk(s, k);
        KeyFramed(s, s', k);
      }
    }
  }

  // ----- lock slots

  lemma {:induction false} CountUpdate(tasks: seq<Task>, t: nat, task: Task, k: Key)
    requires t < |tasks|
    ensures Count(tasks[t := task], k) == Count(tasks, k) - CountIn(tasks[t], k) + CountIn(task, k)
  {
    var init := tasks[..|tasks| - 1];
    if t == |init| {
      assert tasks[t := task][..|init|] == init;
    } else {
      CountUpdate(init, t, task, k);
      assert tasks[t := task][..|init|] == init[t := task];
    }
  }

  lemma {:induction false} CountMember(tasks: seq<Task>, t: nat, k: Key)
    requires t < |tasks|
    ensures Count(tasks, k) >= CountIn(tasks[t], k)
  {
    if t < |tasks| - 1 {
      CountMember(tasks[..|tasks| - 1], t, k);
    }
  }

  lemma {:induction false} CountOne(tasks: seq<Task>, t: nat, u: nat, k: Key)
    requires t < |tasks| && u < |tasks| && t != u && CountIn(tasks[t], k) == 1 == CountIn(tasks[u], k)
    ensures Count(tasks, k) >= 2
  {
    var init, last := tasks[..|tasks| - 1], |tasks| - 1;
    if t == last {
      CountMember(init, u, k);
    } else if u == last {
      CountMember(init, t, k);
    } else {
      CountOne(init, t, u, k);
    }
  }

  lemma InvShaped(s: State)
    requires Inv(s)
    ensures Shaped(s)
  {
    hide Accepted, Ready, DepositsOk, FuturesOk, Count;
    forall t | 0 <= t < |s.tasks| ensures TaskShaped(s, s.tasks[t]) {
      assert TaskSlotOk(s, t) && LocalOk(s, s.tasks[t]);
      if InRegion(s.tasks[t]) {
        CountMember(s.tasks, t, TaskKey(s.tasks[t]));
        assert SlotOk(s, TaskKey(s.tasks[t]));
      }
    }
    forall k | k in s.handles ensures s.handles[k] < |s.futures| {
      assert KeyOk(s, k);
    }
  }

  /** A section that stays inside the locked region leaves the lock slots alone. */
  lemma InnerSlots(s: State, s': State, t: nat)
    requires SlotsOk(s) && t < |s.tasks| == |s'.tasks| && Locked(s.tasks[t])
    requires s'.tasks == s.tasks[t := s'.tasks[t]] && TaskKey(s'.tasks[t]) == TaskKey(s.tasks[t])
    requires Locked(s'.tasks[t]) && s'.tasks[t].pc.slot == s.tasks[t].pc.slot
    requires s'.slots == s.slots && s'.lockSlots == s.lockSlots
    ensures SlotsOk(s')
  {
    hide Count;
    forall k ensures Count(s'.tasks, k) == Count(s.tasks, k) {
      CountUpdate(s.tasks, t, s'.tasks[t], k);
    }
    forall k | k in s'.lockSlots ensures SlotOk(s', k) {
      assert SlotOk(s, k);
    }
    forall u | 0 <= u < |s'.tasks| ensures TaskSlotOk(s', u) {
      assert TaskSlotOk(s, u);
    }
  }

  /** Mutual exclusion: no two submissions of one key are inside the lock. */
  lemma OnlyHolder(s: State, t: nat, u: nat)
    requires SlotsOk(s) && t < |s.tasks| && u < |s.tasks| && Locked(s.tasks[t]) && Locked(s.tasks[u])
    requires TaskKey(s.tasks[t]) == TaskKey(s.tasks[u])
    ensures t == u
  {
    assert TaskSlotOk(s, t) && TaskSlotOk(s, u);
  }

  // ----- the sections inside the lock

  /** What the sections between entering and leaving have in common. */
  ghost predicate Inner(s: State, s': State, t: nat)
  {
    && t < |s.tasks| == |s'.tasks| && Locked(s.tasks[t]) && Locked(s'.tasks[t])
    && s'.tasks == s.tasks[t := s'.tasks[t]] && TaskKey(s'.tasks[t]) == TaskKey(s.tasks[t])
    && s'.tasks[t].pc.slot == s.tasks[t].pc.slot
    && s'.slots == s.slots && s'.lockSlots == s.lockSlots && s'.plans == s.plans
    && (forall k :: k != TaskKey(s.tasks[t]) ==> SameAt(s, s', k))
  }

  lemma InnerKeeps(s: State, s': State, t: nat)
    requires Inv(s) && Inner(s, s', t)
    requires LocalOk(s', s'.tasks[t]) && KeyOk(s', TaskKey(s.tasks[t])) && DepositsOk(s') && FuturesOk(s')
    ensures Inv(s')
  {
    hide LocalOk, KeyOk, DepositsOk, FuturesOk, SlotsOk, SameAt;
    InnerSlots(s, s', t);
    forall u | 0 <= u < |s.tasks| && u != t && TaskKey(s.tasks[u]) == TaskKey(s.tasks[t])
      ensures !Locked(s.tasks[u])
    {
      if Locked(s.tasks[u]) { OnlyHolder(s, t, u); }
    }
    SectionKeeps(s, s', t);
  }

  lemma FetchKeeps(s: State, t: nat)
    requires Inv(s) && Shaped(s) && Enabled(s, t) && s.tasks[t].pc.Fetching?
    ensures Inv(Next(s, t))
  {
    hide SlotsOk, DepositsOk, FuturesOk, Accepted, Ready;
    var s' := Next(s, t);
    assert LocalOk(s, s.tasks[t]) && KeyOk(s, TaskKey(s.tasks[t]));
    SameDeposits(s, s');
    InnerKeeps(s, s', t);
  }

  /** Deposits and resolved futures are judged by the plans, the keys and the futures only. */
  lemma SameDeposits(s: State, s': State)
    requires s'.plans == s.plans && s'.keys == s.keys && s'.deposits == s.deposits
    ensures DepositsOk(s) ==> DepositsOk(s')
    ensures FuturesOk(s) && s'.futures == s.futures ==> FuturesOk(s')
  {
    hide Accepted, Ready;
  }

  lemma CheckKeeps(s: State, t: nat)
    requires Inv(s) && Shaped(s) && Enabled(s, t) && s.tasks[t].pc.Validating?
    ensures Inv(Next(s, t))
  {
    hide SlotsOk, LocalOk, KeyOk, DepositsOk, FuturesOk, Accepted, Ready, Check, Inner;
    var s', task := Next(s, t), s.tasks[t];
    assert LocalOk(s, task) && KeyOk(s, TaskKey(task));
    CheckedLocal(s, t);
    assert PendingHandle(s, TaskKey(task), task.pc.handle) by { HandlePending(s, task); }
    CheckedElsewhere(s, t);
    CheckedFutures(s, t);
    InnerKeeps(s, s', t);
  }

  lemma HandlePending(s: State, task: Task)
    requires LocalOk(s, task) && task.pc.Validating?
    ensures PendingHandle(s, TaskKey(task), task.pc.handle)
  {
  }

  lemma CheckedLocal(s: State, t: nat)
    requires Shaped(s) && t < |s.tasks| && s.tasks[t].pc.Validating?
    requires LocalOk(s, s.tasks[t]) && KeyOk(s, TaskKey(s.tasks[t]))
    ensures var s' := Check(s, t);
            |s'.tasks| == |s.tasks| && LocalOk(s', s'.tasks[t]) && KeyOk(s', TaskKey(s.tasks[t]))
  {
    hide Accepted, Ready, Validate;
    var task := s.tasks[t];
    ValidateVerdict(s.plans, task.pc.old_, task.contribution);
    if Validate(s.plans, task.pc.old_, task.contribution) == Fine {
      ValidateAccepts(s.plans, TaskKey(task), task.pc.old_, task.contribution);
    }
  }

  lemma CheckedElsewhere(s: State, t: nat)
    requires Shaped(s) && t < |s.tasks| && s.tasks[t].pc.Validating?
    requires PendingHandle(s, TaskKey(s.tasks[t]), s.tasks[t].pc.handle)
    ensures Inner(s, Check(s, t), t)
  {
    hide Validate, SameAt, Check;
    CheckShape(s, t);
    forall k | k != TaskKey(s.tasks[t]) ensures SameAt(s, Check(s, t), k) {
      CheckSameAt(s, t, k);
    }
  }

  lemma CheckShape(s: State, t: nat)
    requires Shaped(s) && t < |s.tasks| && s.tasks[t].pc.Validating?
    ensures var s', task := Check(s, t), s.tasks[t];
            && s'.slots == s.slots && s'.lockSlots == s.lockSlots && s'.plans == s.plans && s'.store == s.store
            && s'.keys == s.keys && s'.deposits == s.deposits
            && |s'.tasks| == |s.tasks| && s'.tasks == s.tasks[t := task.(pc := s'.tasks[t].pc)]
            && Locked(s'.tasks[t]) && s'.tasks[t].pc.slot == task.pc.slot
  {
    hide Validate, Settle;
    SettleFails(s, s.tasks[t].pc.handle);
  }

  lemma SettleFails(s: State, h: nat)
    requires h < |s.futures|
    ensures var s' := Settle(s, h, Failed); s' == s.(futures := s'.futures) && ResolvesNothing(s, s')
    ensures forall i :: 0 <= i < |s.futures| && i != h ==> Settle(s, h, Failed).futures[i] == s.futures[i]
  {
  }

  lemma CheckSameAt(s: State, t: nat, k: Key)
    requires Shaped(s) && t < |s.tasks| && s.tasks[t].pc.Validating? && k != TaskKey(s.tasks[t])
    requires PendingHandle(s, TaskKey(s.tasks[t]), s.tasks[t].pc.handle)
    ensures SameAt(s, Check(s, t), k)
  {
    hide Validate, Shaped, Check;
    CheckShape(s, t);
    CheckTouches(s, t);
  }

  /** Checking changes at most one future and the handle of one key. */
  lemma CheckTouches(s: State, t: nat)
    requires Shaped(s) && t < |s.tasks| && s.tasks[t].pc.Validating?
    ensures var s', task := Check(s, t), s.tasks[t];
            && |s'.futures| == |s.futures|
            && (forall h :: 0 <= h < |s.futures| && h != task.pc.handle ==> s'.futures[h] == s.futures[h])
            && (forall k :: k != TaskKey(task) ==>
                  && (k in s.handles <==> k in s'.handles) && (k in s.handles ==> s.handles[k] == s'.handles[k]))
  {
    hide Validate, Settle;
    SettleFails(s, s.tasks[t].pc.handle);
  }

  lemma CheckedFutures(s: State, t: nat)
    requires Shaped(s) && t < |s.tasks| && s.tasks[t].pc.Validating? && FuturesOk(s) && DepositsOk(s)
    ensures FuturesOk(Check(s, t)) && DepositsOk(Check(s, t))
  {
    hide DepositsOk, FuturesOk, Check;
    CheckResolvesNothing(s, t);
    SameDeposits(s, Check(s, t));
    StillPendingOrFailed(s, Check(s, t));
  }

  /** No future becomes resolved, and none changes its key. */
  ghost predicate ResolvesNothing(s: State, s': State)
  {
    && |s'.futures| == |s.futures| && s'.keys == s.keys
    && forall h :: 0 <= h < |s.futures| ==>
         s'.futures[h].key == s.futures[h].key && (s'.futures[h].state.Resolved? ==> s.futures[h].state.Resolved?)
  }

  lemma CheckResolvesNothing(s: State, t: nat)
    requires Shaped(s) && t < |s.tasks| && s.tasks[t].pc.Validating?
    ensures var s' := Check(s, t); s'.plans == s.plans && s'.deposits == s.deposits && ResolvesNothing(s, s')
  {
    hide Validate, Settle;
    SettleFails(s, s.tasks[t].pc.handle);
  }

  lemma StillPendingOrFailed(s: State, s': State)
    requires FuturesOk(s) && ResolvesNothing(s, s')
    ensures FuturesOk(s')
  {
  }

  lemma ValidateVerdict(plans: PlanStore, others: seq<Contribution>, c: Contribution)
    ensures Validate(plans, others, c) == NoPlan ==> c.context.version !in plans
    ensures Validate(plans, others, c) == Fine ==> c.context.version in plans
  {
  }

  lemma DecideKeeps(s: State, t: nat)
    requires Inv(s) && Shaped(s) && Enabled(s, t) && s.tasks[t].pc.Deciding?
    ensures Inv(Next(s, t)) && !Next(s, t).tasks[t].pc.Leaving?
  {
    hide SlotsOk, DepositsOk, FuturesOk, Ready;
    var s', task := Next(s, t), s.tasks[t];
    assert LocalOk(s, task) && KeyOk(s, TaskKey(task));
    SameDeposits(s, s');
    InnerKeeps(s, s', t);
  }

  lemma GatherKeeps(s: State, t: nat)
    requires Inv(s) && Shaped(s) && Enabled(s, t) && s.tasks[t].pc.Gathering?
    ensures Inv(Next(s, t))
  {
    hide SlotsOk, DepositsOk, FuturesOk, Accepted, Ready;
    var s', task := Next(s, t), s.tasks[t];
    assert LocalOk(s, task) && KeyOk(s, TaskKey(task));
    SameDeposits(s, s');
    InnerKeeps(s, s', t);
  }

  lemma DepositKeeps(s: State, t: nat)
    requires Inv(s) && Shaped(s) && Enabled(s, t) && s.tasks[t].pc.Depositing?
    ensures Inv(Next(s, t))
  {
    hide SlotsOk, Accepted, Ready, DepositsOk;
    var s', task := Next(s, t), s.tasks[t];
    var k := TaskKey(task);
    assert LocalOk(s, task) && KeyOk(s, k);
    if k !in s.keys {
      OneMoreDeposit(s, s', Collection(k, task.pc.candidate));
    } else {
      SameDeposits(s, s');
    }
    InnerKeeps(s, s', t);
  }

  lemma OneMoreDeposit(s: State, s': State, c: Collection)
    requires DepositsOk(s) && c.key !in s.keys && CompleteSet(s, c.key, c.contributions) && s'.plans == s.plans
    requires s'.keys == s.keys + {c.key} && s'.deposits == s.deposits + [c]
    ensures DepositsOk(s')
  {
    hide Accepted, Ready;
    assert s'.deposits[|s.deposits|].key == c.key;
    forall l | l in s'.keys ensures exists i :: 0 <= i < |s'.deposits| && s'.deposits[i].key == l {
      if l != c.key {
        var i :| 0 <= i < |s.deposits| && s.deposits[i].key == l;
        assert s'.deposits[i].key == l;
      }
    }
  }

  lemma DiscardKeeps(s: State, t: nat)
    requires Inv(s) && Shaped(s) && Enabled(s, t) && s.tasks[t].pc.Discarding?
    ensures Inv(Next(s, t))
  {
    hide SlotsOk, DepositsOk, FuturesOk, Accepted, Ready;
    var s', task := Next(s, t), s.tasks[t];
    assert LocalOk(s, task) && KeyOk(s, TaskKey(task));
    SameDeposits(s, s');
    InnerKeeps(s, s', t);
  }

  lemma ResolveKeeps(s: State, t: nat)
    requires Inv(s) && Shaped(s) && Enabled(s, t) && s.tasks[t].pc.Resolving?
    ensures Inv(Next(s, t))
  {
    hide SlotsOk, DepositsOk, Accepted, Ready;
    var s', task := Next(s, t), s.tasks[t];
    assert LocalOk(s, task) && KeyOk(s, TaskKey(task));
    SameDeposits(s, s');
    InnerKeeps(s, s', t);
  }

  lemma PutKeeps(s: State, t: nat)
    requires Inv(s) && Shaped(s) && Enabled(s, t) && s.tasks[t].pc.Putting?
    ensures Inv(Next(s, t))
  {
    hide SlotsOk, DepositsOk, FuturesOk, Accepted, Ready;
    var s', task := Next(s, t), s.tasks[t];
    assert LocalOk(s, task) && KeyOk(s, TaskKey(task));
    SameDeposits(s, s');
    InnerKeeps(s, s', t);
  }

  // ----- the sections that change the lock slots

  lemma AcquireSlots(s: State, t: nat)
    requires SlotsOk(s) && Shaped(s) && t < |s.tasks| && s.tasks[t].pc.Calling?
    ensures SlotsOk(Acquire(s, t))
  {
    hide Count, Acquire, SlotOk, TaskSlotOk, TaskShaped;
    var s', k := Acquire(s, t), TaskKey(s.tasks[t]);
    AcquireShape(s, t);
    forall l ensures Count(s'.tasks, l) == Count(s.tasks, l) + if l == k then 1 else 0 {
      CountUpdate(s.tasks, t, s'.tasks[t], l);
    }
    forall l | l in s'.lockSlots ensures SlotOk(s', l) {
      AcquiredSlot(s, t, l);
    }
    forall u | 0 <= u < |s'.tasks| ensures TaskSlotOk(s', u) {
      AcquiredTask(s, t, u);
    }
  }

  lemma AcquiredSlot(s: State, t: nat, l: Key)
    requires SlotsOk(s) && Shaped(s) && t < |s.tasks| && s.tasks[t].pc.Calling? && l in Acquire(s, t).lockSlots
    ensures SlotOk(Acquire(s, t), l)
  {
    hide Count, Acquire, TaskSlotOk;
    AcquireShape(s, t);
    CountUpdate(s.tasks, t, Acquire(s, t).tasks[t], l);
    assert l in s.lockSlots ==> SlotOk(s, l);
  }

  lemma AcquiredTask(s: State, t: nat, u: nat)
    requires SlotsOk(s) && Shaped(s) && t < |s.tasks| && s.tasks[t].pc.Calling? && u < |s.tasks|
    ensures |Acquire(s, t).tasks| == |s.tasks| && TaskSlotOk(Acquire(s, t), u)
  {
    hide Count, Acquire, SlotOk;
    AcquireShape(s, t);
    assert TaskSlotOk(s, u);
    assert TaskShaped(s, s.tasks[u]);
  }

  /** Acquiring counts one more user of the key's slot, which is new when nobody used the key. */
  lemma AcquireShape(s: State, t: nat)
    requires Shaped(s) && t < |s.tasks|
    ensures var s', k := Acquire(s, t), TaskKey(s.tasks[t]);
            && k in s'.lockSlots && s'.lockSlots.Keys == s.lockSlots.Keys + {k}
            && (forall l :: l in s.lockSlots ==> s'.lockSlots[l] == s.lockSlots[l])
            && (k !in s.lockSlots ==> s'.lockSlots[k] == |s.slots|)
            && |s.slots| <= |s'.slots| && s'.lockSlots[k] < |s'.slots|
            && (forall i :: 0 <= i < |s.slots| && i != s'.lockSlots[k] ==> s'.slots[i] == s.slots[i])
            && s'.slots[s'.lockSlots[k]] == (if k in s.lockSlots
                 then s.slots[s.lockSlots[k]].(users := s.slots[s.lockSlots[k]].users + 1) else Slot(1, None))
            && s'.tasks == s.tasks[t := Task(s.tasks[t].contribution, Waiting(s'.lockSlots[k]))]
  {
  }

  lemma EnterSlots(s: State, s': State, t: nat)
    requires SlotsOk(s) && Shaped(s) && Enabled(s, t) && s.tasks[t].pc.Waiting? && TaskShaped(s, s.tasks[t])
    requires |s'.tasks| == |s.tasks| && s'.tasks == s.tasks[t := s.tasks[t].(pc := s'.tasks[t].pc)]
    requires Locked(s'.tasks[t]) && s'.tasks[t].pc.slot == s.tasks[t].pc.slot && s'.lockSlots == s.lockSlots
    requires s'.slots == s.slots[s.tasks[t].pc.slot := s.slots[s.tasks[t].pc.slot].(holder := Some(t))]
    ensures SlotsOk(s')
  {
    hide Count;
    var k, id := TaskKey(s.tasks[t]), s.tasks[t].pc.slot;
    forall l ensures Count(s'.tasks, l) == Count(s.tasks, l) {
      CountUpdate(s.tasks, t, s'.tasks[t], l);
    }
    assert TaskSlotOk(s, t);
    forall l | l in s'.lockSlots ensures SlotOk(s', l) {
      assert SlotOk(s, l);
    }
    forall u | 0 <= u < |s'.tasks| ensures TaskSlotOk(s', u) {
      assert TaskSlotOk(s, u);
    }
  }

  lemma LeaveSlots(s: State, t: nat)
    requires SlotsOk(s) && Shaped(s) && t < |s.tasks| && s.tasks[t].pc.Leaving?
    ensures SlotsOk(Leave(s, t))
    ensures s.slots[s.tasks[t].pc.slot].users == Count(s.tasks, TaskKey(s.tasks[t]))
  {
    hide Count, Leave;
    var s', k := Leave(s, t), TaskKey(s.tasks[t]);
    assert TaskSlotOk(s, t) && SlotOk(s, k);
    LeaveShape(s, t);
    CountMember(s.tasks, t, k);
    forall l ensures Count(s'.tasks, l) == Count(s.tasks, l) - if l == k then 1 else 0 {
      CountUpdate(s.tasks, t, s'.tasks[t], l);
    }
    forall l | l in s'.lockSlots ensures SlotOk(s', l) {
      assert SlotOk(s, l);
    }
    forall u | 0 <= u < |s'.tasks| ensures TaskSlotOk(s', u) {
      assert TaskSlotOk(s, u);
      if u != t { OthersOf(s, t, u, k); }
    }
  }

  /** Leaving counts one user less, frees the lock, and drops the slot with its last user. */
  lemma LeaveShape(s: State, t: nat)
    requires Shaped(s) && t < |s.tasks| && s.tasks[t].pc.Leaving?
    ensures var s', k, id := Leave(s, t), TaskKey(s.tasks[t]), s.tasks[t].pc.slot;
            && s'.slots == s.slots[id := Slot(s.slots[id].users - 1, None)]
            && s'.lockSlots == (if s.slots[id].users > 1 then s.lockSlots else s.lockSlots - {k})
            && s'.tasks == s.tasks[t := Task(s.tasks[t].contribution, Done(s.tasks[t].pc.outcome))]
  {
  }

  /** Another submission of the key of one that holds the lock is waiting, and counted as well. */
  lemma {:induction false} OthersOf(s: State, t: nat, u: nat, k: Key)
    requires SlotsOk(s) && t < |s.tasks| && u < |s.tasks| && u != t && Locked(s.tasks[t]) && TaskKey(s.tasks[t]) == k
    ensures InRegion(s.tasks[u]) && TaskKey(s.tasks[u]) == k ==> Count(s.tasks, k) >= 2 && !Locked(s.tasks[u])
  {
    hide Count, SlotsOk;
    if InRegion(s.tasks[u]) && TaskKey(s.tasks[u]) == k {
      CountOne(s.tasks, t, u, k);
      if Locked(s.tasks[u]) { OnlyHolder(s, t, u); }
    }
  }

  lemma AcquireKeeps(s: State, t: nat)
    requires Inv(s) && Shaped(s) && Enabled(s, t) && s.tasks[t].pc.Calling?
    ensures Inv(Next(s, t))
  {
    hide SlotsOk, DepositsOk, FuturesOk, Accepted, Ready;
    var s' := Next(s, t);
    assert KeyOk(s, TaskKey(s.tasks[t]));
    AcquireSlots(s, t);
    SameDeposits(s, s');
    SectionKeeps(s, s', t);
  }

  lemma EnterKeeps(s: State, t: nat)
    requires Inv(s) && Shaped(s) && Enabled(s, t) && s.tasks[t].pc.Waiting?
    ensures Inv(Next(s, t))
  {
    hide SlotsOk, DepositsOk, Accepted, Ready;
    var s', k := Next(s, t), TaskKey(s.tasks[t]);
    assert KeyOk(s, k);
    EnterSlots(s, s', t);
    SameDeposits(s, s');
    forall u | 0 <= u < |s.tasks| && u != t && TaskKey(s.tasks[u]) == k ensures !Locked(s.tasks[u]) {
      if Locked(s.tasks[u]) { FreeMeansUnlocked(s, t, u); }
    }
    SectionKeeps(s, s', t);
  }

  lemma FreeMeansUnlocked(s: State, t: nat, u: nat)
    requires SlotsOk(s) && Shaped(s) && Enabled(s, t) && s.tasks[t].pc.Waiting?
    requires u < |s.tasks| && TaskKey(s.tasks[u]) == TaskKey(s.tasks[t])
    ensures !Locked(s.tasks[u])
  {
    assert TaskSlotOk(s, t) && TaskSlotOk(s, u);
  }

  /** Dropping a resolved handle, which has nothing stored, keeps the key in order. */
  lemma LeaveKey(s: State, t: nat)
    requires Shaped(s) && t < |s.tasks| && s.tasks[t].pc.Leaving? && TaskShaped(s, s.tasks[t])
    requires KeyOk(s, TaskKey(s.tasks[t]))
    ensures KeyOk(Leave(s, t), TaskKey(s.tasks[t]))
    ensures forall k :: k != TaskKey(s.tasks[t]) ==> SameAt(s, Leave(s, t), k)
    ensures SameDepositState(s, Leave(s, t))
  {
    hide Accepted, Ready;
  }

  ghost predicate SameDepositState(s: State, s': State)
  {
    s'.plans == s.plans && s'.keys == s.keys && s'.deposits == s.deposits && s'.futures == s.futures
  }

  lemma LeaveKeeps(s: State, t: nat)
    requires Inv(s) && Shaped(s) && Enabled(s, t) && s.tasks[t].pc.Leaving?
    ensures Inv(Next(s, t))
  {
    hide SlotsOk, DepositsOk, FuturesOk, Accepted, Ready, Leave, SameAt, KeyOk;
    var s', k := Next(s, t), TaskKey(s.tasks[t]);
    assert KeyOk(s, k) && TaskShaped(s, s.tasks[t]);
    LeaveKey(s, t);
    LeaveSlots(s, t);
    LeftTask(s, t);
    SameDeposits(s, s');
    forall u | 0 <= u < |s.tasks| && u != t && TaskKey(s.tasks[u]) == k ensures !Locked(s.tasks[u]) {
      if Locked(s.tasks[u]) { OnlyHolder(s, t, u); }
    }
    SectionKeeps(s, s', t);
  }

  lemma LeftTask(s: State, t: nat)
    requires Shaped(s) && t < |s.tasks| && s.tasks[t].pc.Leaving? && TaskShaped(s, s.tasks[t])
    ensures Leave(s, t).tasks == s.tasks[t := Task(s.tasks[t].contribution, Done(s.tasks[t].pc.outcome))]
  {
  }

  lemma NextKeeps(s: State, t: nat)
    requires Inv(s) && Shaped(s) && Enabled(s, t)
    ensures Inv(Next(s, t))
  {
    hide Inv, Next, Shaped;
    match s.tasks[t].pc
    case Calling => AcquireKeeps(s, t);
    case Waiting(_) => EnterKeeps(s, t);
    case Fetching(_, _) => FetchKeeps(s, t);
    case Validating(_, _, _) => CheckKeeps(s, t);
    case Deciding(_, _, _) => DecideKeeps(s, t);
    case Gathering(_, _, _) => GatherKeeps(s, t);
    case Depositing(_, _, _) => DepositKeeps(s, t);
    case Discarding(_, _) => DiscardKeeps(s, t);
    case Resolving(_, _) => ResolveKeeps(s, t);
    case Putting(_, _) => PutKeeps(s, t);
    case Leaving(_, _) => LeaveKeeps(s, t);
  }

  // ----- the environment

  lemma SubmitKeeps(s: State, c: Contribution)
    requires Inv(s)
    ensures Inv(Submitted(s, c))
  {
    hide Count, Accepted, Ready, DepositsOk, FuturesOk;
    var s' := Submitted(s, c);
    assert s'.tasks[..|s'.tasks| - 1] == s.tasks;
    SubmitCounts(s, c);
    forall k | k in s'.lockSlots ensures SlotOk(s', k) {
      assert SlotOk(s, k);
    }
    forall t | 0 <= t < |s'.tasks| ensures TaskSlotOk(s', t) && LocalOk(s', s'.tasks[t]) {
      if t < |s.tasks| {
        assert TaskSlotOk(s, t) && LocalOk(s, s.tasks[t]);
      }
    }
    forall k ensures KeyOk(s', k) {
      assert KeyOk(s, k);
    }
    SameDeposits(s, s');
  }

  lemma SubmitCounts(s: State, c: Contribution)
    ensures forall k :: Count(Submitted(s, c).tasks, k) == Count(s.tasks, k)
  {
    assert Submitted(s, c).tasks[..|s.tasks|] == s.tasks;
  }

  lemma PlanKeeps(s: State, version: nat, plan: WorkerPlan)
    requires Inv(s) && version !in s.plans
    ensures Inv(PlanStored(s, version, plan))
  {
    hide Count, DepositsOk, FuturesOk, Accepted, Ready, HasRoutings, RoutingsOf;
    var s' := PlanStored(s, version, plan);
    SlotsWithoutPlans(s, s');
    forall t | 0 <= t < |s'.tasks| ensures LocalOk(s', s'.tasks[t]) {
      assert LocalOk(s, s.tasks[t]);
      JudgedAlike(s.plans, s'.plans, TaskKey(s.tasks[t]));
    }
    forall k ensures KeyOk(s', k) {
      assert KeyOk(s, k);
      JudgedAlike(s.plans, s'.plans, k);
    }
    DepositsWithPlan(s, s');
  }

  lemma SlotsWithoutPlans(s: State, s': State)
    requires SlotsOk(s) && s' == s.(plans := s'.plans)
    ensures SlotsOk(s')
  {
    hide Count;
    forall k | k in s'.lockSlots ensures SlotOk(s', k) { assert SlotOk(s, k); }
    forall t | 0 <= t < |s'.tasks| ensures TaskSlotOk(s', t) { assert TaskSlotOk(s, t); }
  }

  /** A new version does not change how contributions for known versions are judged. */
  lemma JudgedAlike(plans: PlanStore, plans': PlanStore, k: Key)
    requires forall v :: v in plans ==> v in plans' && plans'[v] == plans[v]
    ensures HasRoutings(plans, k) ==> HasRoutings(plans', k) && RoutingsOf(plans', k) == RoutingsOf(plans, k)
    ensures forall cs :: Accepted(plans, k, cs) ==> Accepted(plans', k, cs)
    ensures HasRoutings(plans, k) ==> forall cs :: Ready(plans, k, cs) == Ready(plans', k, cs)
    ensures forall cs :: Accepted(plans, k, cs) ==> HasRoutings(plans, k)
  {
    hide RoutingsFor, InputsReady, Arrived, DisjointBundles, ValidSources;
  }

  lemma DepositsWithPlan(s: State, s': State)
    requires DepositsOk(s) && FuturesOk(s) && s' == s.(plans := s'.plans)
    requires forall v :: v in s.plans ==> v in s'.plans && s'.plans[v] == s.plans[v]
    ensures DepositsOk(s') && FuturesOk(s')
  {
    hide Accepted, Ready, HasRoutings, RoutingsOf;
    forall i | 0 <= i < |s'.deposits| ensures CompleteSet(s', s'.deposits[i].key, s'.deposits[i].contributions) {
      JudgedAlike(s.plans, s'.plans, s.deposits[i].key);
    }
  }

  // ----- every run

  ghost predicate Initial(s: State)
  {
    && s.lockSlots == map[] && s.slots == [] && s.handles == map[] && s.futures == []
    && s.store == map[] && s.keys == {} && s.deposits == [] && s.tasks == []
  }

  ghost predicate IsRun(run: seq<State>)
  {
    run != [] && Initial(run[0]) && forall i :: 0 < i < |run| ==> Step(run[i - 1], run[i])
  }

  lemma InitialKeeps(s: State)
    requires Initial(s)
    ensures Inv(s)
  {
  }

  lemma StepKeeps(s: State, s': State)
    requires Inv(s) && Step(s, s')
    ensures Inv(s')
  {
    hide Inv, Next, Submitted, PlanStored, Enabled, Shaped;
    if c :| s' == Submitted(s, c) {
      SubmitKeeps(s, c);
    } else if version: nat, plan :| version !in s.plans && s' == PlanStored(s, version, plan) {
      PlanKeeps(s, version, plan);
    } else {
      var t: nat :| Enabled(s, t) && s' == Next(s, t);
      NextKeeps(s, t);
    }
  }

  lemma {:induction false} RunKeeps(run: seq<State>)
    requires IsRun(run)
    ensures Inv(run[|run| - 1])
  {
    hide Inv, Step, Initial;
    if |run| == 1 {
      InitialKeeps(run[0]);
    } else {
      var init := run[..|run| - 1];
      assert forall i :: 0 <= i < |init| ==> init[i] == run[i];
      RunKeeps(init);
      assert Step(run[|run| - 2], run[|run| - 1]);
      StepKeeps(run[|run| - 2], run[|run| - 1]);
    }
  }

  // ----- what every run guarantees

  ghost predicate Reached(run: seq<State>, s: State)
  {
    IsRun(run) && run[|run| - 1] == s
  }

  ghost predicate DepositOf(s: State, k: Key, i: int)
  {
    0 <= i < |s.deposits| && s.deposits[i].key == k
  }

  /**
   A key has a lock slot exactly while some submission is between acquire and release, the slot counts
   those submissions, and they all hold the same slot.
   */
  lemma {:induction false} SlotsAlwaysExact(run: seq<State>, s: State, k: Key)
    requires Reached(run, s)
    ensures k in s.lockSlots <==> Count(s.tasks, k) > 0
    ensures k in s.lockSlots ==> s.lockSlots[k] < |s.slots| && s.slots[s.lockSlots[k]].users == Count(s.tasks, k)
    ensures forall t :: 0 <= t < |s.tasks| && InRegion(s.tasks[t]) && TaskKey(s.tasks[t]) == k ==>
              k in s.lockSlots && s.tasks[t].pc.slot == s.lockSlots[k]
  {
    hide Count, KeysOk, LocalsOk, DepositsOk, FuturesOk, IsRun;
    RunKeeps(run);
    assert k in s.lockSlots ==> SlotOk(s, k);
    forall t | 0 <= t < |s.tasks| && InRegion(s.tasks[t]) && TaskKey(s.tasks[t]) == k
      ensures k in s.lockSlots && s.tasks[t].pc.slot == s.lockSlots[k]
    {
      assert TaskSlotOk(s, t);
    }
  }

  /** At most one submission of a key is inside the lock. */
  lemma MutualExclusion(run: seq<State>, s: State, t: nat, u: nat)
    requires Reached(run, s) && t < |s.tasks| && u < |s.tasks| && Locked(s.tasks[t]) && Locked(s.tasks[u])
    requires TaskKey(s.tasks[t]) == TaskKey(s.tasks[u])
    ensures t == u
  {
    hide SlotsOk, KeysOk, LocalsOk, DepositsOk, FuturesOk, IsRun;
    RunKeeps(run);
    OnlyHolder(s, t, u);
  }

  /** Each key is deposited at most once. */
  lemma DepositedAtMostOnce(run: seq<State>, s: State, k: Key, i: nat, j: nat)
    requires Reached(run, s) && DepositOf(s, k, i) && DepositOf(s, k, j)
    ensures i == j
  {
    hide IsRun, SlotsOk, LocalsOk, KeysOk, FuturesOk, CompleteSet;
    RunKeeps(run);
  }

  /**
   A deposited collection holds, for every routed source, exactly the tensors expected from it, each in
   exactly one contribution, and the merged payload holds exactly these tensors.
   */
  lemma DepositIsExact(run: seq<State>, s: State, i: nat, x: TensorKey)
    requires Reached(run, s) && i < |s.deposits|
    ensures var k, cs := s.deposits[i].key, s.deposits[i].contributions;
            && HasRoutings(s.plans, k)
            && (forall c :: c in cs ==> KeyOf(c) == k)
            && (forall source :: ExpectedFrom(s.plans, k, source, x) <==> CarriedFrom(cs, source, x))
            && (forall j, l :: 0 <= j < |cs| && 0 <= l < |cs| ==> (x in cs[j].bundle && x in cs[l].bundle ==> j == l))
            && (x in Merged(cs) <==> exists source :: ExpectedFrom(s.plans, k, source, x))
  {
    hide IsRun, SlotsOk, LocalsOk, KeysOk, FuturesOk, Ready, Expected, RoutingsFor, Merged, ValidSources, Arrived;
    RunKeeps(run);
    var k, cs := s.deposits[i].key, s.deposits[i].contributions;
    assert CompleteSet(s, k, cs);
    forall source ensures ExpectedFrom(s.plans, k, source, x) <==> CarriedFrom(cs, source, x) {
      CompleteMeansExact(s.plans, k, cs, source, x);
    }
    var anySource := HopAddress(k.context.flow, External);
    CompleteMeansExact(s.plans, k, cs, anySource, x);
    if x in Merged(cs) {
      var j := MergedOnly(cs, x);
      assert CarriedFrom(cs, Origin(cs[j]), x);
    }
    if source :| ExpectedFrom(s.plans, k, source, x) {
      var j :| 0 <= j < |cs| && Origin(cs[j]) == source && x in cs[j].bundle;
      MergedFrom(cs, j, x);
    }
  }

  ghost predicate ExpectedFrom(plans: PlanStore, k: Key, source: HopAddress, x: TensorKey)
    requires HasRoutings(plans, k)
  {
    var expected := Expected(RoutingsOf(plans, k).inputs);
    source in expected && x in expected[source]
  }

  ghost predicate CarriedFrom(contributions: seq<Contribution>, source: HopAddress, x: TensorKey)
  {
    exists i :: 0 <= i < |contributions| && Origin(contributions[i]) == source && x in contributions[i].bundle
  }

  /** What is stored for a key is never complete, and the submitters of it wait on a registered handle. */
  lemma StoredIsIncomplete(run: seq<State>, s: State, k: Key)
    requires Reached(run, s) && StoreAt(s, k) != []
    ensures HasRoutings(s.plans, k) && !Ready(s.plans, k, StoreAt(s, k))
    ensures k in s.handles && s.handles[k] < |s.futures| && s.futures[s.handles[k]] == Future(k, Pending)
  {
    hide IsRun, SlotsOk, LocalsOk, FuturesOk, DepositsOk, Ready;
    RunKeeps(run);
    assert KeyOk(s, k);
  }

  /** A resolved handle belongs to a deposited collection. */
  lemma ResolvedIsDeposited(run: seq<State>, s: State, h: nat)
    requires Reached(run, s) && h < |s.futures| && s.futures[h].state.Resolved?
    ensures exists i :: DepositOf(s, s.futures[h].key, i)
  {
    hide IsRun, SlotsOk, LocalsOk, KeysOk, CompleteSet;
    RunKeeps(run);
    var i :| 0 <= i < |s.deposits| && s.deposits[i].key == s.futures[h].key;
    assert DepositOf(s, s.futures[h].key, i);
  }

  // ----- contributions that come too late

  /** The collection has been deposited, and the submission that did it has settled its handle. */
  ghost predicate Concluded(s: State, k: Key)
  {
    && k in s.keys
    && forall t :: 0 <= t < |s.tasks| ==> !Concluding(s.tasks[t], k)
  }

  predicate Concluding(task: Task, k: Key)
  {
    TaskKey(task) == k && (task.pc.Discarding? || task.pc.Resolving?)
  }

  ghost predicate ResolvedOf(s: State, k: Key, h: nat)
  {
    h < |s.futures| && s.futures[h] == Future(k, Resolved)
  }

  lemma NextConcluded(s: State, t: nat, k: Key, h: nat)
    requires LocalsOk(s) && Shaped(s) && Enabled(s, t) && Concluded(s, k)
    ensures Concluded(Next(s, t), k)
    ensures ResolvedOf(Next(s, t), k, h) ==> ResolvedOf(s, k, h)
  {
    hide Accepted, Ready, Validate, Concluded, Acquire, Leave, LocalsOk;
    assert k in s.keys && !Concluding(s.tasks[t], k) by { NotConcluding(s, k, t); }
    assert LocalOk(s, s.tasks[t]) by { LocalOf(s, t); }
    NextFutures(s, t, k, h);
    NextTasks(s, t, k);
    OneTaskMoved(s, Next(s, t), t, k);
  }

  lemma LocalOf(s: State, t: nat)
    requires LocalsOk(s) && t < |s.tasks|
    ensures LocalOk(s, s.tasks[t])
  {
    hide LocalOk;
  }

  lemma NotConcluding(s: State, k: Key, t: nat)
    requires Concluded(s, k) && t < |s.tasks|
    ensures k in s.keys && !Concluding(s.tasks[t], k)
  {
    hide Concluding;
  }

  lemma OneTaskMoved(s: State, s': State, t: nat, k: Key)
    requires Concluded(s, k) && k in s'.keys && t < |s.tasks| == |s'.tasks|
    requires s'.tasks == s.tasks[t := s'.tasks[t]] && !Concluding(s'.tasks[t], k)
    ensures Concluded(s', k)
  {
    hide Concluding;
    forall u | 0 <= u < |s'.tasks| ensures !Concluding(s'.tasks[u], k) {
      assert !Concluding(s.tasks[u], k);
    }
  }

  /** Only the submission that deposits can reach the sections that settle the handle. */
  lemma NextTasks(s: State, t: nat, k: Key)
    requires Shaped(s) && Enabled(s, t) && k in s.keys && !Concluding(s.tasks[t], k)
    ensures var s' := Next(s, t);
            && k in s'.keys && |s'.tasks| == |s.tasks| && s'.tasks == s.tasks[t := s'.tasks[t]]
            && !Concluding(s'.tasks[t], k)
  {
    hide Accepted, Ready, Validate, Acquire, Leave, Settle, Check, Decide, Enter;
    match s.tasks[t].pc
    case Calling => AcquireShape(s, t); AcquireKeys(s, t);
    case Waiting(_) => EnterTasks(s, t);
    case Leaving(_, _) => LeaveShape(s, t); LeaveKeys(s, t);
    case Validating(_, _, _) => CheckShape(s, t); CheckTasks(s, t);
    case Deciding(_, _, _) => DecideTasks(s, t);
    case Resolving(_, h) => SettleKeys(s, h);
    case _ =>
  }

  lemma CheckTasks(s: State, t: nat)
    requires Shaped(s) && t < |s.tasks| && s.tasks[t].pc.Validating?
    ensures |Check(s, t).tasks| == |s.tasks| && (Check(s, t).tasks[t].pc.Leaving? || Check(s, t).tasks[t].pc.Deciding?)
  {
    hide Validate;
  }

  lemma EnterTasks(s: State, t: nat)
    requires Shaped(s) && t < |s.tasks| && s.tasks[t].pc.Waiting?
    ensures var s' := Enter(s, t);
            && s'.keys == s.keys && |s'.tasks| == |s.tasks|
            && s'.tasks == s.tasks[t := s.tasks[t].(pc := s'.tasks[t].pc)]
            && (s'.tasks[t].pc.Leaving? || s'.tasks[t].pc.Fetching?)
  {
  }

  lemma DecideTasks(s: State, t: nat)
    requires Shaped(s) && t < |s.tasks| && s.tasks[t].pc.Deciding?
    ensures var s' := Decide(s, t);
            && s'.keys == s.keys && |s'.tasks| == |s.tasks|
            && s'.tasks == s.tasks[t := s.tasks[t].(pc := s'.tasks[t].pc)]
            && !s'.tasks[t].pc.Discarding? && !s'.tasks[t].pc.Resolving?
  {
    hide Ready, HasRoutings;
  }

  lemma AcquireKeys(s: State, t: nat)
    requires Shaped(s) && t < |s.tasks|
    ensures Acquire(s, t).keys == s.keys && Acquire(s, t).futures == s.futures
  {
  }

  lemma LeaveKeys(s: State, t: nat)
    requires Shaped(s) && t < |s.tasks| && s.tasks[t].pc.Leaving?
    ensures Leave(s, t).keys == s.keys && Leave(s, t).futures == s.futures
  {
  }

  lemma SettleKeys(s: State, h: nat)
    requires h < |s.futures|
    ensures var s' := Settle(s, h, Resolved);
            s' == s.(futures := s'.futures) && forall i :: 0 <= i < |s'.futures| && i != h ==>
              i < |s.futures| && s'.futures[i] == s.futures[i]
    ensures |Settle(s, h, Resolved).futures| == |s.futures| && Settle(s, h, Resolved).futures[h].key == s.futures[h].key
  {
  }

  /** A section resolves no future of a key unless it settles the handle of that key. */
  lemma NextFutures(s: State, t: nat, k: Key, h: nat)
    requires Shaped(s) && Enabled(s, t) && LocalOk(s, s.tasks[t]) && !Concluding(s.tasks[t], k)
    ensures ResolvedOf(Next(s, t), k, h) ==> ResolvedOf(s, k, h)
  {
    hide Accepted, Ready, Validate, Acquire, Leave, Settle, Check;
    match s.tasks[t].pc
    case Calling => AcquireKeys(s, t);
    case Leaving(_, _) => LeaveKeys(s, t);
    case Validating(_, _, _) => CheckResolvesNothing(s, t);
    case Deciding(_, handle, _) => SettleFails(s, handle);
    case Resolving(_, handle) => SettleKeys(s, handle);
    case _ =>
  }

  lemma StepConcluded(s: State, s': State, k: Key, h: nat)
    requires Inv(s) && Step(s, s') && Concluded(s, k)
    ensures Concluded(s', k)
    ensures ResolvedOf(s', k, h) ==> ResolvedOf(s, k, h)
  {
    hide Next, Enabled, Shaped, SlotsOk, LocalsOk, KeysOk, DepositsOk, FuturesOk;
    if c :| s' == Submitted(s, c) {
      forall t | 0 <= t < |s'.tasks| ensures !Concluding(s'.tasks[t], k) {
        assert t < |s.tasks| ==> s'.tasks[t] == s.tasks[t] && !Concluding(s.tasks[t], k);
      }
    } else if version: nat, plan :| version !in s.plans && s' == PlanStored(s, version, plan) {
    } else {
      var t: nat :| Enabled(s, t) && s' == Next(s, t);
      NextConcluded(s, t, k, h);
    }
  }

  /**
   Once a collection has been deposited and its handle settled, no other handle of the key is ever resolved:
   whoever submits a further contribution of it waits on a handle that stays as it is.
   */
  lemma {:induction false} LateHandlesNeverResolve(run: seq<State>, i: nat, k: Key, h: nat)
    requires IsRun(run) && i < |run| && Concluded(run[i], k)
    ensures Concluded(run[|run| - 1], k)
    ensures ResolvedOf(run[|run| - 1], k, h) ==> ResolvedOf(run[i], k, h)
    decreases |run|
  {
    hide Initial, Step, Concluded, ResolvedOf, Inv;
    if i < |run| - 1 {
      var init := run[..|run| - 1];
      assert forall j :: 0 <= j < |init| ==> init[j] == run[j];
      RunKeeps(init);
      LateHandlesNeverResolve(init, i, k, h);
      assert Step(run[|run| - 2], run[|run| - 1]);
      StepConcluded(run[|run| - 2], run[|run| - 1], k, h);
    }
  }

  /** The lookup of the routings cannot fail between the validation and the readiness test. */
  lemma RoutingNeverLost(run: seq<State>, s: State, t: nat)
    requires Reached(run, s) && t < |s.tasks| && s.tasks[t].pc.Done?
    ensures !s.tasks[t].pc.outcome.RoutingLost?
  {
    hide IsRun, SlotsOk, FuturesOk, KeysOk, DepositsOk;
    RunKeeps(run);
    assert LocalOk(s, s.tasks[t]);
  }

  /** No deadlock: as long as a submission has not finished, some submission can go on. */
  lemma SomeSubmissionCanGoOn(run: seq<State>, s: State, t: nat)
    requires Reached(run, s) && t < |s.tasks| && !s.tasks[t].pc.Done?
    ensures Shaped(s) && exists u: nat :: Enabled(s, u)
  {
    hide IsRun, Count, KeysOk, LocalsOk, DepositsOk, FuturesOk;
    RunKeeps(run);
    InvShaped(s);
    if !Enabled(s, t) {
      assert TaskSlotOk(s, t) && SlotOk(s, TaskKey(s.tasks[t]));
      assert Enabled(s, s.slots[s.tasks[t].pc.slot].holder.value);
    }
  }
}
