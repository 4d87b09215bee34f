/**
 How submissions to the contribution pipeline end: what becomes of a contribution that comes too late, and
 which handles can still be resolved.
 */
module ContributionOutcomes {
  import opened WorkerRuntime
  import opened ContributionPolicy
  import opened ContributionPipeline

  // ----- continuations

  ghost predicate Path(run: seq<State>, s: State, s': State)
  {
    run != [] && run[0] == s && run[|run| - 1] == s' && forall i :: 0 < i < |run| ==> Step(run[i - 1], run[i])
  }

  /** Some continuation of s reaches s'. */
  ghost predicate Leads(s: State, s': State)
  {
    exists run :: Path(run, s, s')
  }

  lemma LeadsSelf(s: State)
    ensures Leads(s, s)
  {
    assert Path([s], s, s);
  }

  lemma LeadsStep(s: State, s': State, s'': State)
    requires Leads(s, s') && Step(s', s'')
    ensures Leads(s, s'')
  {
    hide Step;
    var run :| Path(run, s, s');
    var more := run + [s''];
    forall i | 0 < i < |more| ensures Step(more[i - 1], more[i]) {
      if i < |run| {
        assert more[i - 1] == run[i - 1] && more[i] == run[i];
      }
    }
    assert Path(more, s, s'');
  }

  lemma LeadsReached(run: seq<State>, s: State, s': State) returns (more: seq<State>)
    requires Reached(run, s) && Leads(s, s')
    ensures Reached(more, s')
  {
    hide Step, Initial;
    var next :| Path(next, s, s');
    more := run + next[1..];
    forall i | 0 < i < |more| ensures Step(more[i - 1], more[i]) {
      if i < |run| {
        assert more[i - 1] == run[i - 1] && more[i] == run[i];
      } else {
        assert more[i] == next[i - |run| + 1];
        assert more[i - 1] == next[i - |run|];
      }
    }
  }

  lemma Begin(s0: State, s: State, c: Contribution) returns (s1: State)
    requires Leads(s0, s) && Inv(s)
    ensures s1 == Submitted(s, c) && Leads(s0, s1) && Inv(s1) && Shaped(s1)
  {
    hide Inv, Submitted, Shaped, Leads;
    s1 := Submitted(s, c);
    assert Step(s, s1);
    LeadsStep(s0, s, s1);
    SubmitKeeps(s, c);
    InvShaped(s1);
  }

  lemma Advance(s0: State, s: State, t: nat) returns (s1: State)
    requires Leads(s0, s) && Inv(s) && Shaped(s) && Enabled(s, t)
    ensures s1 == Next(s, t) && Leads(s0, s1) && Inv(s1) && Shaped(s1)
  {
    hide Inv, Next, Enabled, Shaped, Leads;
    s1 := Next(s, t);
    assert Step(s, s1);
    LeadsStep(s0, s, s1);
    NextKeeps(s, t);
    InvShaped(s1);
  }

  // ----- what one section leaves alone

  /** Only submission t has moved, under the same plans. */
  ghost predicate Rest(s: State, s': State, t: nat)
  {
    && s'.plans == s.plans && t < |s.tasks| == |s'.tasks| && s'.tasks[t].contribution == s.tasks[t].contribution
    && forall u :: 0 <= u < |s.tasks| && u != t ==> s'.tasks[u] == s.tasks[u]
  }

  lemma RestThen(s: State, s': State, s'': State, t: nat)
    requires Rest(s, s', t) && Rest(s', s'', t)
    ensures Rest(s, s'', t)
  {
  }

  /** No submission of the key is inside the lock. */
  ghost predicate Free(s: State, k: Key)
  {
    forall u :: 0 <= u < |s.tasks| && TaskKey(s.tasks[u]) == k ==> !Locked(s.tasks[u])
  }

  /** No submission of the key is between acquire and release. */
  ghost predicate Idle(s: State, k: Key)
  {
    forall u :: 0 <= u < |s.tasks| && TaskKey(s.tasks[u]) == k ==> !InRegion(s.tasks[u])
  }

  lemma {:induction false} IdleCount(tasks: seq<Task>, k: Key)
    requires forall u :: 0 <= u < |tasks| ==> CountIn(tasks[u], k) == 0
    ensures Count(tasks, k) == 0
  {
    if tasks != [] {
      IdleCount(tasks[..|tasks| - 1], k);
    }
  }

  lemma {:induction false} LoneCount(tasks: seq<Task>, t: nat, k: Key)
    requires t < |tasks| && CountIn(tasks[t], k) == 1
    requires forall u :: 0 <= u < |tasks| && u != t ==> CountIn(tasks[u], k) == 0
    ensures Count(tasks, k) == 1
  {
    if t == |tasks| - 1 {
      IdleCount(tasks[..t], k);
    } else {
      LoneCount(tasks[..|tasks| - 1], t, k);
    }
  }

  // ----- from each point inside the lock to the end of a submission

  /** The submission is inside the lock of its key. */
  ghost predicate Holds(s: State, t: nat, k: Key)
  {
    Inv(s) && Shaped(s) && t < |s.tasks| && TaskKey(s.tasks[t]) == k && Locked(s.tasks[t])
  }

  lemma HolderGoesOn(s0: State, s: State, t: nat, k: Key) returns (s1: State)
    requires Leads(s0, s) && Holds(s, t, k)
    ensures Enabled(s, t) && s1 == Next(s, t) && Leads(s0, s1) && Inv(s1) && Shaped(s1)
    ensures LocalOk(s, s.tasks[t]) && KeyOk(s, k)
  {
    hide SlotsOk, LocalOk, LocalsOk, KeyOk, DepositsOk, FuturesOk, Leads, Next, Shaped;
    LocalOf(s, t);
    s1 := Advance(s0, s, t);
  }

  /** Just one submission of the key is between acquire and release. */
  predicate Lone(s: State, k: Key)
  {
    Count(s.tasks, k) == 1
  }

  /** The registered handle of the key is resolved or has failed. */
  predicate SettledAt(s: State, k: Key)
  {
    k in s.handles && s.handles[k] < |s.futures| && !s.futures[s.handles[k]].state.Pending?
  }

  lemma LeaveOutcome(s0: State, s: State, t: nat, k: Key) returns (s1: State)
    requires Leads(s0, s) && Holds(s, t, k) && s.tasks[t].pc.Leaving?
    ensures Leads(s0, s1) && Inv(s1) && Rest(s, s1, t) && s1.tasks[t].pc == Done(s.tasks[t].pc.outcome) && Free(s1, k)
    ensures s1.keys == s.keys && s1.futures == s.futures && s1.store == s.store
    ensures forall h :: Registered(s, k, h) ==> Registered(s1, k, h)
    ensures SettledAt(s, k) && Lone(s, k) ==> k !in s1.handles
  {
    hide Leads, LocalsOk, KeysOk, DepositsOk, FuturesOk, SlotsOk, Count, Holds, Rest;
    assert Inv(s) && Shaped(s) && t < |s.tasks| && TaskKey(s.tasks[t]) == k by { HoldsMeans(s, t, k); }
    s1 := HolderGoesOn(s0, s, t, k);
    LeaveSlots(s, t);
    LeaveEffects(s, t, k);
    OthersUnlocked(s, s1, t, k);
  }

  lemma HoldsMeans(s: State, t: nat, k: Key)
    requires Holds(s, t, k)
    ensures Inv(s) && Shaped(s) && t < |s.tasks| && TaskKey(s.tasks[t]) == k && Locked(s.tasks[t])
  {
    hide Inv, Shaped;
  }

  lemma {:induction false} LeaveEffects(s: State, t: nat, k: Key)
    requires Shaped(s) && t < |s.tasks| && s.tasks[t].pc.Leaving? && TaskKey(s.tasks[t]) == k
    requires s.slots[s.tasks[t].pc.slot].users == Count(s.tasks, k)
    ensures var s1 := Leave(s, t);
            && s1.keys == s.keys && s1.futures == s.futures && s1.store == s.store && s1.plans == s.plans
            && s1.tasks == s.tasks[t := Task(s.tasks[t].contribution, Done(s.tasks[t].pc.outcome))]
            && Rest(s, s1, t)
            && (forall h :: Registered(s, k, h) ==> Registered(s1, k, h))
            && (SettledAt(s, k) && Lone(s, k) ==> k !in s1.handles)
  {
    hide Count;
  }

  lemma OthersUnlocked(s: State, s1: State, t: nat, k: Key)
    requires Inv(s) && t < |s.tasks| && Locked(s.tasks[t]) && TaskKey(s.tasks[t]) == k && Rest(s, s1, t)
    requires !Locked(s1.tasks[t])
    ensures Free(s1, k)
  {
    hide SlotsOk, LocalsOk, KeysOk, DepositsOk, FuturesOk;
    forall u | 0 <= u < |s1.tasks| && TaskKey(s1.tasks[u]) == k ensures !Locked(s1.tasks[u]) {
      if u != t && Locked(s.tasks[u]) {
        OnlyHolder(s, t, u);
      }
    }
  }

  /** The contribution joins the store, and its submitter waits. */
  lemma PutOutcome(s0: State, s: State, t: nat, k: Key, h: nat) returns (s2: State)
    requires Leads(s0, s) && Holds(s, t, k) && s.tasks[t].pc.Putting? && Registered(s, k, h)
    ensures Leads(s0, s2) && Inv(s2) && Rest(s, s2, t) && s2.tasks[t].pc == Done(Returned(h)) && Free(s2, k)
    ensures s2.keys == s.keys && Registered(s2, k, h)
    ensures StoreAt(s2, k) == StoreAt(s, k) + [s.tasks[t].contribution]
  {
    hide Leads, Inv, Free, Accepted, Ready, KeyOk;
    var s1 := HolderGoesOn(s0, s, t, k);
    s2 := LeaveOutcome(s0, s1, t, k);
    RestThen(s, s1, s2, t);
  }

  /** The handle of a deposited collection is settled. */
  lemma ConcludingResolves(s0: State, s: State, t: nat, k: Key, h: nat) returns (s2: State)
    requires Leads(s0, s) && Inv(s) && Shaped(s) && t < |s.tasks| && Concluding(s.tasks[t], k) && Registered(s, k, h)
    ensures Leads(s0, s2) && Inv(s2) && Shaped(s2) && Rest(s, s2, t) && Holds(s2, t, k) && ResolvedOf(s2, k, h)
    ensures s2.keys == s.keys && s2.handles == s.handles && s2.tasks[t].pc.Leaving? && s2.tasks[t].pc.outcome == Returned(h)
    ensures StoreAt(s2, k) == []
  {
    hide Leads, Inv, KeyOk;
    var s1 := HolderGoesOn(s0, s, t, k);
    s2 := s1;
    if s.tasks[t].pc.Discarding? {
      s2 := HolderGoesOn(s0, s1, t, k);
      RestThen(s, s1, s2, t);
    }
  }

  /** A late collection is refused: its submitter is told so, and the handle that it has registered stays pending. */
  lemma RefusedAtDeposit(s: State, t: nat, k: Key, h: nat)
    requires Holds(s, t, k) && s.tasks[t].pc.Depositing? && k in s.keys && Registered(s, k, h)
    ensures Enabled(s, t) && Next(s, t).tasks[t].pc == Leaving(s.tasks[t].pc.slot, DuplicateSubmission)
    ensures Next(s, t).deposits == s.deposits && Registered(Next(s, t), k, h)
  {
    hide Inv;
  }

  lemma {:induction false} RestCount(s: State, s': State, t: nat, k: Key)
    requires Rest(s, s', t) && InRegion(s.tasks[t]) && InRegion(s'.tasks[t])
    ensures Count(s'.tasks, k) == Count(s.tasks, k)
  {
    assert s'.tasks == s.tasks[t := s'.tasks[t]];
    CountUpdate(s.tasks, t, s'.tasks[t], k);
  }

  /** How a submission ends that was found valid and has registered its handle. */
  ghost predicate Ended(s: State, s': State, t: nat, k: Key, h: nat, candidate: seq<Contribution>)
    requires HasRoutings(s.plans, k)
  {
    && Rest(s, s', t) && Free(s', k)
    && if !Ready(s.plans, k, candidate) then Waits(s, s', t, k, h) && StoreAt(s', k) == candidate
       else if k in s.keys then Refused(s, s', t, k, h)
       else Resolves(s, s', t, k, h)
  }

  /** Stored, with a pending handle. */
  ghost predicate Waits(s: State, s': State, t: nat, k: Key, h: nat)
  {
    t < |s'.tasks| && s'.tasks[t].pc == Done(Returned(h)) && Registered(s', k, h) && s'.keys == s.keys
  }

  /** Refused, with a pending handle left behind. */
  ghost predicate Refused(s: State, s': State, t: nat, k: Key, h: nat)
  {
    && t < |s'.tasks| && s'.tasks[t].pc == Done(DuplicateSubmission) && Registered(s', k, h) && s'.keys == s.keys
    && StoreAt(s', k) == StoreAt(s, k)
  }

  /** Deposited, with a resolved handle. */
  ghost predicate Resolves(s: State, s': State, t: nat, k: Key, h: nat)
  {
    && t < |s'.tasks| && s'.tasks[t].pc == Done(Returned(h)) && ResolvedOf(s', k, h) && s'.keys == s.keys + {k}
    && StoreAt(s', k) == [] && (Lone(s, k) ==> k !in s'.handles)
  }

  lemma ConcludingEnds(s0: State, s: State, t: nat, k: Key, h: nat) returns (s': State)
    requires Leads(s0, s) && Inv(s) && Shaped(s) && t < |s.tasks| && Concluding(s.tasks[t], k) && Registered(s, k, h)
    ensures Leads(s0, s') && Inv(s') && Rest(s, s', t) && Free(s', k)
    ensures s'.tasks[t].pc == Done(Returned(h)) && ResolvedOf(s', k, h) && s'.keys == s.keys && StoreAt(s', k) == []
    ensures Lone(s, k) ==> k !in s'.handles
  {
    hide Leads, Inv, Free, Count, Shaped, Rest;
    var s1 := ConcludingResolves(s0, s, t, k, h);
    RestCount(s, s1, t, k);
    s' := LeaveOutcome(s0, s1, t, k);
    RestThen(s, s1, s', t);
  }

  lemma DepositOutcome(s0: State, s: State, t: nat, k: Key, h: nat) returns (s': State)
    requires Leads(s0, s) && Holds(s, t, k) && s.tasks[t].pc.Depositing? && Registered(s, k, h)
    ensures Leads(s0, s') && Inv(s') && Rest(s, s', t) && Free(s', k)
    ensures if k in s.keys then Refused(s, s', t, k, h) else Resolves(s, s', t, k, h)
  {
    hide Leads, Inv, Free, Count, KeyOk, Accepted, Ready, Resolves, Shaped;
    var s1 := HolderGoesOn(s0, s, t, k);
    assert Rest(s, s1, t);
    if k in s.keys {
      s' := LeaveOutcome(s0, s1, t, k);
    } else {
      RestCount(s, s1, t, k);
      s' := ConcludingEnds(s0, s1, t, k, h);
      assert Resolves(s, s', t, k, h) by { DepositResolves(s, s1, s', t, k, h); }
    }
    RestThen(s, s1, s', t);
  }

  lemma {:induction false} DepositResolves(s: State, s1: State, s': State, t: nat, k: Key, h: nat)
    requires s1.keys == s.keys + {k} && s'.keys == s1.keys && t < |s'.tasks| && s'.tasks[t].pc == Done(Returned(h))
    requires ResolvedOf(s', k, h) && StoreAt(s', k) == [] && Count(s1.tasks, k) == Count(s.tasks, k)
    requires Lone(s1, k) ==> k !in s'.handles
    ensures Resolves(s, s', t, k, h)
  {
    hide Count;
  }

  lemma DecideOutcome(s0: State, s: State, t: nat, k: Key, h: nat) returns (s': State)
    requires Leads(s0, s) && Holds(s, t, k) && s.tasks[t].pc.Deciding? && Registered(s, k, h)
    ensures HasRoutings(s.plans, k) && Leads(s0, s') && Inv(s')
    ensures Ended(s, s', t, k, h, StoreAt(s, k) + [s.tasks[t].contribution])
  {
    hide Leads, Inv, Free, Count, KeyOk, Ready, Shaped, Refused, Resolves, Waits;
    var candidate := StoreAt(s, k) + [s.tasks[t].contribution];
    var s1 := HolderGoesOn(s0, s, t, k);
    assert Rest(s, s1, t) && s1.keys == s.keys && s1.store == s.store && Registered(s1, k, h);
    if Ready(s.plans, k, candidate) {
      var s2 := HolderGoesOn(s0, s1, t, k);
      assert Rest(s1, s2, t) && s2.keys == s.keys && s2.store == s.store && Registered(s2, k, h);
      s' := DepositOutcome(s0, s2, t, k, h);
      RestThen(s, s1, s2, t);
      RestThen(s, s2, s', t);
      SameOutcome(s, s2, s', t, k, h);
    } else {
      s' := PutOutcome(s0, s1, t, k, h);
      RestThen(s, s1, s', t);
      assert Waits(s, s', t, k, h) by { WaitsWhen(s, s', t, k, h); }
    }
  }

  lemma WaitsWhen(s: State, s': State, t: nat, k: Key, h: nat)
    requires t < |s'.tasks| && s'.tasks[t].pc == Done(Returned(h)) && Registered(s', k, h) && s'.keys == s.keys
    ensures Waits(s, s', t, k, h)
  {
  }

  /** Outcomes only depend on what is stored, deposited and counted at the start. */
  lemma SameOutcome(s: State, s1: State, s': State, t: nat, k: Key, h: nat)
    requires Rest(s, s1, t) && InRegion(s.tasks[t]) && InRegion(s1.tasks[t]) && s1.keys == s.keys && StoreAt(s1, k) == StoreAt(s, k)
    ensures Refused(s1, s', t, k, h) <==> Refused(s, s', t, k, h)
    ensures Resolves(s1, s', t, k, h) <==> Resolves(s, s', t, k, h)
    ensures Waits(s1, s', t, k, h) <==> Waits(s, s', t, k, h)
  {
    hide Count;
    RestCount(s, s1, t, k);
  }

  // ----- one submission on its own

  /** A submission that has taken the lock finds its contribution valid and registers its handle. */
  lemma Validated(s0: State, s: State, t: nat, k: Key, h: nat) returns (s2: State)
    requires Leads(s0, s) && Holds(s, t, k) && s.tasks[t].pc.Fetching? && s.tasks[t].pc.handle == h
    requires Validate(s.plans, StoreAt(s, k), s.tasks[t].contribution) == Fine
    ensures Leads(s0, s2) && Holds(s2, t, k) && Rest(s, s2, t) && s2.tasks[t].pc.Deciding?
    ensures s2.keys == s.keys && s2.store == s.store && Registered(s2, k, h)
  {
    hide Leads, Inv, KeyOk, Validate, Accepted, Shaped;
    var s1 := HolderGoesOn(s0, s, t, k);
    assert StoreAt(s1, k) == StoreAt(s, k) && Rest(s, s1, t);
    s2 := HolderGoesOn(s0, s1, t, k);
    RestThen(s, s1, s2, t);
  }

  /** The lock is free: the submission takes it and finds the handle of the key, or builds one. */
  lemma Entered(s0: State, s: State, t: nat, k: Key) returns (s1: State, h: nat)
    requires Leads(s0, s) && Inv(s) && Shaped(s) && t < |s.tasks| && TaskKey(s.tasks[t]) == k && s.tasks[t].pc.Waiting?
    requires Free(s, k) && (k in s.handles ==> Registered(s, k, s.handles[k]))
    ensures Leads(s0, s1) && Holds(s1, t, k) && Rest(s, s1, t) && s1.tasks[t].pc.Fetching? && s1.tasks[t].pc.handle == h
    ensures s1.keys == s.keys && s1.store == s.store && s1.handles == s.handles
    ensures h == if k in s.handles then s.handles[k] else |s.futures|
  {
    hide Leads, LocalsOk, KeysOk, DepositsOk, FuturesOk, SlotsOk;
    FreeEnables(s, t, k);
    hide Shaped, Inv;
    s1 := Advance(s0, s, t);
    h := if k in s.handles then s.handles[k] else |s.futures|;
  }

  lemma FreeEnables(s: State, t: nat, k: Key)
    requires SlotsOk(s) && Shaped(s) && t < |s.tasks| && TaskKey(s.tasks[t]) == k && s.tasks[t].pc.Waiting? && Free(s, k)
    ensures Enabled(s, t)
  {
    hide Count;
    assert TaskSlotOk(s, t);
    assert SlotOk(s, k);
  }

  /** A new submission up to the point where it waits for the lock. */
  lemma Called(s0: State, s: State, c: Contribution) returns (s2: State)
    requires Leads(s0, s) && Inv(s) && Free(s, KeyOf(c))
    ensures Leads(s0, s2) && Inv(s2) && Shaped(s2) && Free(s2, KeyOf(c))
    ensures |s2.tasks| == |s.tasks| + 1 && s2.tasks[..|s.tasks|] == s.tasks
    ensures s2.tasks[|s.tasks|].contribution == c && s2.tasks[|s.tasks|].pc.Waiting?
    ensures s2.plans == s.plans && s2.keys == s.keys && s2.store == s.store && s2.handles == s.handles && s2.futures == s.futures
  {
    hide Leads, Inv, Shaped;
    var s1 := Begin(s0, s, c);
    var t := |s.tasks|;
    assert s1.tasks == s.tasks + [Task(c, Calling)];
    s2 := Advance(s0, s1, t);
    hide Acquire;
    AcquireShape(s1, t);
    AcquireEffects(s1, t);
    forall u | 0 <= u < |s2.tasks| && TaskKey(s2.tasks[u]) == KeyOf(c) ensures !Locked(s2.tasks[u]) {
      assert u < t ==> s2.tasks[u] == s.tasks[u];
    }
  }

  lemma AcquireEffects(s: State, t: nat)
    requires Shaped(s) && t < |s.tasks|
    ensures var s' := Acquire(s, t);
            s'.plans == s.plans && s'.keys == s.keys && s'.store == s.store && s'.handles == s.handles && s'.futures == s.futures
  {
  }

  /** The registered handle of the key, if there is one, is pending. */
  ghost predicate Waitable(s: State, k: Key)
  {
    k in s.handles ==> Registered(s, k, s.handles[k])
  }

  /** A new submission t, added after all others, has run to its end; nobody else has moved. */
  ghost predicate Added(s: State, s': State, c: Contribution)
  {
    && s'.plans == s.plans && |s'.tasks| == |s.tasks| + 1 && s'.tasks[..|s.tasks|] == s.tasks
    && s'.tasks[|s.tasks|].contribution == c && s'.tasks[|s.tasks|].pc.Done? && Free(s', KeyOf(c))
  }

  /** How a valid contribution ends: stored, refused, or deposited with all that was stored. */
  ghost predicate SubmissionEnds(s: State, s': State, c: Contribution, h: nat)
    requires HasRoutings(s.plans, KeyOf(c)) && |s'.tasks| == |s.tasks| + 1
  {
    var k, outcome := KeyOf(c), s'.tasks[|s.tasks|].pc;
    var candidate := StoreAt(s, k) + [c];
    if !Ready(s.plans, k, candidate) then
      outcome == Done(Returned(h)) && Registered(s', k, h) && StoreAt(s', k) == candidate && s'.keys == s.keys
    else if k in s.keys then
      outcome == Done(DuplicateSubmission) && Registered(s', k, h) && StoreAt(s', k) == StoreAt(s, k) && s'.keys == s.keys
    else
      && outcome == Done(Returned(h)) && ResolvedOf(s', k, h) && StoreAt(s', k) == [] && s'.keys == s.keys + {k}
      && (Idle(s, k) ==> k !in s'.handles)
  }

  /**
   One valid submission that runs while the lock of its key is free: it is stored with a pending handle when
   the collection stays incomplete, refused with a pending handle left behind when the collection is complete
   but comes too late, and deposited with a resolved handle otherwise.
   */
  lemma LoneSubmission(s0: State, s: State, c: Contribution) returns (s': State, h: nat)
    requires Leads(s0, s) && Inv(s) && Free(s, KeyOf(c)) && Waitable(s, KeyOf(c))
    requires Validate(s.plans, StoreAt(s, KeyOf(c)), c) == Fine
    ensures Leads(s0, s') && Inv(s') && Added(s, s', c)
    ensures HasRoutings(s.plans, KeyOf(c)) && SubmissionEnds(s, s', c, h)
    ensures h == if KeyOf(c) in s.handles then s.handles[KeyOf(c)] else |s.futures|
  {
    hide Leads, Inv, Validate, Ready, HasRoutings, Holds, Count, Shaped;
    var k, t := KeyOf(c), |s.tasks|;
    var s1 := Called(s0, s, c);
    var s2;
    s2, h := Entered(s0, s1, t, k);
    var s3 := Validated(s0, s2, t, k, h);
    s' := DecideOutcome(s0, s3, t, k, h);
    RestThen(s1, s2, s3, t);
    RestThen(s1, s3, s', t);
    AddedByRest(s, s1, s', c);
    if Idle(s, k) {
      OnlyNewcomer(s, s1, s3, c);
    }
  }

  lemma AddedByRest(s: State, s1: State, s': State, c: Contribution)
    requires s1.plans == s.plans && |s1.tasks| == |s.tasks| + 1 && s1.tasks[..|s.tasks|] == s.tasks
    requires s1.tasks[|s.tasks|].contribution == c && Rest(s1, s', |s.tasks|)
    requires s'.tasks[|s.tasks|].pc.Done? && Free(s', KeyOf(c))
    ensures Added(s, s', c)
  {
    forall u | 0 <= u < |s.tasks| ensures s'.tasks[u] == s.tasks[u] {
      assert s1.tasks[u] == s1.tasks[..|s.tasks|][u];
    }
    assert s'.tasks[..|s.tasks|] == s.tasks;
  }

  lemma OnlyNewcomer(s: State, s1: State, s3: State, c: Contribution)
    requires Idle(s, KeyOf(c)) && |s1.tasks| == |s.tasks| + 1 && s1.tasks[..|s.tasks|] == s.tasks
    requires s1.tasks[|s.tasks|].contribution == c && Rest(s1, s3, |s.tasks|) && InRegion(s3.tasks[|s.tasks|])
    ensures Count(s3.tasks, KeyOf(c)) == 1
  {
    forall u | 0 <= u < |s3.tasks| && u != |s.tasks| ensures CountIn(s3.tasks[u], KeyOf(c)) == 0 {
      assert s3.tasks[u] == s1.tasks[u] == s1.tasks[..|s.tasks|][u];
    }
    LoneCount(s3.tasks, |s.tasks|, KeyOf(c));
  }

  lemma AddedIdle(s: State, s': State, c: Contribution)
    requires Idle(s, KeyOf(c)) && Added(s, s', c)
    ensures Idle(s', KeyOf(c))
  {
    forall u | 0 <= u < |s'.tasks| && TaskKey(s'.tasks[u]) == KeyOf(c) ensures !InRegion(s'.tasks[u]) {
      assert u < |s.tasks| ==> s'.tasks[u] == s'.tasks[..|s.tasks|][u];
    }
  }
}
