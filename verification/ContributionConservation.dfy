/** No accepted contribution gets lost: it is in the store or in the collection that was deposited. */
module ContributionConservation {
  import opened Plans
  import opened WorkerRuntime
  import opened ContributionPolicy
  import opened ContributionPipeline

  ghost predicate DepositedWith(s: State, k: Key, cs: seq<Contribution>)
  {
    exists i :: DepositOf(s, k, i) && s.deposits[i].contributions == cs
  }

  ghost predicate Delivered(s: State, c: Contribution)
  {
    exists i :: DepositOf(s, KeyOf(c), i) && c in s.deposits[i].contributions
  }

  /** The contribution is stored, or has been deposited. */
  ghost predicate Held(s: State, c: Contribution)
  {
    c in StoreAt(s, KeyOf(c)) || Delivered(s, c)
  }

  ghost predicate Waiting(s: State, h: nat)
  {
    h < |s.futures| ==> s.futures[h].state.Pending?
  }

  /** What a submission has in its hands, and that it waits for its handle only if its contribution is held. */
  ghost predicate Carries(s: State, task: Task)
  {
    var k, c := TaskKey(task), task.contribution;
    match task.pc
    case Gathering(_, _, candidate) => candidate == StoreAt(s, k) + [c]
    case Depositing(_, _, candidate) => candidate == StoreAt(s, k) + [c]
    case Discarding(_, _) => DepositedWith(s, k, StoreAt(s, k) + [c])
    case Resolving(_, _) => Held(s, c)
    case Leaving(_, Returned(h)) => h < |s.futures| && (Waiting(s, h) ==> Held(s, c))
    case Done(Returned(h)) => h < |s.futures| && (Waiting(s, h) ==> Held(s, c))
    case _ => true
  }

  ghost predicate CarriesAll(s: State)
  {
    forall t :: 0 <= t < |s.tasks| ==> Carries(s, s.tasks[t])
  }

  // ----- what a section may change

  ghost predicate SettledStays(s: State, s': State)
  {
    |s.futures| <= |s'.futures| && forall h :: 0 <= h < |s.futures| && !s.futures[h].state.Pending? ==> !s'.futures[h].state.Pending?
  }

  ghost predicate DepositsStay(s: State, s': State)
  {
    |s.deposits| <= |s'.deposits| && forall i :: 0 <= i < |s.deposits| ==> s'.deposits[i] == s.deposits[i]
  }

  /** What the section does to the store of its key. */
  function StoreAfter(s: State, t: nat): seq<Contribution>
    requires t < |s.tasks|
  {
    var k := TaskKey(s.tasks[t]);
    if s.tasks[t].pc.Discarding? then []
    else if s.tasks[t].pc.Putting? then StoreAt(s, k) + [s.tasks[t].contribution]
    else StoreAt(s, k)
  }

  lemma NextEffects(s: State, t: nat)
    requires Shaped(s) && Enabled(s, t)
    ensures var s' := Next(s, t);
            && SettledStays(s, s') && DepositsStay(s, s')
            && StoreAt(s', TaskKey(s.tasks[t])) == StoreAfter(s, t)
            && (forall k :: k != TaskKey(s.tasks[t]) ==> StoreAt(s', k) == StoreAt(s, k))
            && |s'.tasks| == |s.tasks| && s'.tasks == s.tasks[t := s'.tasks[t]]
            && s'.tasks[t].contribution == s.tasks[t].contribution
  {
    hide Accepted, Ready, Validate, HasRoutings, Acquire, Enter, Check, Decide, Deposit, Leave, Settle;
    match s.tasks[t].pc
    case Calling => AcquireEffects(s, t);
    case Waiting(_) => EnterEffects(s, t);
    case Validating(_, _, _) => CheckShape(s, t); CheckResolvesNothing(s, t); CheckSettles(s, t);
    case Deciding(_, _, _) => DecideEffects(s, t);
    case Depositing(_, _, _) => DepositEffects(s, t);
    case Resolving(_, h) => SettleEffects(s, h, Resolved);
    case Leaving(_, _) => LeaveEffects(s, t);
    case _ =>
  }

  lemma DepositEffects(s: State, t: nat)
    requires Shaped(s) && t < |s.tasks| && s.tasks[t].pc.Depositing?
    ensures var s' := Deposit(s, t);
            && s'.store == s.store && DepositsStay(s, s') && s'.futures == s.futures
            && |s'.tasks| == |s.tasks| && s'.tasks == s.tasks[t := s.tasks[t].(pc := s'.tasks[t].pc)]
  {
  }

  lemma AcquireEffects(s: State, t: nat)
    requires Shaped(s) && t < |s.tasks|
    ensures var s' := Acquire(s, t);
            && s'.store == s.store && s'.deposits == s.deposits && s'.futures == s.futures
            && |s'.tasks| == |s.tasks| && s'.tasks == s.tasks[t := s.tasks[t].(pc := s'.tasks[t].pc)]
  {
  }

  lemma EnterEffects(s: State, t: nat)
    requires Shaped(s) && t < |s.tasks| && s.tasks[t].pc.Waiting?
    ensures var s' := Enter(s, t);
            && s'.store == s.store && s'.deposits == s.deposits && SettledStays(s, s')
            && |s'.tasks| == |s.tasks| && s'.tasks == s.tasks[t := s.tasks[t].(pc := s'.tasks[t].pc)]
  {
  }

  /** A submission that leaves at once has found a handle that is settled. */
  lemma EnterFinds(s: State, t: nat)
    requires Shaped(s) && t < |s.tasks| && s.tasks[t].pc.Waiting?
    ensures var s' := Enter(s, t);
            && |s'.tasks| == |s.tasks|
            && match s'.tasks[t].pc
               case Leaving(_, Returned(h)) => h < |s'.futures| && !Waiting(s', h)
               case Fetching(_, _) => true
               case _ => false
  {
  }

  lemma SettleEffects(s: State, h: nat, state: FutureState)
    requires h < |s.futures| && !state.Pending?
    ensures var s' := Settle(s, h, state); s' == s.(futures := s'.futures) && SettledStays(s, s') && !Waiting(s', h)
  {
  }

  lemma CheckSettles(s: State, t: nat)
    requires Shaped(s) && t < |s.tasks| && s.tasks[t].pc.Validating?
    ensures var s' := Check(s, t);
            && SettledStays(s, s') && |s'.tasks| == |s.tasks|
            && match s'.tasks[t].pc
               case Leaving(_, Returned(h)) => h < |s'.futures| && !Waiting(s', h)
               case Leaving(_, InvalidSubmission) => true
               case Deciding(_, _, _) => true
               case _ => false
  {
    hide Validate, Settle;
    SettleEffects(s, s.tasks[t].pc.handle, Failed);
  }

  lemma DecideEffects(s: State, t: nat)
    requires Shaped(s) && t < |s.tasks| && s.tasks[t].pc.Deciding?
    ensures var s' := Decide(s, t);
            && s'.store == s.store && s'.deposits == s.deposits && SettledStays(s, s')
            && |s'.tasks| == |s.tasks| && s'.tasks == s.tasks[t := s.tasks[t].(pc := s'.tasks[t].pc)]
            && match s'.tasks[t].pc
               case Leaving(_, Returned(h)) => h < |s'.futures| && !Waiting(s', h)
               case Gathering(_, _, candidate) => candidate == s.tasks[t].pc.old_ + [s.tasks[t].contribution]
               case Leaving(_, RoutingLost) => true
               case Putting(_, _) => true
               case _ => false
  {
    hide Ready, HasRoutings, Settle;
    SettleEffects(s, s.tasks[t].pc.handle, Failed);
  }

  lemma LeaveEffects(s: State, t: nat)
    requires Shaped(s) && t < |s.tasks| && s.tasks[t].pc.Leaving?
    ensures var s' := Leave(s, t);
            && s'.store == s.store && s'.deposits == s.deposits && s'.futures == s.futures
            && |s'.tasks| == |s.tasks| && s'.tasks == s.tasks[t := s.tasks[t].(pc := Done(s.tasks[t].pc.outcome))]
  {
  }

  // ----- nothing is lost

  lemma DeliveredStays(s: State, s': State, c: Contribution)
    requires DepositsStay(s, s') && Delivered(s, c)
    ensures Delivered(s', c)
  {
    var i :| DepositOf(s, KeyOf(c), i) && c in s.deposits[i].contributions;
    assert DepositOf(s', KeyOf(c), i);
  }

  /** A section keeps every contribution that is held. */
  lemma NextHolds(s: State, t: nat, c: Contribution)
    requires t < |s.tasks| && Shaped(s) && Enabled(s, t) && Carries(s, s.tasks[t]) && Held(s, c)
    ensures Held(Next(s, t), c)
  {
    hide Next, Delivered, DepositedWith, Shaped, Enabled;
    NextEffects(s, t);
    if KeyOf(c) == TaskKey(s.tasks[t]) && s.tasks[t].pc.Discarding? && c in StoreAt(s, KeyOf(c)) {
      StoreDelivered(s, s.tasks[t], c);
    }
    if Delivered(s, c) {
      DeliveredStays(s, Next(s, t), c);
    }
  }

  lemma StoreDelivered(s: State, task: Task, c: Contribution)
    requires task.pc.Discarding? && Carries(s, task) && KeyOf(c) == TaskKey(task)
    requires c in StoreAt(s, KeyOf(c)) || c == task.contribution
    ensures Delivered(s, c)
  {
    var all := StoreAt(s, TaskKey(task)) + [task.contribution];
    var i :| DepositOf(s, TaskKey(task), i) && s.deposits[i].contributions == all;
    assert c in all;
  }

  /** The submission that moves carries on what it should. */
  lemma MovedCarries(s: State, t: nat)
    requires Shaped(s) && Enabled(s, t) && Carries(s, s.tasks[t]) && LocalOk(s, s.tasks[t])
    ensures t < |Next(s, t).tasks| && Carries(Next(s, t), Next(s, t).tasks[t])
  {
    hide Accepted, Ready, Validate, HasRoutings, Acquire, Enter, Check, Decide, Leave, Settle, Held, DepositedWith;
    var s', c := Next(s, t), s.tasks[t].contribution;
    NextEffects(s, t);
    match s.tasks[t].pc
    case Calling => AcquireShape(s, t);
    case Waiting(_) => EnterFinds(s, t);
    case Validating(_, _, _) => CheckSettles(s, t);
    case Deciding(_, _, _) => DecideEffects(s, t);
    case Depositing(_, _, candidate) => DepositCarries(s, t);
    case Discarding(_, _) =>
      StoreDelivered(s, s.tasks[t], c);
      DeliveredStays(s, s', c);
      DeliveredHeld(s', c);
    case Resolving(_, h) => NextHolds(s, t, c); SettleEffects(s, h, Resolved);
    case Putting(_, _) => StoredHeld(s', c);
    case Leaving(_, _) => LeaveEffects(s, t); LeavingCarries(s, s', t);
    case _ =>
  }

  lemma DeliveredHeld(s: State, c: Contribution)
    requires Delivered(s, c)
    ensures Held(s, c)
  {
  }

  lemma StoredHeld(s: State, c: Contribution)
    requires StoreAt(s, KeyOf(c)) != [] && StoreAt(s, KeyOf(c))[|StoreAt(s, KeyOf(c))| - 1] == c
    ensures Held(s, c)
  {
  }

  lemma LeavingCarries(s: State, s': State, t: nat)
    requires t < |s.tasks| && s.tasks[t].pc.Leaving? && Carries(s, s.tasks[t])
    requires s'.store == s.store && s'.deposits == s.deposits && s'.futures == s.futures
    ensures Carries(s', Task(s.tasks[t].contribution, Done(s.tasks[t].pc.outcome)))
  {
    HeldAlike(s, s', s.tasks[t].contribution);
  }

  lemma HeldAlike(s: State, s': State, c: Contribution)
    requires s'.store == s.store && s'.deposits == s.deposits
    ensures Held(s, c) ==> Held(s', c)
  {
    if Delivered(s, c) {
      DeliveredStays(s, s', c);
    }
  }

  lemma DepositCarries(s: State, t: nat)
    requires Shaped(s) && t < |s.tasks| && s.tasks[t].pc.Depositing? && Carries(s, s.tasks[t])
    ensures |Deposit(s, t).tasks| == |s.tasks| && Carries(Deposit(s, t), Deposit(s, t).tasks[t])
  {
    var s', k := Deposit(s, t), TaskKey(s.tasks[t]);
    if k !in s.keys {
      assert DepositOf(s', k, |s.deposits|);
    }
  }

  /** A submission that does not move keeps what it carries. */
  lemma OtherCarries(s: State, t: nat, u: nat)
    requires t < |s.tasks| && SlotsOk(s) && Shaped(s) && Enabled(s, t) && Carries(s, s.tasks[t])
    requires u < |s.tasks| && u != t && Carries(s, s.tasks[u])
    ensures Carries(Next(s, t), s.tasks[u])
  {
    hide Next, SlotsOk, Held, Shaped, Enabled, DepositedWith;
    var s', task := Next(s, t), s.tasks[u];
    NextEffects(s, t);
    if Held(s, task.contribution) {
      NextHolds(s, t, task.contribution);
    }
    if Locked(task) && TaskKey(task) == TaskKey(s.tasks[t]) && Locked(s.tasks[t]) {
      OnlyHolder(s, t, u);
    }
    if task.pc.Discarding? {
      DepositedStays(s, s', task);
    }
  }

  lemma DepositedStays(s: State, s': State, task: Task)
    requires DepositsStay(s, s') && StoreAt(s', TaskKey(task)) == StoreAt(s, TaskKey(task))
    requires DepositedWith(s, TaskKey(task), StoreAt(s, TaskKey(task)) + [task.contribution])
    ensures DepositedWith(s', TaskKey(task), StoreAt(s', TaskKey(task)) + [task.contribution])
  {
    var i :| DepositOf(s, TaskKey(task), i) && s.deposits[i].contributions == StoreAt(s, TaskKey(task)) + [task.contribution];
    assert DepositOf(s', TaskKey(task), i);
  }

  lemma StepCarries(s: State, s': State)
    requires Inv(s) && CarriesAll(s) && Step(s, s')
    ensures CarriesAll(s')
    ensures forall c :: Held(s, c) ==> Held(s', c)
  {
    hide Next, Enabled, Shaped, SlotsOk, LocalsOk, KeysOk, DepositsOk, FuturesOk, Carries, Held;
    if c :| s' == Submitted(s, c) {
      forall t | 0 <= t < |s'.tasks| ensures Carries(s', s'.tasks[t]) {
        if t < |s.tasks| { QuietCarries(s, s', s.tasks[t]); } else { NewCarries(s', s'.tasks[t]); }
      }
      forall d | Held(s, d) ensures Held(s', d) { HeldAlike(s, s', d); }
    } else if version: nat, plan :| version !in s.plans && s' == PlanStored(s, version, plan) {
      forall t | 0 <= t < |s'.tasks| ensures Carries(s', s'.tasks[t]) { QuietCarries(s, s', s.tasks[t]); }
      forall d | Held(s, d) ensures Held(s', d) { HeldAlike(s, s', d); }
    } else {
      var t: nat :| Enabled(s, t) && s' == Next(s, t);
      NextCarries(s, t);
    }
  }

  lemma QuietCarries(s: State, s': State, task: Task)
    requires s'.store == s.store && s'.deposits == s.deposits && s'.futures == s.futures && Carries(s, task)
    ensures Carries(s', task)
  {
    hide Held, DepositedWith;
    HeldAlike(s, s', task.contribution);
    if task.pc.Discarding? {
      DepositedStays(s, s', task);
    }
  }

  lemma NewCarries(s: State, task: Task)
    requires task.pc.Calling?
    ensures Carries(s, task)
  {
  }

  lemma NextCarries(s: State, t: nat)
    requires Inv(s) && CarriesAll(s) && Shaped(s) && Enabled(s, t)
    ensures CarriesAll(Next(s, t)) && forall c :: Held(s, c) ==> Held(Next(s, t), c)
  {
    hide Next, Shaped, SlotsOk, LocalsOk, KeysOk, DepositsOk, FuturesOk, Carries, Held;
    var s' := Next(s, t);
    NextEffects(s, t);
    LocalOf(s, t);
    forall u | 0 <= u < |s'.tasks| ensures Carries(s', s'.tasks[u]) {
      if u == t { MovedCarries(s, t); } else { OtherCarries(s, t, u); }
    }
    forall c | Held(s, c) ensures Held(s', c) { NextHolds(s, t, c); }
  }

  lemma {:induction false} RunCarries(run: seq<State>)
    requires IsRun(run)
    ensures CarriesAll(run[|run| - 1])
  {
    hide Inv, Step, Carries;
    if |run| > 1 {
      var init := run[..|run| - 1];
      assert forall i :: 0 <= i < |init| ==> init[i] == run[i];
      RunCarries(init);
      RunKeeps(init);
      assert Step(run[|run| - 2], run[|run| - 1]);
      StepCarries(run[|run| - 2], run[|run| - 1]);
    }
  }

  // ----- what every run guarantees

  /** Whoever still waits for a handle has a contribution that is in the store or in a deposited collection. */
  lemma WaitingIsHeld(run: seq<State>, s: State, t: nat, h: nat)
    requires Reached(run, s) && t < |s.tasks| && s.tasks[t].pc == Done(Returned(h))
    ensures h < |s.futures| && (s.futures[h].state.Pending? ==> Held(s, s.tasks[t].contribution))
  {
    hide IsRun, Held;
    RunCarries(run);
    assert Carries(s, s.tasks[t]);
  }

  /** Once held, a contribution stays held, whatever happens. */
  lemma HeldForGood(run: seq<State>, s: State, s': State, c: Contribution)
    requires Reached(run, s) && Step(s, s') && Held(s, c)
    ensures Held(s', c)
  {
    hide IsRun, Inv, Step, CarriesAll, Held;
    RunKeeps(run);
    RunCarries(run);
    StepCarries(s, s');
  }

  /** When all that is expected of a key has been taken, in whatever portions, its collection has been deposited. */
  lemma CompleteArrivalIsDeposited(run: seq<State>, s: State, k: Key, cs: seq<Contribution>)
    requires Reached(run, s) && HasRoutings(s.plans, k) && Ready(s.plans, k, cs)
    requires forall c :: c in cs ==> KeyOf(c) == k && Held(s, c)
    ensures k in s.keys && exists i :: DepositOf(s, k, i)
  {
    hide IsRun, SlotsOk, LocalsOk, FuturesOk, Accepted, Ready, Inv;
    RunKeeps(run);
    if i, c :| DepositOf(s, k, i) && c in s.deposits[i].contributions {
      DepositKnown(s, k, i);
    } else {
      forall c | c in cs ensures c in StoreAt(s, k) {
        assert !Delivered(s, c);
      }
      StoreIncomplete(s, k, cs);
    }
  }

  lemma DepositKnown(s: State, k: Key, i: int)
    requires Inv(s) && DepositOf(s, k, i)
    ensures k in s.keys
  {
    hide SlotsOk, LocalsOk, KeysOk, FuturesOk, CompleteSet;
  }

  /** No part of what is stored for a key is a complete set. */
  lemma StoreIncomplete(s: State, k: Key, cs: seq<Contribution>)
    requires Inv(s) && HasRoutings(s.plans, k) && forall c :: c in cs ==> c in StoreAt(s, k)
    ensures !Ready(s.plans, k, cs)
  {
    hide SlotsOk, LocalsOk, DepositsOk, FuturesOk, Accepted, Ready;
    assert KeyOk(s, k);
    if Ready(s.plans, k, cs) {
      ReadyGrows(s.plans, k, cs, StoreAt(s, k));
    }
  }

  lemma ReadyGrows(plans: PlanStore, k: Key, cs: seq<Contribution>, all: seq<Contribution>)
    requires HasRoutings(plans, k) && Ready(plans, k, cs) && (all != [] ==> Accepted(plans, k, all))
    requires forall c :: c in cs ==> c in all
    ensures all != [] && Ready(plans, k, all)
  {
    hide Expected, RoutingsFor, Arrived;
    assert cs[0] in cs;
    var expected := Expected(RoutingsOf(plans, k).inputs);
    var some, arrived := Arrived(cs), Arrived(all);
    forall a | a in expected ensures (if a in arrived then arrived[a] else {}) == expected[a] {
      forall x ensures x in (if a in arrived then arrived[a] else {}) <==> x in expected[a] {
        ArrivedFrom(cs, a, x);
        ArrivedFrom(all, a, x);
        if x in expected[a] {
          assert a in some && x in some[a];
          var i :| 0 <= i < |cs| && Origin(cs[i]) == a && x in cs[i].bundle;
          assert cs[i] in all;
          var j :| 0 <= j < |all| && all[j] == cs[i];
        }
        if j :| 0 <= j < |all| && Origin(all[j]) == a && x in all[j].bundle {
          assert all[j] in all;
          var from := map[Origin(all[j]) := all[j].bundle.Keys];
          assert ValidSources(RoutingsOf(plans, k), from) && a in from && from[a] == all[j].bundle.Keys;
        }
      }
    }
  }
}
