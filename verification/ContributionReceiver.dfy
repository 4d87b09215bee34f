/** The objects that a worker updates while it receives contributions, refining the state machine of the pipeline. */
module ContributionReceiver {
  import opened Assignment
  import opened WorkerRuntime
  import opened ContributionPolicy
  import opened ContributionPipeline

  class InMemoryContributionStore {
    var contents: map<Key, seq<Contribution>>

    constructor ()
      ensures contents == map[]
    {
      contents := map[];
    }

    method Put(k: Key, c: Contribution)
      modifies this
      ensures contents == old(contents)[k := (if k in old(contents) then old(contents)[k] else []) + [c]]
    {
      if k !in contents {
        contents := contents[k := []];
      }
      contents := contents[k := contents[k] + [c]];
    }

    method GetAll(k: Key) returns (r: seq<Contribution>)
      ensures r == if k in contents then contents[k] else []
    {
      r := if k in contents then contents[k] else [];
    }

    method Discard(k: Key)
      modifies this
      ensures contents == old(contents) - {k}
    {
      contents := contents - {k};
    }
  }

  class OrderedPostbox {
    var queue: seq<Collection>
    var allKeys: set<Key>
    ghost var deposited: seq<Collection>
    ghost var extracted: nat

    /** The queue is what has been deposited and not yet extracted, in order. */
    ghost predicate Valid()
      reads this
    {
      extracted <= |deposited| && queue == deposited[extracted..]
    }

    constructor ()
      ensures Valid() && allKeys == {} && deposited == []
    {
      queue, allKeys, deposited, extracted := [], {}, [], 0;
    }

    /** False stands for the exception on a duplicate key. */
    method Deposit(value: Collection) returns (ok: bool)
      requires Valid()
      modifies this
      ensures Valid() && ok == (value.key !in old(allKeys))
      ensures allKeys == old(allKeys) + {value.key} && extracted == old(extracted)
      ensures deposited == if ok then old(deposited) + [value] else old(deposited)
    {
      if value.key in allKeys {
        return false;
      }
      allKeys := allKeys + {value.key};
      queue := queue + [value];
      deposited := deposited + [value];
      ok := true;
    }

    /** Collections leave in the order in which they were deposited. */
    method ExtractNext() returns (value: Collection)
      requires Valid() && queue != []
      modifies this
      ensures Valid() && allKeys == old(allKeys) && deposited == old(deposited)
      ensures extracted == old(extracted) + 1 && value == deposited[old(extracted)]
    {
      value := queue[0];
      queue := queue[1..];
      extracted := extracted + 1;
    }
  }

  class DefaultContributionPipeline {
    const contributionStore: InMemoryContributionStore
    const outbox: OrderedPostbox
    var plans: PlanStore
    var lockSlots: map<Key, nat>
    var slots: seq<Slot>
    var handles: map<Key, nat>
    var futures: seq<Future>
    var tasks: seq<Task>

    ghost function Snapshot(): State
      reads this, contributionStore, outbox
    {
      State(plans, lockSlots, slots, handles, futures, contributionStore.contents, outbox.allKeys, outbox.deposited, tasks)
    }

    constructor (plans: PlanStore)
      ensures Initial(Snapshot()) && this.plans == plans && outbox.Valid()
      ensures fresh(contributionStore) && fresh(outbox)
    {
      contributionStore := new InMemoryContributionStore();
      outbox := new OrderedPostbox();
      this.plans := plans;
      lockSlots, slots, handles, futures, tasks := map[], [], map[], [], [];
    }

    method MoveTo(t: nat, pc: Pc)
      requires t < |tasks|
      modifies this`tasks
      ensures tasks == old(tasks)[t := old(tasks)[t].(pc := pc)]
    {
      tasks := tasks[t := tasks[t].(pc := pc)];
    }

    method AcquireLockSlot(k: Key) returns (id: nat)
      requires k in lockSlots ==> lockSlots[k] < |slots|
      modifies this`lockSlots, this`slots
      ensures k in lockSlots && lockSlots[k] == id
      ensures lockSlots == if k in old(lockSlots) then old(lockSlots) else old(lockSlots)[k := |old(slots)|]
      ensures var all := if k in old(lockSlots) then old(slots) else old(slots) + [Slot(0, None)];
              id < |all| && slots == all[id := all[id].(users := all[id].users + 1)]
    {
      if k !in lockSlots {
        lockSlots := lockSlots[k := |slots|];
        slots := slots + [Slot(0, None)];
      }
      id := lockSlots[k];
      slots := slots[id := slots[id].(users := slots[id].users + 1)];
    }

    method ReleaseLockSlot(k: Key, id: nat)
      requires (k in handles ==> handles[k] < |futures|) && id < |slots| && slots[id].users > 0
      modifies this`lockSlots, this`slots, this`handles
      ensures slots == old(slots)[id := old(slots)[id].(users := old(slots)[id].users - 1)]
      ensures lockSlots == if slots[id].users == 0 then old(lockSlots) - {k} else old(lockSlots)
      ensures handles == if slots[id].users == 0 && k in old(handles) && !futures[old(handles)[k]].state.Pending?
                         then old(handles) - {k} else old(handles)
    {
      slots := slots[id := slots[id].(users := slots[id].users - 1)];
      if slots[id].users == 0 {
        lockSlots := lockSlots - {k};
        if k in handles && !futures[handles[k]].state.Pending? {
          handles := handles - {k};
        }
      }
    }

    method GetOrBuildHandle(k: Key) returns (h: nat)
      modifies this`futures
      ensures h == if k in handles then handles[k] else |old(futures)|
      ensures futures == if k in handles then old(futures) else old(futures) + [Future(k, Pending)]
    {
      if k in handles {
        return handles[k];
      }
      h := |futures|;
      futures := futures + [Future(k, Pending)];
    }

    method SettleFuture(h: nat, state: FutureState)
      requires h < |futures|
      modifies this`futures
      ensures Snapshot() == Settle(old(Snapshot()), h, state)
    {
      if futures[h].state.Pending? {
        futures := futures[h := futures[h].(state := state)];
      }
    }

    /** A new call of `submit`. */
    method Submit(c: Contribution)
      modifies this`tasks
      ensures Snapshot() == Submitted(old(Snapshot()), c)
    {
      tasks := tasks + [Task(c, Calling)];
    }

    /** The lock is free: take it, and look for the handle. */
    method EnterLock(t: nat)
      requires Shaped(Snapshot()) && t < |tasks| && tasks[t].pc.Waiting? && outbox.Valid()
      modifies this
      ensures outbox.Valid() && Snapshot() == Enter(old(Snapshot()), t)
    {
      assert TaskShaped(Snapshot(), tasks[t]);
      var k, id := TaskKey(tasks[t]), tasks[t].pc.slot;
      slots := slots[id := slots[id].(holder := Some(t))];
      var h := GetOrBuildHandle(k);
      if !futures[h].state.Pending? {
        MoveTo(t, Leaving(id, Returned(h)));
      } else {
        MoveTo(t, Fetching(id, h));
      }
    }

    method ValidateAndRegister(t: nat)
      requires Shaped(Snapshot()) && t < |tasks| && tasks[t].pc.Validating? && outbox.Valid()
      modifies this
      ensures outbox.Valid() && Snapshot() == Check(old(Snapshot()), t)
    {
      hide Validate;
      var task := tasks[t];
      assert TaskShaped(Snapshot(), task);
      var k, id, h := TaskKey(task), task.pc.slot, task.pc.handle;
      match Validate(plans, task.pc.old_, task.contribution)
      case NoPlan =>
        SettleFuture(h, Failed);
        MoveTo(t, Leaving(id, Returned(h)));
      case Invalid =>
        MoveTo(t, Leaving(id, InvalidSubmission));
      case Fine =>
        handles := if k in handles then handles else handles[k := h];
        MoveTo(t, Deciding(id, h, task.pc.old_));
    }

    method TestReadiness(t: nat)
      requires Shaped(Snapshot()) && t < |tasks| && tasks[t].pc.Deciding? && outbox.Valid()
      modifies this
      ensures outbox.Valid() && Snapshot() == Decide(old(Snapshot()), t)
    {
      hide Ready, HasRoutings;
      var task := tasks[t];
      assert TaskShaped(Snapshot(), task);
      var k, id, h := TaskKey(task), task.pc.slot, task.pc.handle;
      var candidate := task.pc.old_ + [task.contribution];
      if k.context.version !in plans {
        SettleFuture(h, Failed);
        MoveTo(t, Leaving(id, Returned(h)));
      } else if !HasRoutings(plans, k) {
        MoveTo(t, Leaving(id, RoutingLost));
      } else if Ready(plans, k, candidate) {
        MoveTo(t, Gathering(id, h, candidate));
      } else {
        MoveTo(t, Putting(id, h));
      }
    }

    method DepositCandidate(t: nat)
      requires Shaped(Snapshot()) && t < |tasks| && tasks[t].pc.Depositing? && outbox.Valid()
      modifies this, outbox
      ensures outbox.Valid() && Snapshot() == Deposit(old(Snapshot()), t)
    {
      var k, id, h := TaskKey(tasks[t]), tasks[t].pc.slot, tasks[t].pc.handle;
      var ok := outbox.Deposit(Collection(k, tasks[t].pc.candidate));
      if ok {
        MoveTo(t, Discarding(id, h));
      } else {
        MoveTo(t, Leaving(id, DuplicateSubmission));
      }
    }

    method LeaveLock(t: nat)
      requires Shaped(Snapshot()) && t < |tasks| && tasks[t].pc.Leaving? && outbox.Valid()
      modifies this
      ensures outbox.Valid() && Snapshot() == Leave(old(Snapshot()), t)
    {
      assert TaskShaped(Snapshot(), tasks[t]);
      var k, id, outcome := TaskKey(tasks[t]), tasks[t].pc.slot, tasks[t].pc.outcome;
      slots := slots[id := slots[id].(holder := None)];
      ReleaseLockSlot(k, id);
      MoveTo(t, Done(outcome));
    }

    /** Run submission t up to its next await. */
    method Resume(t: nat)
      requires Shaped(Snapshot()) && Enabled(Snapshot(), t) && outbox.Valid()
      modifies this, contributionStore, outbox
      ensures outbox.Valid() && Snapshot() == Next(old(Snapshot()), t)
    {
      hide Enter, Check, Decide, Deposit, Leave;
      var task := tasks[t];
      var k := TaskKey(task);
      assert TaskShaped(Snapshot(), task);
      match task.pc
      case Calling =>
        var id := AcquireLockSlot(k);
        MoveTo(t, Waiting(id));
      case Waiting(_) => EnterLock(t);
      case Fetching(id, h) =>
        var stored := contributionStore.GetAll(k);
        MoveTo(t, Validating(id, h, stored));
      case Validating(_, _, _) => ValidateAndRegister(t);
      case Deciding(_, _, _) => TestReadiness(t);
      case Gathering(id, h, candidate) => MoveTo(t, Depositing(id, h, candidate));
      case Depositing(_, _, _) => DepositCandidate(t);
      case Discarding(id, h) =>
        contributionStore.Discard(k);
        MoveTo(t, Resolving(id, h));
      case Resolving(id, h) =>
        SettleFuture(h, Resolved);
        MoveTo(t, Leaving(id, Returned(h)));
      case Putting(id, h) =>
        contributionStore.Put(k, task.contribution);
        MoveTo(t, Leaving(id, Returned(h)));
      case Leaving(_, _) => LeaveLock(t);
    }
  }
}
