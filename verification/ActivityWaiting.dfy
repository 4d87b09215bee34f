/** Acquisitions that wait for resources: the condition variable of local_activity_manager.py. */
module ActivityWaiting {
  import opened Sums
  import opened ActivityGrants

  /** An acquisition in progress: about to look at what is available, or asleep until it is notified. */
  datatype Waiter = Waiter(request: Request, asleep: bool)

  /** `requests` remembers what each grant was given for. */
  datatype State = State(
    available: Allocation, grants: map<nat, Allocation>, requests: map<nat, Request>, waiters: map<nat, Waiter>,
    ids: seq<nat>)

  ghost predicate Arrives(capacity: Allocation, s: State, s': State, w: nat, request: Request)
  {
    && w !in s.waiters && w !in s.grants && ValidRequest(request) && Admissible(capacity, request)
    && s' == s.(waiters := s.waiters[w := Waiter(request, false)])
  }

  /** With the lock held: take everything at once, or go to sleep. */
  ghost predicate Looks(capacity: Allocation, s: State, s': State, w: nat)
  {
    && w in s.waiters && !s.waiters[w].asleep && Admissible(capacity, s.waiters[w].request)
    && var request, needed := s.waiters[w].request, AllocationFor(capacity, s.waiters[w].request);
       s' == if Free(s.available, needed)
             then State(Taken(s.available, needed), s.grants[w := needed], s.requests[w := request], s.waiters - {w},
                        s.ids + [w])
             else s.(waiters := s.waiters[w := Waiter(request, true)])
  }

  function Woken(waiters: map<nat, Waiter>): map<nat, Waiter>
  {
    map w | w in waiters :: Waiter(waiters[w].request, false)
  }

  /** A release gives back what the grant holds and notifies everybody. */
  ghost predicate Releases(s: State, s': State, id: nat)
  {
    && id in s.grants
    && s' == State(Returned(s.available, s.grants[id]), s.grants - {id}, s.requests - {id}, Woken(s.waiters),
                   Without(s.ids, id))
  }

  ghost predicate Step(capacity: Allocation, s: State, s': State)
  {
    || (exists w: nat, request :: Arrives(capacity, s, s', w, request))
    || (exists w: nat :: Looks(capacity, s, s', w))
    || (exists id: nat :: Releases(s, s', id))
  }

  ghost predicate Inv(capacity: Allocation, s: State)
  {
    && Balanced(capacity, s.available, s.grants, s.ids)
    && s.requests.Keys == s.grants.Keys
    && (forall id :: id in s.grants ==> GrantOk(capacity, s, id))
    && forall w :: w in s.waiters ==> WaiterOk(capacity, s, w)
  }

  /** A grant is exactly what its request comes to. */
  ghost predicate GrantOk(capacity: Allocation, s: State, id: nat)
  {
    && id in s.grants && id in s.requests && ValidRequest(s.requests[id]) && Admissible(capacity, s.requests[id])
    && s.grants[id] == AllocationFor(capacity, s.requests[id])
  }

  /** A sleeper could not go now. */
  ghost predicate WaiterOk(capacity: Allocation, s: State, w: nat)
    requires w in s.waiters
  {
    var waiter := s.waiters[w];
    && w !in s.grants && ValidRequest(waiter.request) && Admissible(capacity, waiter.request)
    && (waiter.asleep ==> !Free(s.available, AllocationFor(capacity, waiter.request)))
  }

  /** Taking something away frees nobody. */
  lemma TakenFreesNobody(capacity: Allocation, available: Allocation, taken: Allocation, needed: Allocation)
    requires Proper(capacity, taken) && !Free(available, needed)
    ensures !Free(Taken(available, taken), needed)
  {
    var r :| r in needed && !(r in available && available[r] >= needed[r]);
    if r in available {
      assert Taken(available, taken)[r] <= available[r];
    }
  }

  lemma ArrivalKeeps(capacity: Allocation, s: State, s': State, w: nat, request: Request)
    requires Inv(capacity, s) && Arrives(capacity, s, s', w, request)
    ensures Inv(capacity, s')
  {
    hide Balanced, Free, AllocationFor, Admissible, ValidRequest;
    forall id | id in s'.grants ensures GrantOk(capacity, s', id) { assert GrantOk(capacity, s, id); }
    forall v | v in s'.waiters ensures WaiterOk(capacity, s', v) {
      assert v != w ==> WaiterOk(capacity, s, v);
    }
  }

  lemma LookKeeps(capacity: Allocation, s: State, s': State, w: nat)
    requires Inv(capacity, s) && Looks(capacity, s, s', w)
    ensures Inv(capacity, s')
  {
    hide Balanced, Free, AllocationFor, Admissible, ValidRequest, Taken, Proper;
    assert WaiterOk(capacity, s, w);
    var request := s.waiters[w].request;
    var needed := AllocationFor(capacity, request);
    CapacityNonNegative(capacity, s.available, s.grants, s.ids);
    RequestIsProper(capacity, request);
    if Free(s.available, needed) {
      GrantKeepsBalance(capacity, s.available, s.grants, s.ids, needed, w);
    }
    forall id | id in s'.grants ensures GrantOk(capacity, s', id) {
      assert id != w ==> GrantOk(capacity, s, id);
    }
    forall v | v in s'.waiters ensures WaiterOk(capacity, s', v) {
      assert WaiterOk(capacity, s, v);
      if s.waiters[v].asleep && Free(s.available, needed) {
        TakenFreesNobody(capacity, s.available, needed, AllocationFor(capacity, s.waiters[v].request));
      }
    }
  }

  lemma ReleaseKeeps(capacity: Allocation, s: State, s': State, id: nat)
    requires Inv(capacity, s) && Releases(s, s', id)
    ensures Inv(capacity, s')
  {
    hide Balanced, Free, AllocationFor, Admissible, ValidRequest, Returned, Without;
    ReleaseKeepsBalance(capacity, s.available, s.grants, s.ids, id);
    forall i | i in s'.grants ensures GrantOk(capacity, s', i) { assert GrantOk(capacity, s, i); }
    forall v | v in s'.waiters ensures WaiterOk(capacity, s', v) {
      assert WaiterOk(capacity, s, v);
    }
  }

  lemma StepKeeps(capacity: Allocation, s: State, s': State)
    requires Inv(capacity, s) && Step(capacity, s, s')
    ensures Inv(capacity, s')
  {
    hide Inv, Arrives, Looks, Releases;
    if w: nat, request :| Arrives(capacity, s, s', w, request) {
      ArrivalKeeps(capacity, s, s', w, request);
    } else if w: nat :| Looks(capacity, s, s', w) {
      LookKeeps(capacity, s, s', w);
    } else {
      var id: nat :| Releases(s, s', id);
      ReleaseKeeps(capacity, s, s', id);
    }
  }

  ghost predicate IsRun(capacity: Allocation, run: seq<State>)
  {
    && run != [] && run[0] == State(capacity, map[], map[], map[], [])
    && (forall r :: r in capacity ==> capacity[r] >= 0.0)
    && forall i :: 0 < i < |run| ==> Step(capacity, run[i - 1], run[i])
  }

  ghost predicate Reached(capacity: Allocation, run: seq<State>, s: State)
  {
    IsRun(capacity, run) && run[|run| - 1] == s
  }

  lemma {:induction false} RunKeeps(capacity: Allocation, run: seq<State>)
    requires IsRun(capacity, run)
    ensures Inv(capacity, run[|run| - 1])
  {
    hide Inv, Step;
    if |run| == 1 {
      StartOk(capacity);
    } else {
      var init := run[..|run| - 1];
      assert forall i :: 0 <= i < |init| ==> init[i] == run[i];
      RunKeeps(capacity, init);
      assert Step(capacity, run[|run| - 2], run[|run| - 1]);
      StepKeeps(capacity, run[|run| - 2], run[|run| - 1]);
    }
  }

  lemma StartOk(capacity: Allocation)
    requires forall r :: r in capacity ==> capacity[r] >= 0.0
    ensures Inv(capacity, State(capacity, map[], map[], map[], []))
  {
  }

  /** Every grant holds exactly what its request asked for: the whole capacity, or the quantity. */
  lemma GrantsAreRequests(capacity: Allocation, run: seq<State>, s: State, id: nat)
    requires Reached(capacity, run, s) && id in s.grants
    ensures id in s.requests && s.grants[id].Keys == s.requests[id].Keys <= capacity.Keys
    ensures forall r :: r in s.requests[id] ==>
              s.grants[id][r] == if s.requests[id][r].exclusive then capacity[r] else s.requests[id][r].quantity
  {
    hide IsRun, Balanced;
    RunKeeps(capacity, run);
    assert GrantOk(capacity, s, id);
  }

  /** Exclusive use is exclusive: no other grant contains the resource, and nobody who asks for it is let in. */
  lemma ExclusiveIsAlone(capacity: Allocation, run: seq<State>, s: State, id: nat, r: ResourceType)
    requires Reached(capacity, run, s) && id in s.requests && r in s.requests[id] && s.requests[id][r].exclusive
    requires r in capacity && capacity[r] > 0.0
    ensures forall other :: other in s.grants && other != id ==> r !in s.grants[other]
    ensures forall w, s' :: w in s.waiters && r in s.waiters[w].request && Looks(capacity, s, s', w) ==>
              w !in s'.grants && s'.grants == s.grants
  {
    hide IsRun, Balanced, Free, AllocationFor, Admissible, ValidRequest, Taken;
    RunKeeps(capacity, run);
    assert GrantOk(capacity, s, id);
    forall other | other in s.grants && other != id ensures r !in s.grants[other] {
      ExclusiveHoldsAlone(capacity, s.available, s.grants, s.ids, s.requests[id], id, other, r);
    }
    forall w, s' | w in s.waiters && r in s.waiters[w].request && Looks(capacity, s, s', w)
      ensures w !in s'.grants && s'.grants == s.grants
    {
      assert WaiterOk(capacity, s, w);
      ExclusiveKeepsOut(capacity, s.available, s.grants, s.ids, s.requests[id], id, s.waiters[w].request, r);
    }
  }

  /** What the granted request takes of a resource. */
  function TakenBy(capacity: Allocation, s: State, r: ResourceType): nat -> real
  {
    id => if id in s.requests && r in s.requests[id] && r in capacity then AmountOf(capacity[r], s.requests[id][r]) else 0.0
  }

  /** An acquisition that looks is granted exactly when its request fits beside all that were granted. */
  lemma GrantedExactlyWhenItFits(capacity: Allocation, run: seq<State>, s: State, s': State, w: nat)
    requires Reached(capacity, run, s) && Looks(capacity, s, s', w)
    ensures w in s'.grants <==>
            forall r :: r in s.waiters[w].request ==>
              SumOver(s.ids, TakenBy(capacity, s, r)) + AmountOf(capacity[r], s.waiters[w].request[r]) <= capacity[r]
    ensures Distinct(s.ids) && forall id :: id in s.ids <==> id in s.requests
  {
    hide IsRun, Free, AllocationFor, ValidRequest, Taken;
    RunKeeps(capacity, run);
    var request := s.waiters[w].request;
    assert WaiterOk(capacity, s, w);
    FreeExactly(capacity, s.available, s.grants, s.ids, request);
    forall r | r in request ensures SumOver(s.ids, TakenBy(capacity, s, r)) == Held(s.grants, s.ids, r) {
      forall id | id in s.ids ensures TakenBy(capacity, s, r)(id) == HeldBy(s.grants, r)(id) {
        GrantAmount(capacity, s, id, r);
      }
      SumCongruent(s.ids, TakenBy(capacity, s, r), HeldBy(s.grants, r));
    }
  }

  lemma GrantAmount(capacity: Allocation, s: State, id: nat, r: ResourceType)
    requires GrantOk(capacity, s, id)
    ensures TakenBy(capacity, s, r)(id) == HeldBy(s.grants, r)(id)
  {
  }

  /** No wake-up is lost: whoever sleeps could not be granted its request now. */
  lemma NoLostWakeUp(capacity: Allocation, run: seq<State>, s: State, w: nat)
    requires Reached(capacity, run, s) && w in s.waiters && s.waiters[w].asleep
    ensures Admissible(capacity, s.waiters[w].request)
    ensures !Free(s.available, AllocationFor(capacity, s.waiters[w].request))
  {
    hide IsRun, Balanced;
    RunKeeps(capacity, run);
    assert WaiterOk(capacity, s, w);
  }

  /** Requests are granted as a whole, so nobody holds and waits: when nothing is held, nobody sleeps. */
  lemma IdleHasNoSleeper(capacity: Allocation, run: seq<State>, s: State, w: nat)
    requires Reached(capacity, run, s) && w in s.waiters && s.grants == map[]
    ensures !s.waiters[w].asleep && Admissible(capacity, s.waiters[w].request)
    ensures Free(s.available, AllocationFor(capacity, s.waiters[w].request))
  {
    hide IsRun, AllocationFor, Free;
    RunKeeps(capacity, run);
    assert WaiterOk(capacity, s, w);
    IdleGrantsAnyRequest(capacity, s.available, s.grants, s.ids, s.waiters[w].request);
  }
}
