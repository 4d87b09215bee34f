/** Resource grants on a worker: local_activity_manager.py and the grant objects of activity_request.py. */
module ActivityGrants {
  import opened Sums
  import opened ModelTopology

  datatype ResourceType = Compute | Network

  datatype Requirement = Requirement(quantity: real, exclusive: bool)

  type Allocation = map<ResourceType, real>

  type Request = map<ResourceType, Requirement>

  /** The checks of ResourceRequirement. */
  predicate ValidRequirement(q: Requirement)
  {
    if q.exclusive then q.quantity == 0.0 else q.quantity > 0.0
  }

  predicate ValidRequest(request: Request)
  {
    forall r :: r in request ==> ValidRequirement(request[r])
  }

  /** The amounts of a request: all of a resource that is asked for exclusively, and else the quantity asked for. */
  ghost predicate Covers(capacity: Allocation, request: Request, needed: Allocation)
  {
    && needed.Keys == request.Keys
    && forall r :: r in request && r in capacity ==>
         needed[r] == if request[r].exclusive then capacity[r] else request[r].quantity
  }

  /** An exclusive requirement takes the whole capacity. */
  function Needed(capacity: Allocation, r: ResourceType, q: Requirement): real
    requires r in capacity
  {
    if q.exclusive then capacity[r] else q.quantity
  }

  predicate Admissible(capacity: Allocation, request: Request)
  {
    forall r :: r in request ==> r in capacity && Needed(capacity, r, request[r]) <= capacity[r]
  }

  function AllocationFor(capacity: Allocation, request: Request): Allocation
    requires Admissible(capacity, request)
  {
    map r | r in request :: Needed(capacity, r, request[r])
  }

  /** The condition that a request waits for. */
  predicate Free(available: Allocation, needed: Allocation)
  {
    forall r :: r in needed ==> r in available && available[r] >= needed[r]
  }

  function Taken(available: Allocation, needed: Allocation): (rest: Allocation)
    ensures rest.Keys == available.Keys
  {
    map r | r in available :: if r in needed then available[r] - needed[r] else available[r]
  }

  function Returned(available: Allocation, needed: Allocation): (rest: Allocation)
    ensures rest.Keys == available.Keys
  {
    map r | r in available :: if r in needed then available[r] + needed[r] else available[r]
  }

  // ----- what is held

  function HeldBy(grants: map<nat, Allocation>, r: ResourceType): nat -> real
  {
    id => if id in grants && r in grants[id] then grants[id][r] else 0.0
  }

  /** The amount of a resource that all grants hold together. */
  function Held(grants: map<nat, Allocation>, ids: seq<nat>, r: ResourceType): real
  {
    SumOver(ids, HeldBy(grants, r))
  }

  /** `ids` lists the grants; what is available and what they hold add up to the capacity. */
  ghost predicate Balanced(capacity: Allocation, available: Allocation, grants: map<nat, Allocation>, ids: seq<nat>)
  {
    && Distinct(ids) && Lists(ids, grants)
    && available.Keys == capacity.Keys
    && Sound(capacity, grants)
    && (forall r :: r in capacity ==> ResourceBalanced(capacity, available, grants, ids, r))
  }

  ghost predicate Lists(ids: seq<nat>, grants: map<nat, Allocation>)
  {
    forall id :: id in ids <==> id in grants
  }

  /** Every grant holds known resources, and something of each that has any capacity. */
  ghost predicate Sound(capacity: Allocation, grants: map<nat, Allocation>)
  {
    forall id, r :: id in grants && r in grants[id] ==> r in capacity && Amount(capacity, r, grants[id][r])
  }

  predicate Amount(capacity: Allocation, r: ResourceType, x: real)
    requires r in capacity
  {
    x >= 0.0 && (capacity[r] > 0.0 ==> x > 0.0)
  }

  /** What a valid request comes to: something of each resource that has any capacity. */
  ghost predicate Proper(capacity: Allocation, needed: Allocation)
  {
    forall r :: r in needed ==> r in capacity && Amount(capacity, r, needed[r])
  }

  lemma RequestIsProper(capacity: Allocation, request: Request)
    requires ValidRequest(request) && Admissible(capacity, request) && forall r :: r in capacity ==> capacity[r] >= 0.0
    ensures Proper(capacity, AllocationFor(capacity, request))
  {
    forall r | r in request ensures Amount(capacity, r, Needed(capacity, r, request[r])) {
      assert ValidRequirement(request[r]);
    }
  }

  ghost predicate ResourceBalanced(
    capacity: Allocation, available: Allocation, grants: map<nat, Allocation>, ids: seq<nat>, r: ResourceType)
    requires r in capacity && r in available
  {
    available[r] >= 0.0 && available[r] + Held(grants, ids, r) == capacity[r]
  }

  lemma GrantKeepsBalance(capacity: Allocation, available: Allocation, grants: map<nat, Allocation>, ids: seq<nat>,
                          needed: Allocation, id: nat)
    requires Balanced(capacity, available, grants, ids) && id !in grants && Free(available, needed)
    requires Proper(capacity, needed)
    ensures Balanced(capacity, Taken(available, needed), grants[id := needed], ids + [id])
  {
    var grants', ids' := grants[id := needed], ids + [id];
    forall r | r in capacity
      ensures Held(grants', ids', r) == Held(grants, ids, r) + if r in needed then needed[r] else 0.0
    {
      assert ids'[..|ids|] == ids;
      SumCongruent(ids, HeldBy(grants, r), HeldBy(grants', r));
    }
    forall r | r in capacity ensures ResourceBalanced(capacity, Taken(available, needed), grants', ids', r) {
      assert ResourceBalanced(capacity, available, grants, ids, r);
    }
  }

  /** The list without one id. */
  function Without(ids: seq<nat>, id: nat): (r: seq<nat>)
    ensures Distinct(ids) ==> Distinct(r) && forall i :: i in r <==> i in ids && i != id
  {
    if ids == [] then [] else if ids[0] == id then Without(ids[1..], id)
    else
      assert forall i :: i in ids <==> i == ids[0] || i in ids[1..];
      var rest := Without(ids[1..], id);
      assert forall j :: 0 <= j < |rest| ==> rest[j] in rest;
      [ids[0]] + rest
  }

  lemma {:induction false} SumWithout(ids: seq<nat>, id: nat, f: nat -> real)
    requires Distinct(ids) && id in ids
    ensures SumOver(Without(ids, id), f) == SumOver(ids, f) - f(id)
  {
    SumFront(ids, f);
    if ids[0] == id {
      WithoutAbsent(ids[1..], id);
    } else {
      SumWithout(ids[1..], id, f);
      var rest := Without(ids[1..], id);
      SumFront([ids[0]] + rest, f);
      assert ([ids[0]] + rest)[1..] == rest;
    }
  }

  lemma {:induction false} WithoutAbsent(ids: seq<nat>, id: nat)
    requires id !in ids
    ensures Without(ids, id) == ids
  {
    if ids != [] {
      assert ids[0] in ids;
      WithoutAbsent(ids[1..], id);
    }
  }

  lemma {:induction false} HeldAfterRelease(grants: map<nat, Allocation>, ids: seq<nat>, id: nat, r: ResourceType)
    requires Distinct(ids) && id in ids && id in grants
    ensures Held(grants - {id}, Without(ids, id), r)
         == Held(grants, ids, r) - if r in grants[id] then grants[id][r] else 0.0
  {
    hide Without;
    SumCongruent(Without(ids, id), HeldBy(grants, r), HeldBy(grants - {id}, r));
    SumWithout(ids, id, HeldBy(grants, r));
  }

  lemma {:induction false} ReleaseKeepsBalance(capacity: Allocation, available: Allocation,
                                               grants: map<nat, Allocation>, ids: seq<nat>, id: nat)
    requires Balanced(capacity, available, grants, ids) && id in grants
    ensures Balanced(capacity, Returned(available, grants[id]), grants - {id}, Without(ids, id))
  {
    hide Without, ResourceBalanced, Returned, Lists, Sound;
    EntryReleased(capacity, grants, ids, id);
    forall r | r in capacity
      ensures ResourceBalanced(capacity, Returned(available, grants[id]), grants - {id}, Without(ids, id), r)
    {
      ResourceReleased(capacity, available, grants, ids, id, r);
    }
  }

  lemma {:induction false} EntryReleased(capacity: Allocation, grants: map<nat, Allocation>, ids: seq<nat>, id: nat)
    requires Distinct(ids) && Lists(ids, grants) && Sound(capacity, grants) && id in grants
    ensures id in ids && Distinct(Without(ids, id))
    ensures Lists(Without(ids, id), grants - {id}) && Sound(capacity, grants - {id})
  {
    hide Without, Distinct, Sound;
    SoundWithout(capacity, grants, id);
  }

  lemma SoundWithout(capacity: Allocation, grants: map<nat, Allocation>, id: nat)
    requires Sound(capacity, grants)
    ensures Sound(capacity, grants - {id})
  {
  }

  lemma {:induction false} ResourceReleased(capacity: Allocation, available: Allocation,
                                            grants: map<nat, Allocation>, ids: seq<nat>, id: nat,
                         r: ResourceType)
    requires Distinct(ids) && id in ids && id in grants && r in capacity && r in available && Sound(capacity, grants)
    requires ResourceBalanced(capacity, available, grants, ids, r)
    ensures ResourceBalanced(capacity, Returned(available, grants[id]), grants - {id}, Without(ids, id), r)
  {
    hide Without, Held;
    HeldAfterRelease(grants, ids, id, r);
  }

  /** The loops that take amounts away from what is available, and give them back. */
  method Subtract(available: Allocation, needed: Allocation) returns (rest: Allocation)
    requires needed.Keys <= available.Keys
    ensures rest == Taken(available, needed)
  {
    var open := needed.Keys;
    rest := available;
    while open != {}
      invariant open <= needed.Keys && rest.Keys == available.Keys
      invariant forall r :: r in rest ==>
                  rest[r] == if r in needed && r !in open then available[r] - needed[r] else available[r]
      decreases open
    {
      var r :| r in open;
      rest := rest[r := rest[r] - needed[r]];
      open := open - {r};
    }
    assert rest == Taken(available, needed);
  }

  method Add(available: Allocation, returned: Allocation) returns (rest: Allocation)
    requires returned.Keys <= available.Keys
    ensures rest == Returned(available, returned)
  {
    var open := returned.Keys;
    rest := available;
    while open != {}
      invariant open <= returned.Keys && rest.Keys == available.Keys
      invariant forall r :: r in rest ==>
                  rest[r] == if r in returned && r !in open then available[r] + returned[r] else available[r]
      decreases open
    {
      var r :| r in open;
      rest := rest[r := rest[r] + returned[r]];
      open := open - {r};
    }
    assert rest == Returned(available, returned);
  }

  // ----- consequences of the balance

  /** While a request holds a resource of positive capacity exclusively, no other grant contains the resource. */
  lemma ExclusiveHoldsAlone(capacity: Allocation, available: Allocation, grants: map<nat, Allocation>, ids: seq<nat>,
                            request: Request, id: nat, other: nat, r: ResourceType)
    requires Balanced(capacity, available, grants, ids) && Admissible(capacity, request)
    requires id in grants && grants[id] == AllocationFor(capacity, request)
    requires r in request && request[r].exclusive && capacity[r] > 0.0
    requires other in grants && other != id
    ensures r !in grants[other]
  {
    var f := HeldBy(grants, r);
    forall i | i in ids ensures f(i) >= 0.0 { }
    SumWithout(ids, id, f);
    TermAtMostSum(Without(ids, id), f, other);
  }

  /** And every valid request that names the resource has to wait. */
  lemma ExclusiveKeepsOut(capacity: Allocation, available: Allocation, grants: map<nat, Allocation>, ids: seq<nat>,
                          request: Request, id: nat, next: Request, r: ResourceType)
    requires Balanced(capacity, available, grants, ids) && Admissible(capacity, request)
    requires id in grants && grants[id] == AllocationFor(capacity, request)
    requires r in request && request[r].exclusive && capacity[r] > 0.0
    requires ValidRequest(next) && Admissible(capacity, next) && r in next
    ensures !Free(available, AllocationFor(capacity, next))
  {
    forall i | i in ids ensures HeldBy(grants, r)(i) >= 0.0 { }
    TermAtMostSum(ids, HeldBy(grants, r), id);
    assert ResourceBalanced(capacity, available, grants, ids, r);
    assert ValidRequirement(next[r]);
    assert r in AllocationFor(capacity, next);
  }

  /** What a requirement amounts to on a resource of the given capacity. */
  function AmountOf(capacity: real, q: Requirement): real
  {
    if q.exclusive then capacity else q.quantity
  }

  /** A request can go exactly when all it asks for fits beside everything that is held. */
  lemma FreeExactly(capacity: Allocation, available: Allocation, grants: map<nat, Allocation>, ids: seq<nat>,
                    request: Request)
    requires Balanced(capacity, available, grants, ids) && Admissible(capacity, request)
    ensures Free(available, AllocationFor(capacity, request)) <==>
            forall r :: r in request ==> Held(grants, ids, r) + AmountOf(capacity[r], request[r]) <= capacity[r]
  {
    var needed := AllocationFor(capacity, request);
    forall r | r in request
      ensures available[r] >= needed[r] <==> Held(grants, ids, r) + AmountOf(capacity[r], request[r]) <= capacity[r]
    {
      assert ResourceBalanced(capacity, available, grants, ids, r);
    }
    if Free(available, needed) {
      forall r | r in request ensures Held(grants, ids, r) + AmountOf(capacity[r], request[r]) <= capacity[r] {
        assert r in needed;
      }
    }
  }

  /** Requests are granted as a whole: when nothing is held, every admissible request is free to go. */
  lemma IdleGrantsAnyRequest(capacity: Allocation, available: Allocation, grants: map<nat, Allocation>, ids: seq<nat>,
                             request: Request)
    requires Balanced(capacity, available, grants, ids) && grants == map[] && Admissible(capacity, request)
    ensures Free(available, AllocationFor(capacity, request))
  {
    assert forall i :: 0 <= i < |ids| ==> ids[i] in grants;
    forall r | r in capacity ensures available[r] == capacity[r] {
      assert Held(grants, ids, r) == 0.0;
    }
  }

  /** No grant, and no sum of grants, exceeds the capacity. */
  lemma GrantsWithinCapacity(capacity: Allocation, available: Allocation, grants: map<nat, Allocation>, ids: seq<nat>,
                             id: nat, r: ResourceType)
    requires Balanced(capacity, available, grants, ids) && r in capacity && id in grants && r in grants[id]
    ensures grants[id][r] <= Held(grants, ids, r) <= capacity[r]
  {
    forall i | i in ids ensures HeldBy(grants, r)(i) >= 0.0 { }
    TermAtMostSum(ids, HeldBy(grants, r), id);
  }

  lemma CapacityNonNegative(capacity: Allocation, available: Allocation, grants: map<nat, Allocation>, ids: seq<nat>)
    requires Balanced(capacity, available, grants, ids)
    ensures forall r :: r in capacity ==> capacity[r] >= 0.0
  {
    forall r | r in capacity ensures capacity[r] >= 0.0 {
      forall i | i in ids ensures HeldBy(grants, r)(i) >= 0.0 { }
      SumNonNegative(ids, HeldBy(grants, r));
    }
  }

  // ----- the manager

  class LocalActivityManager {
    const capacity: Allocation
    var available: Allocation
    var grants: map<nat, Allocation>
    var nextId: nat
    ghost var ids: seq<nat>

    ghost predicate Valid()
      reads this
    {
      Balanced(capacity, available, grants, ids) && forall id :: id in grants ==> id < nextId
    }

    constructor (resources: Allocation)
      requires forall r :: r in resources ==> resources[r] >= 0.0
      ensures Valid() && capacity == resources && available == resources && grants == map[]
    {
      capacity, available, grants, nextId, ids := resources, resources, map[], 0, [];
    }

    /** The checks before waiting: unknown resources and amounts beyond the capacity are errors. */
    method RequiredAllocations(request: Request) returns (result: Result<Allocation>)
      ensures result.Ok? <==> Admissible(capacity, request)
      ensures result.Ok? <==>
              forall r :: r in request ==> r in capacity && (request[r].exclusive || request[r].quantity <= capacity[r])
      ensures result.Ok? ==> result.value == AllocationFor(capacity, request) && Covers(capacity, request, result.value)
    {
      var needed: Allocation := map[];
      var open := request.Keys;
      while open != {}
        invariant open <= request.Keys && needed.Keys == request.Keys - open
        invariant forall r :: r in needed ==>
                    r in capacity && needed[r] == Needed(capacity, r, request[r]) && needed[r] <= capacity[r]
        decreases open
      {
        var r :| r in open;
        if r !in capacity {
          return Err("Invalid resource type");
        }
        var amount := Needed(capacity, r, request[r]);
        if amount > capacity[r] {
          return Err("Requested quantity exceeds total capacity");
        }
        needed := needed[r := amount];
        open := open - {r};
      }
      result := Ok(needed);
    }

    /** The part of an acquisition that runs once the condition holds: all resources at once, or not at all. */
    method Grant(needed: Allocation) returns (id: nat)
      requires Valid() && Free(available, needed) && Proper(capacity, needed)
      modifies this
      ensures Valid() && id !in old(grants) && id == old(nextId) && nextId == id + 1
      ensures grants == old(grants)[id := needed] && available == Taken(old(available), needed)
    {
      hide Balanced, Taken;
      id := nextId;
      GrantKeepsBalance(capacity, available, grants, ids, needed, id);
      var rest := Subtract(available, needed);
      available := rest;
      grants := grants[id := needed];
      nextId, ids := nextId + 1, ids + [id];
    }

    /** Acquisition as far as it goes without waiting; None stands for a request that has to wait. */
    method TryAcquire(request: Request) returns (result: Result<seq<nat>>)
      requires Valid() && ValidRequest(request)
      modifies this
      ensures Valid() && (result.Ok? <==> Admissible(capacity, request))
      ensures result.Ok? ==> |result.value| <= 1
                             && (result.value != [] <==> Free(old(available), AllocationFor(capacity, request)))
      ensures result.Ok? && result.value != [] ==>
                grants == old(grants)[result.value[0] := AllocationFor(capacity, request)]
                && Covers(capacity, request, grants[result.value[0]])
      ensures result.Err? || result.value == [] ==> grants == old(grants) && available == old(available)
    {
      var needed := RequiredAllocations(request);
      if needed.Err? {
        return Err(needed.message);
      }
      if !Free(available, needed.value) {
        return Ok([]);
      }
      RequestProper(request);
      var id := Grant(needed.value);
      result := Ok([id]);
    }

    lemma RequestProper(request: Request)
      requires Valid() && ValidRequest(request) && Admissible(capacity, request)
      ensures Proper(capacity, AllocationFor(capacity, request))
    {
      CapacityNonNegative(capacity, available, grants, ids);
      RequestIsProper(capacity, request);
    }

    /** False stands for the error on an unknown grant; nothing changes then, so a release counts once. */
    method Release(id: nat) returns (ok: bool)
      requires Valid()
      modifies this
      ensures Valid() && ok == (id in old(grants)) && id !in grants
      ensures ok ==> grants == old(grants) - {id} && available == Returned(old(available), old(grants)[id])
      ensures !ok ==> grants == old(grants) && available == old(available)
    {
      hide Balanced, Returned, Without;
      if id !in grants {
        return false;
      }
      ReleaseKeepsBalance(capacity, available, grants, ids, id);
      KnownResources(capacity, available, grants, ids, id);
      var rest := Add(available, grants[id]);
      available := rest;
      grants := grants - {id};
      ids := Without(ids, id);
      ok := true;
    }
  }

  lemma KnownResources(capacity: Allocation, available: Allocation, grants: map<nat, Allocation>, ids: seq<nat>,
                       id: nat)
    requires Balanced(capacity, available, grants, ids) && id in grants
    ensures grants[id].Keys <= available.Keys
  {
  }

  /** The object that a holder releases, at most once with effect. */
  class ActivityGrant {
    const manager: LocalActivityManager
    const id: nat
    var released: bool

    constructor (manager: LocalActivityManager, id: nat)
      ensures this.manager == manager && this.id == id && !released
    {
      this.manager, this.id, released := manager, id, false;
    }

    /** A failing callback leaves the grant unreleased. */
    method Release() returns (ok: bool)
      requires manager.Valid()
      modifies this, manager
      ensures manager.Valid()
      ensures old(released) ==> ok && released && manager.grants == old(manager.grants) && manager.available == old(manager.available)
      ensures !old(released) ==> ok == released == (id in old(manager.grants)) && id !in manager.grants
    {
      if released {
        return true;
      }
      released := true;
      ok := manager.Release(id);
      if !ok {
        released := false;
      }
    }
  }
}
