/** The lock server as it is written: two maps that share the status objects they point to, updated
    in place.  Every method is proved to do to the shared objects what module RWLock says. */
module RWCoordinator {
  import opened Wrappers
  import opened RWLock

  class LockStatus {
    var readLockOwners: set<Ref>
    var writeLockOwner: Option<Ref>
    var readLocksWaiting: set<Ref>
    var writeLocksWaiting: set<Ref>

    constructor ()
      ensures Value() == EMPTY
    {
      readLockOwners, writeLockOwner, readLocksWaiting, writeLocksWaiting := {}, None, {}, {};
    }

    ghost function Value(): Status
      reads this
    {
      Status(readLockOwners, writeLockOwner, readLocksWaiting, writeLocksWaiting)
    }
  }

  lemma {:induction false} ModelUpdated(m: map<string, Status>, m': map<string, Status>, name: string, st: Status)
    requires name in m && m'.Keys == m.Keys && m'[name] == st
    requires forall q :: q in m && q != name ==> m'[q] == m[q]
    ensures m' == m[name := st]
  {
  }

  /** Looking up, enqueueing and serving compose to one request. */
  lemma {:induction false} RequestInThreeSteps(c0: Coord, c1: Coord, c2: Coord, c3: Coord, r: string, readLock: bool, pick: Option<Ref>)
    requires c1 == c0.(resources := c0.resources[r := StatusOf(c0, r)])
    requires var st := Enqueued(c1.resources[r], c1.next, readLock);
             && c2 == Coord(c1.resources[r := st], c1.place[c1.next := r], c1.next + 1, c1.sent)
             && c3 == Coord(c2.resources[r := Drained(st, pick)], c2.place, c2.next, c2.sent + DrainGrants(st, pick))
    ensures Pending(c0, Request(r, readLock)) == Enqueued(c1.resources[r], c1.next, readLock)
    ensures c3 == Apply(c0, Request(r, readLock), pick)
  {
    assert c3.resources == Apply(c0, Request(r, readLock), pick).resources;
  }

  /** Removing and serving compose to one release. */
  lemma {:induction false} ReleaseInTwoSteps(c0: Coord, c1: Coord, c2: Coord, ref: Ref, pick: Option<Ref>)
    requires ref in c0.place && c0.place[ref] in c0.resources
    requires var r := c0.place[ref];
             var st := Removed(c0.resources[r], ref);
             && c1 == Coord(c0.resources[r := st], c0.place - {ref}, c0.next, c0.sent)
             && c2 == Coord(c1.resources[r := Drained(st, pick)], c1.place, c1.next, c1.sent + DrainGrants(st, pick))
    ensures Pending(c0, Release(ref)) == Removed(c0.resources[c0.place[ref]], ref)
    ensures c2 == Apply(c0, Release(ref), pick)
  {
    assert c2.resources == Apply(c0, Release(ref), pick).resources;
  }

  class Coordinator {
    const guard: Guard
    var resourceToLockStatus: map<string, LockStatus>
    var actorToLockStatus: map<Ref, LockStatus>
    var numResourceRequests: nat
    var sent: set<Grant>
    ghost var place: map<Ref, string>

    /** The two maps alias: an actor's entry is the very object its resource's entry is, and
        different resources have different objects. */
    ghost predicate Valid()
      reads this
    {
      && place.Keys == actorToLockStatus.Keys
      && (forall ref :: ref in place ==>
            place[ref] in resourceToLockStatus && actorToLockStatus[ref] == resourceToLockStatus[place[ref]])
      && (forall q, r :: q in resourceToLockStatus && r in resourceToLockStatus && q != r ==>
            resourceToLockStatus[q] != resourceToLockStatus[r])
    }

    ghost function Model(): Coord
      reads this, resourceToLockStatus.Values
    {
      Coord(map r | r in resourceToLockStatus :: resourceToLockStatus[r].Value(), place, numResourceRequests, sent)
    }

    constructor (guard: Guard)
      ensures this.guard == guard && Valid() && Model() == START && resourceToLockStatus == map[]
    {
      this.guard := guard;
      resourceToLockStatus, actorToLockStatus, numResourceRequests, sent, place := map[], map[], 0, {}, map[];
    }

    method ProcessReadLockRequests(resource: LockStatus)
      modifies resource, this`sent
      ensures resource.Value() == AfterRead(old(resource.Value()))
      ensures sent == old(sent) + ReadGrants(old(resource.Value()))
    {
      if resource.writeLockOwner != None || resource.writeLocksWaiting != {} { return; }
      while resource.readLocksWaiting != {}
        invariant resource.writeLockOwner == None && resource.writeLocksWaiting == {}
        invariant resource.readLocksWaiting <= old(resource.readLocksWaiting)
        invariant resource.readLockOwners ==
                  old(resource.readLockOwners) + (old(resource.readLocksWaiting) - resource.readLocksWaiting)
        invariant sent == old(sent) +
                  (set ref | ref in old(resource.readLocksWaiting) - resource.readLocksWaiting :: ReadGrant(ref))
        decreases resource.readLocksWaiting
      {
        var ref :| ref in resource.readLocksWaiting;
        resource.readLocksWaiting := resource.readLocksWaiting - {ref};
        resource.readLockOwners := resource.readLockOwners + {ref};
        sent := sent + {ReadGrant(ref)};
      }
    }

    method ProcessWriteLockRequests(resource: LockStatus) returns (ghost pick: Option<Ref>)
      modifies resource, this`sent
      ensures PickOk(guard, old(resource.Value()), pick)
      ensures resource.Value() == AfterWrite(old(resource.Value()), pick)
      ensures sent == old(sent) + WriteGrants(pick)
    {
      pick := None;
      var blocked := match guard
        case AsWritten => resource.writeLockOwner != None && resource.readLockOwners != {}
        case Intended => resource.writeLockOwner != None || resource.readLockOwners != {};
      if blocked { return; }
      if resource.writeLocksWaiting != {} {
        // the source loops over the map and leaves the loop after the first entry
        var ref :| ref in resource.writeLocksWaiting;
        resource.writeLocksWaiting := resource.writeLocksWaiting - {ref};
        resource.writeLockOwner := Some(ref);
        sent := sent + {WriteGrant(ref)};
        pick := Some(ref);
      }
    }

    method ProcessWaitingRequests(resource: LockStatus) returns (ghost pick: Option<Ref>)
      modifies resource, this`sent
      ensures PickOk(guard, old(resource.Value()), pick)
      ensures resource.Value() == Drained(old(resource.Value()), pick)
      ensures sent == old(sent) + DrainGrants(old(resource.Value()), pick)
    {
      pick := ProcessWriteLockRequests(resource);
      ProcessReadLockRequests(resource);
    }

    /** The status object of a resource, created on first use. */
    method Lookup(name: string) returns (resource: LockStatus)
      requires Valid()
      modifies this`resourceToLockStatus
      ensures Valid() && fresh(resourceToLockStatus.Values - old(resourceToLockStatus.Values))
      ensures name in resourceToLockStatus && resource == resourceToLockStatus[name]
      ensures resource in old(resourceToLockStatus.Values) || fresh(resource)
      ensures Model() == old(Model()).(resources := old(Model()).resources[name := StatusOf(old(Model()), name)])
    {
      if name !in resourceToLockStatus {
        var status := new LockStatus();
        resourceToLockStatus := resourceToLockStatus[name := status];
      }
      resource := resourceToLockStatus[name];
      assert Model().resources == old(Model()).resources[name := StatusOf(old(Model()), name)];
    }

    /** Register a new actor with a resource and put it in one of the two waiting sets. */
    method Enqueue(resource: LockStatus, ghost name: string, readLock: bool) returns (ref: Ref)
      requires Valid() && name in resourceToLockStatus && resource == resourceToLockStatus[name]
      modifies this`actorToLockStatus, this`place, this`numResourceRequests, resource
      ensures Valid() && ref == old(numResourceRequests)
      ensures resource.Value() == Enqueued(old(resource.Value()), ref, readLock)
      ensures Model() == Coord(old(Model()).resources[name := resource.Value()], old(place)[ref := name], ref + 1, old(sent))
    {
      ref := numResourceRequests;
      numResourceRequests := numResourceRequests + 1;
      actorToLockStatus := actorToLockStatus[ref := resource];
      place := place[ref := name];
      assert place.Keys == old(place.Keys) + {ref} && actorToLockStatus.Keys == old(actorToLockStatus.Keys) + {ref};
      assert Valid();
      if readLock {
        resource.readLocksWaiting := resource.readLocksWaiting + {ref};
      } else {
        resource.writeLocksWaiting := resource.writeLocksWaiting + {ref};
      }
      ModelUpdated(old(Model()).resources, Model().resources, name, resource.Value());
    }

    /** Take a registered actor out of whatever role it has, and forget it. */
    method Remove(resource: LockStatus, ghost name: string, ref: Ref)
      requires Valid() && ref in place && name == place[ref] && resource == actorToLockStatus[ref]
      modifies this`actorToLockStatus, this`place, resource
      ensures Valid() && resource.Value() == Removed(old(resource.Value()), ref)
      ensures Model() == Coord(old(Model()).resources[name := resource.Value()], old(place) - {ref}, numResourceRequests, sent)
    {
      if resource.writeLockOwner == Some(ref) {
        resource.writeLockOwner := None;
      } else {
        resource.readLockOwners := resource.readLockOwners - {ref};
        resource.readLocksWaiting := resource.readLocksWaiting - {ref};
        resource.writeLocksWaiting := resource.writeLocksWaiting - {ref};
      }
      actorToLockStatus := actorToLockStatus - {ref};
      place := place - {ref};
      assert place.Keys == old(place.Keys) - {ref} && actorToLockStatus.Keys == old(actorToLockStatus.Keys) - {ref};
      assert Valid();
      ModelUpdated(old(Model()).resources, Model().resources, name, resource.Value());
    }

    /** Serve one resource's queue: the other resources, and both maps, stay as they are. */
    method Serve(resource: LockStatus, ghost name: string) returns (ghost pick: Option<Ref>)
      requires Valid() && name in resourceToLockStatus && resource == resourceToLockStatus[name]
      modifies resource, this`sent
      ensures Valid()
      ensures PickOk(guard, old(resource.Value()), pick)
      ensures var c := old(Model());
              Model() == Coord(c.resources[name := Drained(old(resource.Value()), pick)], c.place, c.next,
                               c.sent + DrainGrants(old(resource.Value()), pick))
    {
      pick := ProcessWaitingRequests(resource);
      ModelUpdated(old(Model()).resources, Model().resources, name, resource.Value());
    }

    method ProcessResourceRequest(name: string, readLock: bool) returns (ref: Ref, ghost pick: Option<Ref>)
      requires Valid()
      modifies this, resourceToLockStatus.Values
      ensures Valid() && fresh(resourceToLockStatus.Values - old(resourceToLockStatus.Values))
      ensures ref == old(numResourceRequests)
      ensures Legal(guard, old(Model()), Request(name, readLock), pick)
      ensures Model() == Apply(old(Model()), Request(name, readLock), pick)
    {
      ghost var c0 := Model();
      var resource := Lookup(name);
      ghost var c1 := Model();
      assert c1.resources[name] == resource.Value();
      ref := Enqueue(resource, name, readLock);
      ghost var c2 := Model();
      pick := Serve(resource, name);
      RequestInThreeSteps(c0, c1, c2, Model(), name, readLock, pick);
    }

    method ProcessResourceRelease(ref: Ref) returns (ghost pick: Option<Ref>)
      requires Valid()
      modifies this, resourceToLockStatus.Values
      ensures Valid() && resourceToLockStatus == old(resourceToLockStatus)
      ensures Legal(guard, old(Model()), Release(ref), pick)
      ensures Model() == Apply(old(Model()), Release(ref), pick)
    {
      if ref !in actorToLockStatus { return None; }
      ghost var c0, name := Model(), place[ref];
      var resource := actorToLockStatus[ref];
      Remove(resource, name, ref);
      ghost var c1 := Model();
      pick := Serve(resource, name);
      ReleaseInTwoSteps(c0, c1, Model(), ref, pick);
    }

    /** One message, and the invariant of module RWLock kept under the intended guard. */
    method Receive(ev: Event) returns (ghost pick: Option<Ref>)
      requires Valid()
      modifies this, resourceToLockStatus.Values
      ensures Valid() && fresh(resourceToLockStatus.Values - old(resourceToLockStatus.Values))
      ensures Legal(guard, old(Model()), ev, pick) && Model() == Apply(old(Model()), ev, pick)
      ensures guard == Intended && Inv(old(Model())) ==> Inv(Model())
    {
      match ev {
        case Request(name, readLock) =>
          var ref;
          ref, pick := ProcessResourceRequest(name, readLock);
        case Release(ref) =>
          pick := ProcessResourceRelease(ref);
      }
      if guard == Intended && Inv(old(Model())) { StepInv(old(Model()), ev, pick); }
    }
  }
}
