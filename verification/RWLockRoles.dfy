/** The two indexes of the lock server under either guard: exactly which runs keep every registered
    actor in one role. */
module RWLockRoles {
  import opened Wrappers
  import opened RWLock
  import opened RWLockTheorems

  /** Every registered actor is in exactly one role of its own resource, and nobody else is in any. */
  predicate Indexed(c: Coord) {
    && (forall ref :: ref in c.place ==> ref < c.next && c.place[ref] in c.resources)
    && (forall r :: r in c.resources ==> OneRoleEach(c.resources[r]) && c.resources[r].Members() == Placed(c, r))
  }

  /** What that means for one actor. */
  lemma {:induction false} IndexedRole(c: Coord, ref: Ref)
    requires Indexed(c)
    ensures ref in c.place ==> c.place[ref] in c.resources && InOneRole(c.resources[c.place[ref]], ref)
    ensures forall q :: q in c.resources && ref in c.resources[q].Members() ==> ref in c.place && c.place[ref] == q
  {
    if ref in c.place {
      assert ref in Placed(c, c.place[ref]);
      RoleOf(c.resources[c.place[ref]], ref);
    }
  }

  /** Serving the queue is about to make somebody else the writer while a writer holds the lock. */
  predicate Overwrites(g: Guard, st: Status) {
    st.writer.Some? && !WriteBlocked(g, st) && st.writeWaiting != {}
  }

  predicate Displaces(g: Guard, c: Coord, ev: Event) {
    Target(c, ev).Some? && Overwrites(g, Pending(c, ev))
  }

  /** The intended guard never lets that happen. */
  lemma {:induction false} IntendedNeverDisplaces(c: Coord, ev: Event)
    ensures !Displaces(Intended, c, ev)
  {
  }

  /** Serving keeps the members and their roles, unless it overwrites a writer, who is then in none. */
  lemma {:induction false} DrainRoles(g: Guard, st: Status, pick: Option<Ref>)
    requires PickOk(g, st, pick) && OneRoleEach(st)
    ensures !Overwrites(g, st) ==> OneRoleEach(Drained(st, pick)) && Drained(st, pick).Members() == st.Members()
    ensures Overwrites(g, st) ==> st.writer.value !in Drained(st, pick).Members()
  {
  }

  /** The status about to be served has exactly the actors registered after the step. */
  lemma {:induction false} PendingRoles(c: Coord, ev: Event, pick: Option<Ref>, r: string)
    requires Indexed(c) && Target(c, ev) == Some(r)
    ensures OneRoleEach(Pending(c, ev)) && Pending(c, ev).Members() == Placed(Apply(c, ev, pick), r)
  {
    var c' := Apply(c, ev, pick);
    assert StatusOf(c, r).Members() == Placed(c, r) && OneRoleEach(StatusOf(c, r)) by {
      if r !in c.resources { assert Placed(c, r) == {}; }
    }
    match ev
    case Request(_, readLock) =>
      PlacedOnRequest(c, c', r);
      EnqueuedRoles(StatusOf(c, r), c.next, readLock);
    case Release(ref) =>
      PlacedOnRelease(c, c', ref);
      RemovedRoles(StatusOf(c, r), ref);
  }

  lemma {:induction false} EnqueuedRoles(st: Status, ref: Ref, readLock: bool)
    requires OneRoleEach(st) && ref !in st.Members()
    ensures OneRoleEach(Enqueued(st, ref, readLock)) && Enqueued(st, ref, readLock).Members() == st.Members() + {ref}
  {
  }

  lemma {:induction false} RemovedRoles(st: Status, ref: Ref)
    requires OneRoleEach(st)
    ensures OneRoleEach(Removed(st, ref)) && Removed(st, ref).Members() == st.Members() - {ref}
  {
  }

  lemma {:induction false} PlacedOnRequest(c: Coord, c': Coord, r: string)
    requires Indexed(c) && c'.place == c.place[c.next := r]
    ensures c.next !in Placed(c, r) && Placed(c', r) == Placed(c, r) + {c.next}
    ensures forall q :: q != r ==> Placed(c', q) == Placed(c, q)
  {
  }

  lemma {:induction false} PlacedOnRelease(c: Coord, c': Coord, ref: Ref)
    requires ref in c.place && c'.place == c.place - {ref}
    ensures Placed(c', c.place[ref]) == Placed(c, c.place[ref]) - {ref}
    ensures forall q :: q != c.place[ref] ==> Placed(c', q) == Placed(c, q)
  {
  }

  /** The other resources keep their statuses and their actors. */
  lemma {:induction false} OtherRoles(c: Coord, ev: Event, pick: Option<Ref>, r: string)
    requires Indexed(c) && Target(c, ev) == Some(r)
    ensures var c' := Apply(c, ev, pick);
            && c'.resources.Keys == c.resources.Keys + {r}
            && c'.resources[r] == Drained(Pending(c, ev), pick)
            && (forall q :: q in c.resources && q != r ==>
                  c'.resources[q] == c.resources[q] && Placed(c', q) == Placed(c, q))
            && (forall ref :: ref in c'.place ==> ref < c'.next && c'.place[ref] in c'.resources)
  {
    var c' := Apply(c, ev, pick);
    match ev
    case Request(_, _) => PlacedOnRequest(c, c', r);
    case Release(ref) => PlacedOnRelease(c, c', ref);
  }

  /** A step keeps the index exactly when it displaces nobody. */
  lemma {:induction false} IndexStep(g: Guard, c: Coord, ev: Event, pick: Option<Ref>)
    requires Indexed(c) && Legal(g, c, ev, pick)
    ensures Indexed(Apply(c, ev, pick)) <==> !Displaces(g, c, ev)
  {
    if Target(c, ev).Some? {
      var r, st, c' := Target(c, ev).value, Pending(c, ev), Apply(c, ev, pick);
      PendingRoles(c, ev, pick, r);
      OtherRoles(c, ev, pick, r);
      DrainRoles(g, st, pick);
      if Overwrites(g, st) {
        assert st.writer.value in Placed(c', r);
      }
    }
  }

  ghost predicate AlwaysIndexed(g: Guard, moves: seq<Move>)
    requires Run(g, moves).Some?
  {
    && Indexed(Run(g, moves).value)
    && (moves == [] || (Run(g, moves[..|moves| - 1]).Some? && AlwaysIndexed(g, moves[..|moves| - 1])))
  }

  predicate NeverDisplaces(g: Guard, moves: seq<Move>)
    requires Run(g, moves).Some?
  {
    moves == [] ||
    (Run(g, moves[..|moves| - 1]).Some? && NeverDisplaces(g, moves[..|moves| - 1]) &&
     !Displaces(g, Run(g, moves[..|moves| - 1]).value, moves[|moves| - 1].event))
  }

  /** Under either guard the index is consistent throughout a run if and only if no step of the run
      serves a waiting writer while a writer holds the lock and the guard does not block it. */
  lemma {:induction false} IndexExactly(g: Guard, moves: seq<Move>)
    requires Run(g, moves).Some?
    ensures AlwaysIndexed(g, moves) <==> NeverDisplaces(g, moves)
  {
    if moves != [] {
      var n := |moves| - 1;
      IndexExactly(g, moves[..n]);
      if AlwaysIndexed(g, moves[..n]) {
        IndexStep(g, Run(g, moves[..n]).value, moves[n].event, moves[n].pick);
      }
    }
  }

  /** With the guard as written a displaced writer stays registered, and has no role. */
  lemma {:induction false} WriterDisplaced()
    ensures Run(AsWritten, [WRITE0, WRITE1]).Some?
    ensures var c := Run(AsWritten, [WRITE0, WRITE1]).value;
            && 0 in c.place && c.place[0] == "db" && "db" in c.resources && 0 !in c.resources["db"].Members()
  {
    FirstClient(WRITE0);
    var c := Run(AsWritten, [WRITE0]).value;
    OneMore(AsWritten, [WRITE0], c, WRITE1);
    assert [WRITE0] + [WRITE1] == [WRITE0, WRITE1];
    assert Pending(c, WRITE1.event) == Status({}, Some(0), {}, {1});
    assert Drained(Status({}, Some(0), {}, {1}), Some(1)) == Status({}, Some(1), {}, {});
  }
}
