/** Which grants a step of the lock server gives out, under either guard. */
module RWLockGrants {
  import opened Wrappers
  import opened RWLock
  import opened RWLockTheorems

  /** Whoever waits is registered with the resource it waits for, is in no other role there, and has
      not been granted what it waits for. */
  predicate WaitersOk(st: Status, placed: set<Ref>, sent: set<Grant>, next: Ref) {
    && (st.writer.Some? ==> st.writer.value < next)
    && (forall ref :: ref in st.readers ==> ref < next)
    && (forall ref :: ref in st.writeWaiting ==>
          ref in placed && ref < next && WriteGrant(ref) !in sent && st.writer != Some(ref))
    && (forall ref :: ref in st.readWaiting ==>
          ref in placed && ref < next && ReadGrant(ref) !in sent && ref !in st.readers && ref !in st.writeWaiting
          && st.writer != Some(ref))
  }

  predicate Ungranted(c: Coord) {
    && Numbered(c)
    && forall r :: r in c.resources ==> WaitersOk(c.resources[r], Placed(c, r), c.sent, c.next)
  }

  lemma {:induction false} EnqueuedWaiters(st: Status, placed: set<Ref>, sent: set<Grant>, next: Ref, readLock: bool)
    requires WaitersOk(st, placed, sent, next) && forall grant :: grant in sent ==> grant.ref < next
    ensures WaitersOk(Enqueued(st, next, readLock), placed + {next}, sent, next + 1)
  {
    assert WriteGrant(next) !in sent && ReadGrant(next) !in sent && next !in st.Members();
  }

  lemma {:induction false} RemovedWaiters(st: Status, placed: set<Ref>, sent: set<Grant>, next: Ref, ref: Ref)
    requires WaitersOk(st, placed, sent, next)
    ensures WaitersOk(Removed(st, ref), placed - {ref}, sent, next)
  {
  }

  lemma {:induction false} PendingWaiters(c: Coord, ev: Event, pick: Option<Ref>, r: string)
    requires Ungranted(c) && Target(c, ev) == Some(r)
    ensures var c' := Apply(c, ev, pick);
            WaitersOk(Pending(c, ev), Placed(c', r), c.sent, c'.next)
    ensures forall q :: q != r ==> Placed(Apply(c, ev, pick), q) == Placed(c, q)
  {
    var c' := Apply(c, ev, pick);
    assert WaitersOk(StatusOf(c, r), Placed(c, r), c.sent, c.next);
    match ev
    case Request(_, readLock) =>
      PlacedAfterRequest(c, c', r);
      EnqueuedWaiters(StatusOf(c, r), Placed(c, r), c.sent, c.next, readLock);
    case Release(ref) =>
      PlacedAfterRelease(c, c', ref);
      RemovedWaiters(StatusOf(c, r), Placed(c, r), c.sent, c.next, ref);
  }

  /** What serving a queue grants. */
  lemma {:induction false} DrainGrantsExactly(st: Status, pick: Option<Ref>, grant: Grant)
    requires pick.Some? ==> pick.value in st.writeWaiting
    ensures grant in DrainGrants(st, pick) <==>
              match grant
              case WriteGrant(ref) => pick == Some(ref)
              case ReadGrant(ref) => ref in st.readWaiting && st.writer.None? && st.writeWaiting == {}
  {
  }

  lemma {:induction false} DrainedWaiters(st: Status, pick: Option<Ref>, placed: set<Ref>, sent: set<Grant>, next: Ref)
    requires WaitersOk(st, placed, sent, next) && (pick.Some? ==> pick.value in st.writeWaiting)
    ensures WaitersOk(Drained(st, pick), placed, sent + DrainGrants(st, pick), next)
  {
    var st' := Drained(st, pick);
    forall ref | ref in st'.writeWaiting ensures WriteGrant(ref) !in sent + DrainGrants(st, pick) {
      DrainGrantsExactly(st, pick, WriteGrant(ref));
    }
    forall ref | ref in st'.readWaiting ensures ReadGrant(ref) !in sent + DrainGrants(st, pick) {
      DrainGrantsExactly(st, pick, ReadGrant(ref));
    }
  }

  /** What a step grants: the write lock to the one it picks, and read locks to all waiting readers,
      unless a writer then holds or waits. */
  lemma {:induction false} GrantsExactly(c: Coord, ev: Event, pick: Option<Ref>, grant: Grant)
    requires Ungranted(c) && Target(c, ev).Some?
    requires pick.Some? ==> pick.value in Pending(c, ev).writeWaiting
    ensures var st := Pending(c, ev);
            grant in Apply(c, ev, pick).sent && grant !in c.sent <==>
              match grant
              case WriteGrant(ref) => pick == Some(ref)
              case ReadGrant(ref) => ref in st.readWaiting && st.writer.None? && st.writeWaiting == {}
  {
    PendingWaiters(c, ev, pick, Target(c, ev).value);
    DrainGrantsExactly(Pending(c, ev), pick, grant);
    assert Apply(c, ev, pick).sent == c.sent + DrainGrants(Pending(c, ev), pick);
  }

  /** The grants of a step go to registered members of its resource. */
  lemma {:induction false} GrantsArePlaced(st: Status, pick: Option<Ref>, placed: set<Ref>, sent: set<Grant>, next: Ref)
    requires WaitersOk(st, placed, sent, next) && (pick.Some? ==> pick.value in st.writeWaiting)
    ensures forall grant :: grant in DrainGrants(st, pick) ==> grant.ref in placed && grant.ref < next
  {
    forall grant | grant in DrainGrants(st, pick) ensures grant.ref in placed && grant.ref < next {
      DrainGrantsExactly(st, pick, grant);
    }
  }

  lemma {:induction false} OthersStay(c: Coord, ev: Event, pick: Option<Ref>, r: string, q: string)
    requires Ungranted(c) && Target(c, ev) == Some(r) && q in c.resources && q != r
    requires pick.Some? ==> pick.value in Pending(c, ev).writeWaiting
    ensures var c' := Apply(c, ev, pick);
            q in c'.resources && WaitersOk(c'.resources[q], Placed(c', q), c'.sent, c'.next)
  {
    var c', st := Apply(c, ev, pick), Pending(c, ev);
    PendingWaiters(c, ev, pick, r);
    GrantsArePlaced(st, pick, Placed(c', r), c.sent, c'.next);
    assert c'.sent == c.sent + DrainGrants(st, pick) && c'.resources[q] == c.resources[q] && c.next <= c'.next;
    OtherPlace(c.resources[q], Placed(c', q), Placed(c', r), c.sent, DrainGrants(st, pick), c.next, c'.next);
  }

  lemma {:induction false} OtherPlace(st: Status, mine: set<Ref>, theirs: set<Ref>, sent: set<Grant>, more: set<Grant>,
                                      next: Ref, next': Ref)
    requires WaitersOk(st, mine, sent, next) && next <= next' && mine !! theirs
    requires forall grant :: grant in more ==> grant.ref in theirs
    ensures WaitersOk(st, mine, sent + more, next')
  {
  }

  lemma {:induction false} UngrantedStep(g: Guard, c: Coord, ev: Event, pick: Option<Ref>)
    requires Ungranted(c) && Legal(g, c, ev, pick)
    ensures Ungranted(Apply(c, ev, pick))
  {
    var c', st := Apply(c, ev, pick), Pending(c, ev);
    if Target(c, ev).Some? {
      var r := Target(c, ev).value;
      PendingWaiters(c, ev, pick, r);
      DrainedWaiters(st, pick, Placed(c', r), c.sent, c'.next);
      forall q | q in c'.resources ensures WaitersOk(c'.resources[q], Placed(c', q), c'.sent, c'.next) {
        if q != r { OthersStay(c, ev, pick, r, q); }
      }
      NumberedStep(c, ev, pick, r);
    }
  }

  lemma {:induction false} NumberedStep(c: Coord, ev: Event, pick: Option<Ref>, r: string)
    requires Ungranted(c) && Target(c, ev) == Some(r)
    requires pick.Some? ==> pick.value in Pending(c, ev).writeWaiting
    ensures Numbered(Apply(c, ev, pick))
  {
    var c' := Apply(c, ev, pick);
    PendingWaiters(c, ev, pick, r);
    GrantsArePlaced(Pending(c, ev), pick, Placed(c', r), c.sent, c'.next);
    assert c'.sent == c.sent + DrainGrants(Pending(c, ev), pick);
  }

  lemma {:induction false} RunUngranted(g: Guard, moves: seq<Move>)
    requires Run(g, moves).Some?
    ensures Ungranted(Run(g, moves).value)
  {
    if moves != [] {
      var n := |moves| - 1;
      RunUngranted(g, moves[..n]);
      UngrantedStep(g, Run(g, moves[..n]).value, moves[n].event, moves[n].pick);
    }
  }

  /** Serving readers before writers would come to the same: whenever a writer waits, no reader is
      served, and when none waits there is no writer to serve. */
  lemma {:induction false} EitherOrder(g: Guard, st: Status, pick: Option<Ref>)
    requires PickOk(g, st, pick)
    ensures AfterRead(AfterWrite(st, pick)) == AfterWrite(AfterRead(st), pick)
    ensures WriteGrants(pick) + ReadGrants(AfterWrite(st, pick)) == ReadGrants(st) + WriteGrants(pick)
  {
  }

  /** A writer is granted the lock by this step. */
  ghost predicate GrantsAWrite(c: Coord, c': Coord) {
    exists ref :: WriteGrant(ref) in c'.sent && WriteGrant(ref) !in c.sent
  }

  /** After every run, exactly when a step keeps a queued writer waiting: as the guard is written, when
      the resource has both a writer and a reader; as it is intended, when it has either. */
  lemma {:induction false} KeepsWaitingExactly(g: Guard, moves: seq<Move>, ev: Event, pick: Option<Ref>)
    requires Run(g, moves).Some? && Legal(g, Run(g, moves).value, ev, pick)
    requires Target(Run(g, moves).value, ev).Some? && Pending(Run(g, moves).value, ev).writeWaiting != {}
    ensures var c := Run(g, moves).value;
            var st := Pending(c, ev);
            !GrantsAWrite(c, Apply(c, ev, pick)) <==>
              match g
              case AsWritten => st.writer.Some? && st.readers != {}
              case Intended => st.writer.Some? || st.readers != {}
  {
    RunUngranted(g, moves);
    var c := Run(g, moves).value;
    if pick.Some? {
      GrantsExactly(c, ev, pick, WriteGrant(pick.value));
    } else {
      forall ref ensures !(WriteGrant(ref) in Apply(c, ev, pick).sent && WriteGrant(ref) !in c.sent) {
        GrantsExactly(c, ev, pick, WriteGrant(ref));
      }
    }
  }

  const WAIT: Move := Move(Request("db", false), None)

  /** With the guard as written: once a writer stands beside a reader, the next writer waits. */
  lemma {:induction false} ThirdWaits()
    ensures Run(AsWritten, [READ, WRITE1] + [WAIT]).Some?
    ensures var c := Run(AsWritten, [READ, WRITE1] + [WAIT]).value;
            && "db" in c.resources && c.resources["db"] == Status({0}, Some(1), {}, {2})
            && WriteGrant(2) !in c.sent
  {
    FirstClient(READ);
    var c1 := Run(AsWritten, [READ]).value;
    OneMore(AsWritten, [READ], c1, WRITE1);
    assert [READ] + [WRITE1] == [READ, WRITE1];
    assert Pending(c1, WRITE1.event) == Status({0}, None, {}, {1});
    var c2 := Apply(c1, WRITE1.event, WRITE1.pick);
    assert c2.resources["db"] == Status({0}, Some(1), {}, {});
    assert c2.next == 2 && Run(AsWritten, [READ, WRITE1]) == Some(c2);
    ThirdRequest(c2);
    OneMore(AsWritten, [READ, WRITE1], c2, WAIT);
    RunUngranted(AsWritten, [READ, WRITE1] + [WAIT]);
  }

  lemma {:induction false} ThirdRequest(c: Coord)
    requires "db" in c.resources && c.resources["db"] == Status({0}, Some(1), {}, {}) && c.next == 2
    ensures Legal(AsWritten, c, WAIT.event, WAIT.pick)
    ensures Apply(c, WAIT.event, WAIT.pick).resources["db"] == Status({0}, Some(1), {}, {2})
  {
    assert Pending(c, WAIT.event) == Status({0}, Some(1), {}, {2});
  }
}
