/** What the lock server promises over whole runs, with the guard it was meant to have, and exactly
    when it keeps that promise with the guard it has. */
module RWLockTheorems {
  import opened Wrappers
  import opened RWLock

  // ----- the intended guard

  /** A holder as the clients see it is a holder as the status records it. */
  lemma {:induction false} HoldsIsRecorded(c: Coord, r: string, ref: Ref)
    requires Inv(c)
    ensures Holds(c, r, ref) <==> r in c.resources && ref in c.resources[r].Holders()
    ensures Holds(c, r, ref) ==> (WriteGrant(ref) in c.sent <==> c.resources[r].writer == Some(ref))
  {
    if r in c.resources {
      assert ResourceOk(c, r);
      assert ref in c.resources[r].Members() <==> ref in Placed(c, r);
    }
  }

  /** After every run, a client with a write grant is alone: no second writer and no reader. */
  lemma {:induction false} LockExclusion(moves: seq<Move>, r: string)
    requires Run(Intended, moves).Some?
    ensures Exclusive(Run(Intended, moves).value, r)
  {
    RunInv(moves);
    ExclusiveFromInv(Run(Intended, moves).value, r);
  }

  lemma {:induction false} ExclusiveFromInv(c: Coord, r: string)
    requires Inv(c)
    ensures Exclusive(c, r)
  {
    forall a, b | Holds(c, r, a) && WriteGrant(a) in c.sent && Holds(c, r, b) ensures a == b {
      HoldsIsRecorded(c, r, a);
      HoldsIsRecorded(c, r, b);
      assert ResourceOk(c, r);
    }
  }

  /** A waiting writer means the lock is held, a waiting reader that a writer holds or waits, and a
      resource that nobody holds has no waiters. */
  predicate NobodyForgotten(st: Status) {
    && (st.writeWaiting != {} ==> st.Holders() != {})
    && (st.readWaiting != {} ==> st.writer.Some? || st.writeWaiting != {})
    && (st.Holders() == {} ==> st.Members() == {})
  }

  lemma {:induction false} DrainForgetsNobody(g: Guard, st: Status, pick: Option<Ref>)
    requires PickOk(g, st, pick)
    ensures NobodyForgotten(Drained(st, pick))
  {
    var st1 := AfterWrite(st, pick);
    assert st1.writeWaiting != {} ==> st1.Holders() != {};
  }

  /** After every run under either guard, nobody waits without a reason. */
  lemma {:induction false} NoLostWakeup(g: Guard, moves: seq<Move>, r: string)
    requires Run(g, moves).Some? && r in Run(g, moves).value.resources
    ensures NobodyForgotten(Run(g, moves).value.resources[r])
  {
    if moves != [] {
      var n := |moves| - 1;
      var c := Run(g, moves[..n]).value;
      if Target(c, moves[n].event) == Some(r) {
        DrainForgetsNobody(g, Pending(c, moves[n].event), moves[n].pick);
      } else {
        NoLostWakeup(g, moves[..n], r);
      }
    }
  }

  predicate InOneRole(st: Status, ref: Ref) {
    var roles := [ref in st.readers, st.writer == Some(ref), ref in st.readWaiting, ref in st.writeWaiting];
    exists i :: 0 <= i < 4 && roles[i] && forall j :: 0 <= j < 4 && j != i ==> !roles[j]
  }

  lemma {:induction false} RoleOf(st: Status, ref: Ref)
    requires OneRoleEach(st) && ref in st.Members()
    ensures InOneRole(st, ref)
  {
    var roles := [ref in st.readers, st.writer == Some(ref), ref in st.readWaiting, ref in st.writeWaiting];
    var i := if ref in st.readers then 0 else if st.writer == Some(ref) then 1 else if ref in st.readWaiting then 2 else 3;
    assert roles[i] && forall j :: 0 <= j < 4 && j != i ==> !roles[j];
  }

  lemma {:induction false} OnlyAtItsPlace(c: Coord, q: string, ref: Ref)
    requires Inv(c) && q in c.resources
    ensures ref in c.resources[q].Members() <==> ref in c.place && c.place[ref] == q
  {
    assert ResourceOk(c, q);
  }

  /** After every run, each registered actor is in exactly one role of its own resource and in no
      role of any other. */
  lemma {:induction false} IndexConsistency(moves: seq<Move>, ref: Ref)
    requires Run(Intended, moves).Some?
    ensures var c := Run(Intended, moves).value;
            && (ref in c.place ==> c.place[ref] in c.resources && InOneRole(c.resources[c.place[ref]], ref))
            && (forall q :: q in c.resources && (ref !in c.place || q != c.place[ref]) ==> ref !in c.resources[q].Members())
  {
    RunInv(moves);
    var c := Run(Intended, moves).value;
    if ref in c.place {
      OnlyAtItsPlace(c, c.place[ref], ref);
      assert ResourceOk(c, c.place[ref]);
      RoleOf(c.resources[c.place[ref]], ref);
    }
    forall q | q in c.resources && (ref !in c.place || q != c.place[ref]) ensures ref !in c.resources[q].Members() {
      OnlyAtItsPlace(c, q, ref);
    }
  }

  /** Released: in no role of any resource, with every other resource and registration as it was. */
  predicate OnlyReleased(c: Coord, c': Coord, ref: Ref) {
    && c'.place == c.place - {ref}
    && c'.resources.Keys == c.resources.Keys
    && (forall q :: q in c'.resources ==> ref !in c'.resources[q].Members())
    && (forall q :: q in c.resources && !(ref in c.place && q == c.place[ref]) ==> c'.resources[q] == c.resources[q])
  }

  lemma {:induction false} ReleasedFrom(c: Coord, c': Coord, ref: Ref, st: Status)
    requires Numbered(c) && Inv(c') && c'.place == c.place - {ref}
    requires c'.resources == if ref in c.place then c.resources[c.place[ref] := st] else c.resources
    ensures OnlyReleased(c, c', ref)
  {
    forall q | q in c'.resources ensures ref !in c'.resources[q].Members() {
      OnlyAtItsPlace(c', q, ref);
    }
  }

  lemma {:induction false} ReleaseShape(c: Coord, c': Coord, ref: Ref, pick: Option<Ref>, st: Status)
    requires c' == Apply(c, Release(ref), pick) && st == Drained(Pending(c, Release(ref)), pick)
    ensures c'.place == c.place - {ref}
    ensures c'.resources == if ref in c.place then c.resources[c.place[ref] := st] else c.resources
  {
  }

  lemma {:induction false} ReleaseApplied(c: Coord, c': Coord, ref: Ref, pick: Option<Ref>)
    requires Numbered(c) && Inv(c') && c' == Apply(c, Release(ref), pick)
    ensures OnlyReleased(c, c', ref)
  {
    var st := Drained(Pending(c, Release(ref)), pick);
    ReleaseShape(c, c', ref, pick, st);
    ReleasedFrom(c, c', ref, st);
  }

  /** A release takes the actor out of every role and leaves all else alone. */
  lemma {:induction false} ReleaseIsLocal(moves: seq<Move>, ref: Ref, pick: Option<Ref>)
    requires Run(Intended, moves).Some? && Legal(Intended, Run(Intended, moves).value, Release(ref), pick)
    ensures OnlyReleased(Run(Intended, moves).value, Apply(Run(Intended, moves).value, Release(ref), pick), ref)
  {
    RunInv(moves);
    var c := Run(Intended, moves).value;
    StepInv(c, Release(ref), pick);
    ReleaseApplied(c, Apply(c, Release(ref), pick), ref, pick);
  }

  /** Writer preference: a step that grants a read lock leaves no writer waiting or holding on that
      resource, so readers never overtake a waiting writer. */
  lemma {:induction false} WriterPreference(moves: seq<Move>, ev: Event, pick: Option<Ref>, ref: Ref)
    requires Run(Intended, moves).Some? && Legal(Intended, Run(Intended, moves).value, ev, pick)
    requires var c := Run(Intended, moves).value;
             ReadGrant(ref) !in c.sent && ReadGrant(ref) in Apply(c, ev, pick).sent
    ensures var c := Run(Intended, moves).value;
            && Target(c, ev).Some?
            && Holds(Apply(c, ev, pick), Target(c, ev).value, ref)
            && Apply(c, ev, pick).resources[Target(c, ev).value].Writers() == {}
            && Apply(c, ev, pick).resources[Target(c, ev).value].writeWaiting == {}
  {
    RunInv(moves);
    var c := Run(Intended, moves).value;
    StepInv(c, ev, pick);
    var c', r := Apply(c, ev, pick), Target(c, ev).value;
    assert ResourceOk(c', r);
    assert ref in c'.resources[r].readers;
  }

  // ----- every waiter is served

  /** How many of `moves` release an actor that is registered for `r`. */
  function ReleasesOf(c: Coord, r: string, moves: seq<Move>): nat
    requires From(Intended, c, moves).Some?
  {
    if moves == [] then 0
    else
      var n := |moves| - 1;
      var before := From(Intended, c, moves[..n]).value;
      ReleasesOf(c, r, moves[..n]) +
      (if moves[n].event.Release? && moves[n].event.ref in Placed(before, r) then 1 else 0)
  }

  /** `moves` neither asks for `r` nor disconnects `ref`; other resources may do anything. */
  predicate LeavesAlone(r: string, ref: Ref, moves: seq<Move>) {
    forall i :: 0 <= i < |moves| ==>
      (moves[i].event.Request? ==> moves[i].event.resource != r) && moves[i].event != Release(ref)
  }

  lemma {:induction false} PlacedStep(c: Coord, ev: Event, pick: Option<Ref>, r: string)
    requires Inv(c) && (ev.Request? ==> ev.resource != r)
    ensures var gone := ev.Release? && ev.ref in Placed(c, r);
            && Placed(Apply(c, ev, pick), r) == (if gone then Placed(c, r) - {ev.ref} else Placed(c, r))
            && |Placed(Apply(c, ev, pick), r)| + (if gone then 1 else 0) == |Placed(c, r)|
  {
    match ev
    case Request(q, _) => PlacedAfterRequest(c, Apply(c, ev, pick), q);
    case Release(ref) => if ref in c.place { PlacedAfterRelease(c, Apply(c, ev, pick), ref); }
  }

  lemma {:induction false} PlacedShrinks(c: Coord, r: string, ref: Ref, moves: seq<Move>)
    requires Inv(c) && From(Intended, c, moves).Some? && LeavesAlone(r, ref, moves) && ref in Placed(c, r)
    ensures var c' := From(Intended, c, moves).value;
            ref in Placed(c', r) && |Placed(c', r)| + ReleasesOf(c, r, moves) == |Placed(c, r)|
  {
    if moves != [] {
      var n := |moves| - 1;
      assert LeavesAlone(r, ref, moves[..n]);
      PlacedShrinks(c, r, ref, moves[..n]);
      FromInv(c, moves[..n]);
      var before := From(Intended, c, moves[..n]).value;
      assert From(Intended, c, moves) == Some(Apply(before, moves[n].event, moves[n].pick));
      PlacedStep(before, moves[n].event, moves[n].pick, r);
    }
  }

  lemma {:induction false} SingletonOnly<T>(s: set<T>, a: T, b: T)
    requires a in s && b in s && |s| <= 1
    ensures a == b
  {
    assert |s - {a}| == |s| - 1;
    assert s - {a} == {};
  }

  /** With no new requests for its resource, a client that stays connected holds the lock after at
      most as many releases as there were other clients registered for it, whatever is chosen. */
  lemma {:induction false} WaiterServed(c: Coord, r: string, ref: Ref, moves: seq<Move>)
    requires Inv(c) && ref in Placed(c, r)
    requires From(Intended, c, moves).Some? && LeavesAlone(r, ref, moves)
    requires ReleasesOf(c, r, moves) >= |Placed(c, r)| - 1
    ensures Holds(From(Intended, c, moves).value, r, ref)
  {
    var c' := From(Intended, c, moves).value;
    PlacedShrinks(c, r, ref, moves);
    FromInv(c, moves);
    assert ResourceOk(c', r);
    var st := c'.resources[r];
    forall other | other in st.Members() ensures other == ref {
      SingletonOnly(st.Members(), other, ref);
    }
    assert st.Holders() != {} by {
      assert ref in st.Members();
    }
    var h :| h in st.Holders();
    assert h in st.Members();
    HoldsIsRecorded(c', r, ref);
  }

  /** A grant, once given, is not taken back by anything but the holder's own release. */
  lemma {:induction false} GrantStays(g: Guard, c: Coord, r: string, ref: Ref, moves: seq<Move>)
    requires Holds(c, r, ref) && From(g, c, moves).Some? && ref < c.next
    requires forall i :: 0 <= i < |moves| ==> moves[i].event != Release(ref)
    ensures Holds(From(g, c, moves).value, r, ref) && ref < From(g, c, moves).value.next
  {
    if moves != [] {
      var n := |moves| - 1;
      GrantStays(g, c, r, ref, moves[..n]);
    }
  }

  // ----- the guard as written

  const READ: Move := Move(Request("db", true), None)
  const WRITE0: Move := Move(Request("db", false), Some(0))
  const WRITE1: Move := Move(Request("db", false), Some(1))

  /** One client holds the lock, for writing or for reading. */
  lemma {:induction false} FirstClient(m: Move)
    requires m == WRITE0 || m == READ
    ensures Run(AsWritten, [m]).Some?
    ensures var c := Run(AsWritten, [m]).value;
            && c.next == 1 && c.place == map[0 := "db"] && "db" in c.resources
            && c.resources["db"] == (if m == READ then Status({0}, None, {}, {}) else Status({}, Some(0), {}, {}))
            && (if m == READ then ReadGrant(0) in c.sent else WriteGrant(0) in c.sent)
  {
    var st := if m == READ then Status({}, None, {0}, {}) else Status({}, None, {}, {0});
    assert Pending(START, m.event) == st;
    assert [] + [m] == [m];
    OneMore(AsWritten, [], START, m);
    assert Drained(st, m.pick) == if m == READ then Status({0}, None, {}, {}) else Status({}, Some(0), {}, {});
    if m == READ { assert ReadGrant(0) in ReadGrants(AfterWrite(st, None)); }
  }

  /** A second client asks for the write lock and gets it. */
  lemma {:induction false} SecondClient(m: Move)
    requires m == WRITE0 || m == READ
    ensures Run(AsWritten, [m, WRITE1]).Some? && !Exclusive(Run(AsWritten, [m, WRITE1]).value, "db")
  {
    FirstClient(m);
    var c := Run(AsWritten, [m]).value;
    var st := Enqueued(c.resources["db"], 1, false);
    assert Pending(c, WRITE1.event) == st && st.writeWaiting == {1};
    OneMore(AsWritten, [m], c, WRITE1);
    assert [m] + [WRITE1] == [m, WRITE1];
    var c' := Apply(c, WRITE1.event, WRITE1.pick);
    assert Holds(c', "db", 0) && Holds(c', "db", 1) && WriteGrant(1) in c'.sent;
  }

  /** With the guard as written, two writers hold the lock at once. */
  lemma {:induction false} TwoWriters()
    ensures Run(AsWritten, [WRITE0, WRITE1]).Some? && !Exclusive(Run(AsWritten, [WRITE0, WRITE1]).value, "db")
  {
    SecondClient(WRITE0);
  }

  /** With the guard as written, a writer holds the lock beside a reader. */
  lemma {:induction false} WriterBesideReader()
    ensures Run(AsWritten, [READ, WRITE1]).Some? && !Exclusive(Run(AsWritten, [READ, WRITE1]).value, "db")
  {
    SecondClient(READ);
  }

  lemma {:induction false} OneMore(g: Guard, moves: seq<Move>, c: Coord, m: Move)
    requires Run(g, moves) == Some(c) && Legal(g, c, m.event, m.pick)
    ensures Run(g, moves + [m]) == Some(Apply(c, m.event, m.pick))
  {
    assert (moves + [m])[..|moves|] == moves;
  }

  /** The write requests that find their resource held. */
  ghost predicate Intrudes(c: Coord, ev: Event) {
    ev.Request? && !ev.readLock && !Unheld(c, ev.resource)
  }

  /** Every write request of the run finds its resource free. */
  ghost predicate Polite(moves: seq<Move>)
    requires Run(AsWritten, moves).Some?
  {
    moves == [] ||
    (Run(AsWritten, moves[..|moves| - 1]).Some? && Polite(moves[..|moves| - 1]) &&
     !Intrudes(Run(AsWritten, moves[..|moves| - 1]).value, moves[|moves| - 1].event))
  }

  /** Exclusion holds now and held at every earlier point of the run. */
  ghost predicate AlwaysExclusive(moves: seq<Move>)
    requires Run(AsWritten, moves).Some?
  {
    && (forall r :: Exclusive(Run(AsWritten, moves).value, r))
    && (moves == [] ||
        (Run(AsWritten, moves[..|moves| - 1]).Some? && AlwaysExclusive(moves[..|moves| - 1])))
  }

  predicate NoWriterWaits(c: Coord) {
    forall r :: r in c.resources ==> c.resources[r].writeWaiting == {}
  }

  lemma {:induction false} UnheldIsRecorded(c: Coord, r: string)
    requires Inv(c) && Unheld(c, r)
    ensures StatusOf(c, r).Holders() == {}
  {
    if r in c.resources {
      forall ref ensures ref !in c.resources[r].Holders() { HoldsIsRecorded(c, r, ref); }
    }
  }

  /** While no writer waits, a polite step makes the same choices under both guards. */
  lemma {:induction false} PoliteStep(c: Coord, ev: Event, pick: Option<Ref>)
    requires Inv(c) && NoWriterWaits(c) && Legal(AsWritten, c, ev, pick) && !Intrudes(c, ev)
    ensures Legal(Intended, c, ev, pick) && NoWriterWaits(Apply(c, ev, pick))
  {
    if ev.Request? && !ev.readLock { UnheldIsRecorded(c, ev.resource); }
  }

  /** An intruding write request is granted on the spot, beside whoever holds the lock. */
  lemma {:induction false} IntrusionBreaks(c: Coord, ev: Event, pick: Option<Ref>)
    requires Inv(c) && NoWriterWaits(c) && Legal(AsWritten, c, ev, pick) && Intrudes(c, ev)
    ensures !Exclusive(Apply(c, ev, pick), ev.resource)
  {
    var r, c' := ev.resource, Apply(c, ev, pick);
    var h :| Holds(c, r, h);
    HoldsIsRecorded(c, r, h);
    assert ResourceOk(c, r);
    assert Pending(c, ev).writeWaiting == {c.next};
    assert pick == Some(c.next);
    assert Holds(c', r, h) && Holds(c', r, c.next) && WriteGrant(c.next) in c'.sent;
  }

  /** The guard as written keeps exclusion throughout a run exactly when every write request of the
      run arrives while its resource is free; such a run is also a run of the intended guard. */
  lemma {:induction false} AsWrittenExactly(moves: seq<Move>)
    requires Run(AsWritten, moves).Some?
    ensures AlwaysExclusive(moves) <==> Polite(moves)
    ensures Polite(moves) ==>
              && Run(Intended, moves) == Run(AsWritten, moves)
              && Inv(Run(AsWritten, moves).value) && NoWriterWaits(Run(AsWritten, moves).value)
  {
    if moves == [] {
      forall r ensures Exclusive(START, r) { ExclusiveFromInv(START, r); }
    } else {
      var n := |moves| - 1;
      AsWrittenExactly(moves[..n]);
      if Polite(moves[..n]) {
        var c := Run(AsWritten, moves[..n]).value;
        var ev, pick := moves[n].event, moves[n].pick;
        var c' := Apply(c, ev, pick);
        if Intrudes(c, ev) {
          IntrusionBreaks(c, ev, pick);
        } else {
          PoliteStep(c, ev, pick);
          StepInv(c, ev, pick);
          forall r ensures Exclusive(c', r) { ExclusiveFromInv(c', r); }
        }
      }
    }
  }
}
