/** The read/write lock server on values: the status of one resource, the coordinator's two indexes,
    and what one message does to them.  A Go map is iterated in no particular order, so which waiting
    writer is served is an argument of the step. */
module RWLock {
  import opened Wrappers

  /** A socket actor; each is named by the number of its request. */
  type Ref = nat

  datatype Status = Status(readers: set<Ref>, writer: Option<Ref>, readWaiting: set<Ref>, writeWaiting: set<Ref>) {
    function Writers(): set<Ref> {
      if writer.Some? then {writer.value} else {}
    }

    function Holders(): set<Ref> {
      readers + Writers()
    }

    function Members(): set<Ref> {
      readers + Writers() + readWaiting + writeWaiting
    }
  }

  const EMPTY: Status := Status({}, None, {}, {})

  /** A message written to a client's socket. */
  datatype Grant = ReadGrant(ref: Ref) | WriteGrant(ref: Ref)

  /** The test that keeps a writer waiting: as the source writes it, and as exclusion needs it. */
  datatype Guard = AsWritten | Intended

  predicate WriteBlocked(g: Guard, st: Status) {
    match g
    case AsWritten => st.writer.Some? && st.readers != {}
    case Intended => st.writer.Some? || st.readers != {}
  }

  predicate ReadBlocked(st: Status) {
    st.writer.Some? || st.writeWaiting != {}
  }

  /** `pick` is a possible outcome of serving the waiting writers. */
  predicate PickOk(g: Guard, st: Status, pick: Option<Ref>) {
    if WriteBlocked(g, st) || st.writeWaiting == {} then pick == None
    else pick.Some? && pick.value in st.writeWaiting
  }

  function AfterWrite(st: Status, pick: Option<Ref>): Status {
    if pick.None? then st else st.(writer := pick, writeWaiting := st.writeWaiting - {pick.value})
  }

  function AfterRead(st: Status): Status {
    if ReadBlocked(st) then st else st.(readers := st.readers + st.readWaiting, readWaiting := {})
  }

  function WriteGrants(pick: Option<Ref>): set<Grant> {
    if pick.None? then {} else {WriteGrant(pick.value)}
  }

  function ReadGrants(st: Status): set<Grant> {
    if ReadBlocked(st) then {} else set ref | ref in st.readWaiting :: ReadGrant(ref)
  }

  /** Waiting writers are served first, then waiting readers. */
  function Drained(st: Status, pick: Option<Ref>): Status {
    AfterRead(AfterWrite(st, pick))
  }

  function DrainGrants(st: Status, pick: Option<Ref>): set<Grant> {
    WriteGrants(pick) + ReadGrants(AfterWrite(st, pick))
  }

  /** `place` says which resource each registered actor belongs to; `sent` is what the clients have
      been told. */
  datatype Coord = Coord(resources: map<string, Status>, place: map<Ref, string>, next: Ref, sent: set<Grant>)

  const START: Coord := Coord(map[], map[], 0, {})

  datatype Event = Request(resource: string, readLock: bool) | Release(ref: Ref)

  function StatusOf(c: Coord, r: string): Status {
    if r in c.resources then c.resources[r] else EMPTY
  }

  function Enqueued(st: Status, ref: Ref, readLock: bool): Status {
    if readLock then st.(readWaiting := st.readWaiting + {ref}) else st.(writeWaiting := st.writeWaiting + {ref})
  }

  function Removed(st: Status, ref: Ref): Status {
    if st.writer == Some(ref) then st.(writer := None)
    else Status(st.readers - {ref}, st.writer, st.readWaiting - {ref}, st.writeWaiting - {ref})
  }

  /** The resource an event is about, and that resource's status just before its queue is served. */
  function Target(c: Coord, ev: Event): Option<string> {
    match ev
    case Request(r, _) => Some(r)
    case Release(ref) => if ref in c.place then Some(c.place[ref]) else None
  }

  function Pending(c: Coord, ev: Event): Status {
    match ev
    case Request(r, readLock) => Enqueued(StatusOf(c, r), c.next, readLock)
    case Release(ref) => if ref in c.place then Removed(StatusOf(c, c.place[ref]), ref) else EMPTY
  }

  predicate Legal(g: Guard, c: Coord, ev: Event, pick: Option<Ref>) {
    PickOk(g, Pending(c, ev), pick)
  }

  function Apply(c: Coord, ev: Event, pick: Option<Ref>): Coord {
    var st := Pending(c, ev);
    match ev
    case Request(r, _) =>
      Coord(c.resources[r := Drained(st, pick)], c.place[c.next := r], c.next + 1, c.sent + DrainGrants(st, pick))
    case Release(ref) =>
      if ref !in c.place then c
      else Coord(c.resources[c.place[ref] := Drained(st, pick)], c.place - {ref}, c.next, c.sent + DrainGrants(st, pick))
  }

  datatype Move = Move(event: Event, pick: Option<Ref>)

  /** The coordinator after a run from `c`, if every choice in it was possible. */
  function From(g: Guard, c: Coord, moves: seq<Move>): Option<Coord> {
    if moves == [] then Some(c)
    else
      var n := |moves| - 1;
      var before := From(g, c, moves[..n]);
      if before.Some? && Legal(g, before.value, moves[n].event, moves[n].pick)
      then Some(Apply(before.value, moves[n].event, moves[n].pick)) else None
  }

  function Run(g: Guard, moves: seq<Move>): Option<Coord> {
    From(g, START, moves)
  }

  // ----- the clients' view

  function Placed(c: Coord, r: string): set<Ref> {
    set ref | ref in c.place && c.place[ref] == r
  }

  /** Told that it holds the lock, and not yet released. */
  predicate Holds(c: Coord, r: string, ref: Ref) {
    ref in Placed(c, r) && (WriteGrant(ref) in c.sent || ReadGrant(ref) in c.sent)
  }

  /** A client with a write grant is the only client with a grant. */
  ghost predicate Exclusive(c: Coord, r: string) {
    forall a, b :: Holds(c, r, a) && WriteGrant(a) in c.sent && Holds(c, r, b) ==> a == b
  }

  ghost predicate Unheld(c: Coord, r: string) {
    forall ref :: !Holds(c, r, ref)
  }

  // ----- the invariant

  /** Reader/writer exclusion, and nobody waits without a reason. */
  predicate StatusOk(st: Status) {
    && (st.writer.Some? ==> st.readers == {})
    && (st.writeWaiting != {} ==> st.Holders() != {})
    && (st.readWaiting != {} ==> st.writer.Some? || st.writeWaiting != {})
  }

  predicate OneRoleEach(st: Status) {
    && st.readers !! st.readWaiting && st.readers !! st.writeWaiting && st.readWaiting !! st.writeWaiting
    && (st.writer.Some? ==> st.writer.value !in st.readers + st.readWaiting + st.writeWaiting)
  }

  /** The grants sent to the members of a resource are those its status records. */
  predicate Informed(st: Status, sent: set<Grant>) {
    forall ref :: ref in st.Members() ==>
      (WriteGrant(ref) in sent <==> st.writer == Some(ref)) && (ReadGrant(ref) in sent <==> ref in st.readers)
  }

  predicate ResourceOk(c: Coord, r: string)
    requires r in c.resources
  {
    var st := c.resources[r];
    StatusOk(st) && OneRoleEach(st) && st.Members() == Placed(c, r) && Informed(st, c.sent)
  }

  predicate Numbered(c: Coord) {
    && (forall ref :: ref in c.place ==> ref < c.next && c.place[ref] in c.resources)
    && (forall grant :: grant in c.sent ==> grant.ref < c.next)
  }

  predicate Inv(c: Coord) {
    Numbered(c) && forall r :: r in c.resources ==> ResourceOk(c, r)
  }

  /** Serving the queue restores what a changed status may have lost. */
  lemma {:induction false} DrainRestores(st: Status, pick: Option<Ref>)
    requires PickOk(Intended, st, pick) && OneRoleEach(st)
    requires st.writer.Some? ==> st.readers == {}
    ensures StatusOk(Drained(st, pick)) && OneRoleEach(Drained(st, pick))
    ensures Drained(st, pick).Members() == st.Members()
  {
  }

  lemma {:induction false} DrainInforms(st: Status, pick: Option<Ref>, sent: set<Grant>)
    requires PickOk(Intended, st, pick) && OneRoleEach(st) && Informed(st, sent)
    requires st.writer.Some? ==> st.readers == {}
    ensures Informed(Drained(st, pick), sent + DrainGrants(st, pick))
  {
    var st1 := AfterWrite(st, pick);
    assert Informed(st1, sent + WriteGrants(pick));
    forall ref | ref in Drained(st, pick).Members()
      ensures WriteGrant(ref) in sent + DrainGrants(st, pick) <==> st1.writer == Some(ref)
      ensures ReadGrant(ref) in sent + DrainGrants(st, pick) <==> ref in Drained(st, pick).readers
    {
      assert ref in st1.Members();
    }
  }

  /** Changing one resource's members and grants leaves every other resource as it was. */
  lemma {:induction false} OthersUntouched(c: Coord, c': Coord, r: string)
    requires Inv(c)
    requires c'.resources.Keys == c.resources.Keys + {r}
    requires forall q :: q in c.resources && q != r ==> c'.resources[q] == c.resources[q] && Placed(c', q) == Placed(c, q)
    requires c.sent <= c'.sent
    requires forall grant :: grant in c'.sent - c.sent ==> grant.ref in Placed(c', r)
    ensures forall q :: q in c.resources && q != r ==> ResourceOk(c', q)
  {
    forall q | q in c.resources && q != r ensures ResourceOk(c', q) {
      assert ResourceOk(c, q);
      forall ref | ref in c.resources[q].Members()
        ensures WriteGrant(ref) in c'.sent <==> WriteGrant(ref) in c.sent
        ensures ReadGrant(ref) in c'.sent <==> ReadGrant(ref) in c.sent
      {
        assert ref in Placed(c', q) && ref !in Placed(c', r);
      }
    }
  }

  lemma {:induction false} DrainGrantsMembers(st: Status, pick: Option<Ref>)
    requires pick.Some? ==> pick.value in st.writeWaiting
    ensures forall grant :: grant in DrainGrants(st, pick) ==> grant.ref in st.Members()
  {
  }

  /** What a step needs to show about the status it is about to serve. */
  predicate Servable(st: Status, sent: set<Grant>) {
    OneRoleEach(st) && (st.writer.Some? ==> st.readers == {}) && Informed(st, sent)
  }

  lemma {:induction false} ServeInv(c: Coord, c': Coord, r: string, st: Status, pick: Option<Ref>)
    requires Inv(c) && Servable(st, c.sent) && PickOk(Intended, st, pick)
    requires c'.resources == c.resources[r := Drained(st, pick)]
    requires c'.sent == c.sent + DrainGrants(st, pick) && c.next <= c'.next
    requires forall ref :: ref in c'.place ==> ref < c'.next && c'.place[ref] in c'.resources
    requires Placed(c', r) == st.Members()
    requires forall q :: q in c.resources && q != r ==> Placed(c', q) == Placed(c, q)
    ensures Inv(c')
  {
    DrainGrantsMembers(st, pick);
    OthersUntouched(c, c', r);
    assert ResourceOk(c', r) by {
      DrainRestores(st, pick);
      DrainInforms(st, pick, c.sent);
    }
  }

  /** A resource nobody has asked for yet counts as empty. */
  lemma {:induction false} StatusServable(c: Coord, r: string)
    requires Inv(c)
    ensures Servable(StatusOf(c, r), c.sent) && StatusOf(c, r).Members() == Placed(c, r)
  {
    if r in c.resources {
      assert ResourceOk(c, r);
    } else {
      assert Placed(c, r) == {};
    }
  }

  lemma {:induction false} EnqueuedServable(st: Status, sent: set<Grant>, ref: Ref, readLock: bool)
    requires Servable(st, sent) && ref !in st.Members()
    requires WriteGrant(ref) !in sent && ReadGrant(ref) !in sent
    ensures Servable(Enqueued(st, ref, readLock), sent) && Enqueued(st, ref, readLock).Members() == st.Members() + {ref}
  {
  }

  lemma {:induction false} RemovedServable(st: Status, sent: set<Grant>, ref: Ref)
    requires Servable(st, sent)
    ensures Servable(Removed(st, ref), sent) && Removed(st, ref).Members() == st.Members() - {ref}
  {
  }

  lemma {:induction false} PlacedAfterRequest(c: Coord, c': Coord, r: string)
    requires Numbered(c) && c'.place == c.place[c.next := r]
    requires c'.next == c.next + 1 && c.resources.Keys + {r} <= c'.resources.Keys
    ensures c.next !in Placed(c, r) && Placed(c', r) == Placed(c, r) + {c.next}
    ensures forall q :: q != r ==> Placed(c', q) == Placed(c, q)
    ensures forall a :: a in c'.place ==> a < c'.next && c'.place[a] in c'.resources
  {
  }

  lemma {:induction false} PlacedAfterRelease(c: Coord, c': Coord, ref: Ref)
    requires Numbered(c) && ref in c.place && c'.place == c.place - {ref}
    requires c'.next == c.next && c.resources.Keys <= c'.resources.Keys
    ensures Placed(c', c.place[ref]) == Placed(c, c.place[ref]) - {ref}
    ensures forall q :: q != c.place[ref] ==> Placed(c', q) == Placed(c, q)
    ensures forall a :: a in c'.place ==> a < c'.next && c'.place[a] in c'.resources
  {
  }

  lemma {:induction false} RequestInv(c: Coord, r: string, readLock: bool, pick: Option<Ref>)
    requires Inv(c) && Legal(Intended, c, Request(r, readLock), pick)
    ensures Inv(Apply(c, Request(r, readLock), pick))
  {
    var c' := Apply(c, Request(r, readLock), pick);
    StatusServable(c, r);
    PlacedAfterRequest(c, c', r);
    EnqueuedServable(StatusOf(c, r), c.sent, c.next, readLock);
    ServeInv(c, c', r, Enqueued(StatusOf(c, r), c.next, readLock), pick);
  }

  lemma {:induction false} ReleaseInv(c: Coord, ref: Ref, pick: Option<Ref>)
    requires Inv(c) && Legal(Intended, c, Release(ref), pick)
    ensures Inv(Apply(c, Release(ref), pick))
  {
    if ref in c.place {
      var r, c' := c.place[ref], Apply(c, Release(ref), pick);
      StatusServable(c, r);
      RemovedServable(StatusOf(c, r), c.sent, ref);
      PlacedAfterRelease(c, c', ref);
      ServeInv(c, c', r, Removed(StatusOf(c, r), ref), pick);
    }
  }

  lemma {:induction false} StepInv(c: Coord, ev: Event, pick: Option<Ref>)
    requires Inv(c) && Legal(Intended, c, ev, pick)
    ensures Inv(Apply(c, ev, pick))
  {
    match ev
    case Request(r, readLock) => RequestInv(c, r, readLock, pick);
    case Release(ref) => ReleaseInv(c, ref, pick);
  }

  lemma {:induction false} FromInv(c: Coord, moves: seq<Move>)
    requires Inv(c) && From(Intended, c, moves).Some?
    ensures Inv(From(Intended, c, moves).value)
  {
    if moves != [] {
      var n := |moves| - 1;
      FromInv(c, moves[..n]);
      StepInv(From(Intended, c, moves[..n]).value, moves[n].event, moves[n].pick);
    }
  }

  /** With the intended guard the invariant holds after every run. */
  lemma {:induction false} RunInv(moves: seq<Move>)
    requires Run(Intended, moves).Some?
    ensures Inv(Run(Intended, moves).value)
  {
    FromInv(START, moves);
  }
}
