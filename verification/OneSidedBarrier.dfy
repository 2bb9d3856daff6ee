/** The one-sided barrier by which the chief waits for the other trial containers, with its
    timed polling.  Time is a real number of seconds.  What the peers do is a parameter: for each
    connection, how much time passes before the clock is read and how long after that the next
    message arrives, if ever. */
module OneSidedBarrier {
  import opened Wrappers

  datatype Obj = OneSided(message: int) | Foreign

  datatype Arrival = Arrival(delay: real, obj: Obj)

  datatype Turn = Turn(gap: real, arrival: Option<Arrival>)

  datatype Outcome = Returned(messages: seq<int>) | Raised | Hung

  predicate Timed(t: Turn) {
    t.gap >= 0.0 && (t.arrival.Some? ==> t.arrival.value.delay >= 0.0)
  }

  predicate AllTimed(turns: seq<Turn>) {
    forall i :: 0 <= i < |turns| ==> Timed(turns[i])
  }

  /** Python's `int` on a float: toward zero. */
  function Truncate(x: real): int {
    if x >= 0.0 then x.Floor else -((-x).Floor)
  }

  /** The poll's time-out in milliseconds.  A deadline of exactly 0.0 is falsy, like `None`. */
  function PollMillis(deadline: Option<real>, now: real): int {
    var timeout := if deadline.None? || deadline.value == 0.0 then 1000 else Truncate(deadline.value - now) * 1000;
    if timeout > 100 then timeout else 100
  }

  function PollSeconds(deadline: Option<real>, now: real): real {
    PollMillis(deadline, now) as real / 1000.0
  }

  lemma {:induction false} PollSecondsFacts(deadline: real, now: real)
    ensures PollSeconds(Some(deadline), now) ==
            if deadline == 0.0 then 1.0
            else if deadline - now >= 1.0 then Truncate(deadline - now) as real
            else 0.1
  {
  }

  /** The poll made at `now` finds a message within its time-out. */
  predicate InTime(deadline: real, now: real, t: Turn) {
    t.arrival.Some? && t.arrival.value.delay <= PollSeconds(Some(deadline), now + t.gap)
  }

  /** What that poll costs: the wait for the message, or the whole time-out. */
  function PollCost(deadline: real, now: real, t: Turn): real {
    if InTime(deadline, now, t) then t.arrival.value.delay else PollSeconds(Some(deadline), now + t.gap)
  }

  predicate Proper(t: Turn) {
    t.arrival.Some? && t.arrival.value.obj.OneSided?
  }

  /** The wait at `now` brings a message. */
  predicate Comes(deadline: Option<real>, now: real, t: Turn) {
    t.arrival.Some? && (deadline.Some? ==> InTime(deadline.value, now, t))
  }

  /** The clock after the first `k` turns, all of which received a message. */
  function ClockAfter(start: real, turns: seq<Turn>, k: nat): real
    requires k <= |turns| && forall j :: 0 <= j < k ==> turns[j].arrival.Some?
  {
    if k == 0 then start else ClockAfter(start, turns, k - 1) + turns[k - 1].gap + turns[k - 1].arrival.value.delay
  }

  /** The first `k` connections are served: each sends a barrier message, and in time if there is
      a deadline. */
  predicate Served(start: real, deadline: Option<real>, turns: seq<Turn>, k: nat)
    requires k <= |turns|
  {
    && (forall j :: 0 <= j < k ==> Proper(turns[j]))
    && (forall j :: 0 <= j < k ==> Comes(deadline, ClockAfter(start, turns, j), turns[j]))
  }

  function Messages(turns: seq<Turn>, k: nat): seq<int>
    requires k <= |turns| && forall j :: 0 <= j < k ==> Proper(turns[j])
  {
    if k == 0 then []
    else assert Proper(turns[k - 1]); Messages(turns, k - 1) + [turns[k - 1].arrival.value.obj.message]
  }

  function Replies(message: int, k: nat): seq<Obj> {
    if k == 0 then [] else Replies(message, k - 1) + [OneSided(message)]
  }

  /** A missing or zero time-out is no deadline. */
  function Deadline(start: real, timeout: Option<int>): Option<real> {
    if timeout.Some? && timeout.value != 0 then Some(start + timeout.value as real) else None
  }

  /** How a barrier over `n` connections may end after serving `k` of them. */
  predicate Ends(start: real, deadline: Option<real>, turns: seq<Turn>, n: nat, k: nat, r: Outcome)
    requires k <= n <= |turns|
  {
    && Served(start, deadline, turns, k)
    && match r
       case Returned(ms) =>
         && ms == Messages(turns, k)
         && (k < n ==> deadline.Some? && !Comes(deadline, ClockAfter(start, turns, k), turns[k]))
       case Raised => k < n && Comes(deadline, ClockAfter(start, turns, k), turns[k]) && !Proper(turns[k])
       case Hung => k < n && deadline.None? && turns[k].arrival.None?
  }

  /** The peers' behaviour leaves one way to end. */
  lemma {:induction false} EndsOneWay(start: real, deadline: Option<real>, turns: seq<Turn>, n: nat, k: nat, r: Outcome, k': nat, r': Outcome)
    requires k <= n <= |turns| && k' <= n
    requires Ends(start, deadline, turns, n, k, r) && Ends(start, deadline, turns, n, k', r')
    ensures k == k' && r == r'
  {
  }

  /** The wait for the first `k` messages. */
  function Waited(turns: seq<Turn>, k: nat): real
    requires k <= |turns| && forall j :: 0 <= j < k ==> turns[j].arrival.Some?
  {
    if k == 0 then 0.0 else Waited(turns, k - 1) + turns[k - 1].arrival.value.delay
  }

  /** The polling time after serving `k` connections. */
  function CostSoFar(deadline: Option<real>, turns: seq<Turn>, k: nat): real
    requires k <= |turns| && forall j :: 0 <= j < k ==> turns[j].arrival.Some?
  {
    if deadline.None? then 0.0 else Waited(turns, k)
  }

  /** What waiting for one connection brings: its message, a foreign one, or nothing. */
  datatype Wait = Got(message: int) | Wrong | Missed

  function WaitFor(deadline: Option<real>, now: real, t: Turn): Wait {
    if !Comes(deadline, now, t) then Missed
    else if Proper(t) then Got(t.arrival.value.obj.message)
    else Wrong
  }

  function WaitCost(deadline: Option<real>, now: real, t: Turn): real {
    if deadline.None? then 0.0 else PollCost(deadline.value, now, t)
  }

  /** The connection that is not served decides how the barrier ends, and adds its wait. */
  lemma {:induction false} StopsHere(start: real, deadline: Option<real>, turns: seq<Turn>, n: nat, k: nat, w: Wait, r: Outcome)
    requires k < n <= |turns| && Served(start, deadline, turns, k)
    requires w == WaitFor(deadline, ClockAfter(start, turns, k), turns[k]) && !w.Got?
    requires r == if w.Wrong? then Raised else if deadline.Some? then Returned(Messages(turns, k)) else Hung
    ensures Ends(start, deadline, turns, n, k, r)
    ensures Cost(start, deadline, turns, n, k) ==
            CostSoFar(deadline, turns, k) + WaitCost(deadline, ClockAfter(start, turns, k), turns[k])
  {
  }

  lemma {:induction false} ServeOne(start: real, deadline: Option<real>, turns: seq<Turn>, k: nat)
    requires k < |turns| && Served(start, deadline, turns, k) && Proper(turns[k])
    requires Comes(deadline, ClockAfter(start, turns, k), turns[k])
    ensures Served(start, deadline, turns, k + 1)
  {
  }

  lemma {:induction false} ServedCost(deadline: Option<real>, now: real, turns: seq<Turn>, k: nat)
    requires k < |turns| && (forall j :: 0 <= j <= k ==> turns[j].arrival.Some?) && Comes(deadline, now, turns[k])
    ensures CostSoFar(deadline, turns, k + 1) == CostSoFar(deadline, turns, k) + WaitCost(deadline, now, turns[k])
  {
  }

  /** What the barrier has done so far: the time, the replies, the messages and the polling. */
  datatype Tally = Tally(clock: real, sent: seq<Obj>, messages: seq<int>, polled: real)

  predicate Done(start: Tally, deadline: Option<real>, turns: seq<Turn>, reply: int, k: nat, now: Tally)
    requires k <= |turns|
  {
    && Served(start.clock, deadline, turns, k)
    && now == Tally(ClockAfter(start.clock, turns, k), start.sent + Replies(reply, k), Messages(turns, k),
                    start.polled + CostSoFar(deadline, turns, k))
  }

  function Grown(now: Tally, deadline: Option<real>, t: Turn, reply: int): Tally
    requires Proper(t)
  {
    Tally(now.clock + t.gap + t.arrival.value.delay, now.sent + [OneSided(reply)],
          now.messages + [t.arrival.value.obj.message], now.polled + WaitCost(deadline, now.clock, t))
  }

  /** A served connection adds its message, its reply and its wait. */
  lemma {:induction false} DoneNext(start: Tally, deadline: Option<real>, turns: seq<Turn>, reply: int, k: nat, now: Tally)
    requires k < |turns| && Done(start, deadline, turns, reply, k, now)
    requires Proper(turns[k]) && Comes(deadline, now.clock, turns[k])
    ensures Done(start, deadline, turns, reply, k + 1, Grown(now, deadline, turns[k], reply))
  {
    ServeOne(start.clock, deadline, turns, k);
    assert start.sent + Replies(reply, k) + [OneSided(reply)] == start.sent + Replies(reply, k + 1);
    assert CostSoFar(deadline, turns, k + 1) == CostSoFar(deadline, turns, k) + WaitCost(deadline, now.clock, turns[k]) by {
      ServedCost(deadline, now.clock, turns, k);
    }
  }

  /** The polling time of a barrier that ends after serving `k` of `n` connections. */
  function Cost(start: real, deadline: Option<real>, turns: seq<Turn>, n: nat, k: nat): real
    requires k <= n <= |turns| && forall j :: 0 <= j < k ==> turns[j].arrival.Some?
  {
    if deadline.None? then 0.0
    else Waited(turns, k) + if k < n then PollCost(deadline.value, ClockAfter(start, turns, k), turns[k]) else 0.0
  }

  /** What a deadline allows to be spent after serving `k` connections. */
  function Budget(start: real, deadline: real, k: nat): real {
    (if deadline > start then deadline - start else 0.0) + k as real * 0.1
  }

  /** A message caught by a poll took at most 0.1 s, or came by the deadline. */
  lemma {:induction false} CaughtByDeadline(deadline: real, now: real, t: Turn)
    requires deadline != 0.0 && InTime(deadline, now, t)
    ensures t.arrival.value.delay <= 0.1 || now + t.gap + t.arrival.value.delay <= deadline
  {
    PollSecondsFacts(deadline, now + t.gap);
  }

  lemma {:induction false} WaitedElapsed(start: real, turns: seq<Turn>, k: nat)
    requires k <= |turns| && AllTimed(turns) && forall j :: 0 <= j < k ==> turns[j].arrival.Some?
    ensures start + Waited(turns, k) <= ClockAfter(start, turns, k)
  {
    if k > 0 {
      WaitedElapsed(start, turns, k - 1);
      assert Timed(turns[k - 1]);
    }
  }

  lemma {:induction false} LastWait(start: real, deadline: real, turns: seq<Turn>, k: nat)
    requires 0 < k <= |turns| && deadline != 0.0 && Served(start, Some(deadline), turns, k)
    ensures turns[k - 1].arrival.value.delay <= 0.1 || ClockAfter(start, turns, k) <= deadline
  {
    assert Comes(Some(deadline), ClockAfter(start, turns, k - 1), turns[k - 1]);
    CaughtByDeadline(deadline, ClockAfter(start, turns, k - 1), turns[k - 1]);
  }

  /** One more wait: by the deadline the elapsed time bounds the total, otherwise it took 0.1 s. */
  lemma {:induction false} BudgetNext(start: real, deadline: real, turns: seq<Turn>, k: nat)
    requires 0 < k <= |turns| && AllTimed(turns) && forall j :: 0 <= j < k ==> turns[j].arrival.Some?
    requires Waited(turns, k - 1) <= Budget(start, deadline, k - 1)
    requires turns[k - 1].arrival.value.delay <= 0.1 || ClockAfter(start, turns, k) <= deadline
    ensures Waited(turns, k) <= Budget(start, deadline, k)
  {
    WaitedElapsed(start, turns, k);
  }

  /** Waiting so far stays within the budget. */
  lemma {:induction false} WaitedBounded(start: real, deadline: real, turns: seq<Turn>, k: nat)
    requires k <= |turns| && AllTimed(turns) && deadline != 0.0 && Served(start, Some(deadline), turns, k)
    ensures Waited(turns, k) <= Budget(start, deadline, k)
  {
    if k > 0 {
      WaitedBounded(start, deadline, turns, k - 1);
      LastWait(start, deadline, turns, k);
      BudgetNext(start, deadline, turns, k);
    }
  }

  lemma {:induction false} CostBounded(start: real, deadline: real, turns: seq<Turn>, n: nat, k: nat)
    requires k <= n <= |turns| && AllTimed(turns) && deadline != 0.0 && Served(start, Some(deadline), turns, k)
    ensures Cost(start, Some(deadline), turns, n, k) <= Budget(start, deadline, n)
  {
    WaitedBounded(start, deadline, turns, k);
    WaitedElapsed(start, turns, k);
    if k < n {
      var t, now := turns[k], ClockAfter(start, turns, k);
      assert Timed(t);
      PollSecondsFacts(deadline, now + t.gap);
    }
  }

  function SlowTurns(n: nat): seq<Turn> {
    seq(n, _ => Turn(0.0, Some(Arrival(1.0, OneSided(0)))))
  }

  lemma {:induction false} SlowTurnComes(now: real, t: Turn)
    requires t == Turn(0.0, Some(Arrival(1.0, OneSided(0))))
    ensures Proper(t) && Comes(Some(0.0), now, t)
  {
    PollSecondsFacts(0.0, now + t.gap);
  }

  lemma {:induction false} SlowTurnsServed(start: real, turns: seq<Turn>, k: nat)
    requires k <= |turns| && turns == SlowTurns(|turns|)
    ensures Served(start, Some(0.0), turns, k)
  {
    if k > 0 {
      SlowTurnsServed(start, turns, k - 1);
      SlowTurnComes(ClockAfter(start, turns, k - 1), turns[k - 1]);
      ServeOne(start, Some(0.0), turns, k - 1);
    }
  }

  lemma {:induction false} SlowTurnsWaited(turns: seq<Turn>, k: nat)
    requires k <= |turns| && forall i :: 0 <= i < |turns| ==> turns[i].arrival == Some(Arrival(1.0, OneSided(0)))
    ensures Waited(turns, k) == k as real
  {
    if k > 0 { SlowTurnsWaited(turns, k - 1); }
  }

  /** What a time-out promises: itself, if it is positive, and 0.1 s for each of `n` connections. */
  function Promised(timeout: int, n: nat): real {
    (if timeout > 0 then timeout as real else 0.0) + n as real * 0.1
  }

  /** Every timed barrier that starts at `start` keeps the promise. */
  ghost predicate AlwaysWithinBudget(start: real, timeout: int, n: nat) {
    forall turns: seq<Turn>, k: nat, r: Outcome
      | |turns| == n && AllTimed(turns) && k <= n && Ends(start, Deadline(start, Some(timeout)), turns, n, k, r) ::
      Cost(start, Deadline(start, Some(timeout)), turns, n, k) <= Promised(timeout, n)
  }

  /** The time budget, exactly: with a clock that is not before the epoch, every run of the timed
      barrier polls for at most its time-out and 0.1 s per connection if and only if the deadline
      is not the instant 0.0, which the code takes for no deadline (and which only a negative
      time-out can reach). */
  lemma {:induction false} PollingBudget(start: real, timeout: int, n: nat)
    requires start >= 0.0 && timeout != 0 && n > 0
    ensures AlwaysWithinBudget(start, timeout, n) <==> start + timeout as real != 0.0
  {
    var deadline := start + timeout as real;
    assert Deadline(start, Some(timeout)) == Some(deadline);
    if deadline == 0.0 {
      var turns := SlowTurns(n);
      SlowTurnsServed(start, turns, n);
      SlowTurnsWaited(turns, n);
      assert AllTimed(turns) && Ends(start, Some(deadline), turns, n, n, Returned(Messages(turns, n)));
      assert Cost(start, Some(deadline), turns, n, n) == n as real;
    } else {
      forall turns: seq<Turn>, k: nat, r: Outcome | |turns| == n && AllTimed(turns) && k <= n
          && Ends(start, Some(deadline), turns, n, k, r)
        ensures Cost(start, Some(deadline), turns, n, k) <= Promised(timeout, n)
      {
        CostBounded(start, deadline, turns, n, k);
      }
    }
  }

  /** The time-out is not cut short either: without one, or with a zero one, the barrier does not poll;
      with a whole number of seconds the first wait lasts exactly as long, if the clock is read at
      once. */
  lemma {:induction false} TimeoutExactly(start: real, timeout: int, t: Turn)
    requires Timed(t) && t.gap == 0.0 && start >= 0.0
    ensures Deadline(start, None) == None && Deadline(start, Some(0)) == None
    ensures timeout > 0 ==>
              (Comes(Deadline(start, Some(timeout)), start, t) <==> t.arrival.Some? && t.arrival.value.delay <= timeout as real)
  {
    if timeout > 0 { PollSecondsFacts(start + timeout as real, start); }
  }

  /** The whole seconds in a nonnegative duration, and the number with the opposite sign for a negative
      one. */
  lemma {:induction false} TruncateExactly(x: real)
    ensures x >= 0.0 ==> Truncate(x) as real <= x < Truncate(x) as real + 1.0
    ensures Truncate(-x) == -Truncate(x)
  {
  }

  /** The messages returned are those of the served connections, in order, and each got one reply. */
  lemma {:induction false} MessagesExactly(turns: seq<Turn>, message: int, k: nat)
    requires k <= |turns| && forall j :: 0 <= j < k ==> Proper(turns[j])
    ensures |Messages(turns, k)| == k == |Replies(message, k)|
    ensures forall j :: 0 <= j < k ==> turns[j].arrival.value.obj == OneSided(Messages(turns, k)[j])
    ensures forall j :: 0 <= j < k ==> Replies(message, k)[j] == OneSided(message)
  {
    if k > 0 {
      MessagesExactly(turns, message, k - 1);
      assert Proper(turns[k - 1]);
    }
  }

  /** A poll catches every message that arrives by the deadline exactly when the remaining time is
      a whole number of seconds or at most 0.1 s: otherwise truncation gives up early. */
  lemma {:induction false} DeadlineHonoured(deadline: real, now: real)
    requires deadline != 0.0
    ensures (forall t: Turn | Timed(t) && t.gap == 0.0 && t.arrival.Some? && now + t.arrival.value.delay <= deadline ::
              InTime(deadline, now, t))
            <==> deadline - now <= 0.1 || deadline - now == Truncate(deadline - now) as real
  {
    PollSecondsFacts(deadline, now);
    var left := deadline - now;
    if left > 0.1 && left != Truncate(left) as real {
      var t := Turn(0.0, Some(Arrival(left, OneSided(0))));
      assert Timed(t) && !InTime(deadline, now, t);
    }
  }

  class Server {
    /** Replies sent on socket 0, and the number of sockets that were bound. */
    var sent: seq<Obj>
    const sockets: nat

    /** The clock, and the time spent in timed polls. */
    var clock: real
    var polled: real

    constructor (sockets: nat, now: real)
      ensures this.sockets == sockets && clock == now && sent == [] && polled == 0.0
    {
      this.sockets := sockets;
      sent, clock, polled := [], now, 0.0;
    }

    /** A receive that polls: it finds the message that arrives within the time-out, or waits the
        whole time-out for nothing. */
    method ReceiveNonBlocking(rank: nat, deadline: Option<real>, turn: Turn)
      returns (r: Result<Option<Obj>, string>)
      modifies this`clock, this`polled
      ensures r.Failure? <==> rank >= sockets
      ensures r.Failure? ==> clock == old(clock) && polled == old(polled)
      ensures r.Success? ==>
        var limit := PollSeconds(deadline, old(clock) + turn.gap);
        && (r.value.Some? <==> turn.arrival.Some? && turn.arrival.value.delay <= limit)
        && (r.value.Some? ==> r.value.value == turn.arrival.value.obj)
        && polled == old(polled) + (if r.value.Some? then turn.arrival.value.delay else limit)
        && clock == old(clock) + turn.gap + (polled - old(polled))
    {
      if rank >= sockets { return Failure("no such socket"); }
      clock := clock + turn.gap;
      var limit := PollSeconds(deadline, clock);
      if turn.arrival.None? || turn.arrival.value.delay > limit {
        clock, polled := clock + limit, polled + limit;
        return Success(None);
      }
      clock, polled := clock + turn.arrival.value.delay, polled + turn.arrival.value.delay;
      r := Success(Some(turn.arrival.value.obj));
    }

    /** The barrier's wait for its next message, timed or not; `None` if it does not come. */
    method Await(start: real, timeout: Option<int>, turn: Turn) returns (obj: Option<Obj>)
      requires sockets == 1
      modifies this`clock, this`polled
      ensures obj.Some? ==> turn.arrival.Some? && obj.value == turn.arrival.value.obj
      ensures obj.Some? ==> clock == old(clock) + turn.gap + turn.arrival.value.delay
      ensures obj.Some? <==> Comes(Deadline(start, timeout), old(clock), turn)
      ensures polled == old(polled) + WaitCost(Deadline(start, timeout), old(clock), turn)
    {
      if timeout.Some? && timeout.value != 0 {
        var got := ReceiveNonBlocking(0, Some(start + timeout.value as real), turn);
        return got.value;
      }
      if turn.arrival.None? { return None; }
      clock := clock + turn.gap + turn.arrival.value.delay;
      obj := Some(turn.arrival.value.obj);
    }

    /** One connection: wait for its message, check it and reply to it. */
    method Serve(start: real, timeout: Option<int>, turn: Turn, message: int) returns (w: Wait)
      requires sockets == 1
      modifies this
      ensures w == WaitFor(Deadline(start, timeout), old(clock), turn)
      ensures w.Got? ==> clock == old(clock) + turn.gap + turn.arrival.value.delay
      ensures polled == old(polled) + WaitCost(Deadline(start, timeout), old(clock), turn)
      ensures sent == old(sent) + (if w.Got? then [OneSided(message)] else [])
    {
      var obj := Await(start, timeout, turn);
      if obj.None? { return Missed; }
      if obj.value.Foreign? { return Wrong; }
      sent := sent + [OneSided(message)];
      w := Got(obj.value.message);
    }

    /** The barrier.  It returns the messages of the longest served prefix of the connections and
        has replied to exactly those; a short result means the next poll expired, a raise that the
        next message is foreign (or that there is not exactly one socket), and only the untimed
        form can hang, on a peer that never sends. */
    method Barrier(connections: int, message: int, timeout: Option<int>, turns: seq<Turn>)
      returns (r: Outcome, ghost k: nat)
      requires connections <= |turns|
      modifies this
      ensures sockets != 1 ==> r == Raised && sent == old(sent) && polled == old(polled)
      ensures sockets == 1 ==>
        var n: nat := if connections > 0 then connections else 0;
        var deadline := Deadline(old(clock), timeout);
        && k <= n && Ends(old(clock), deadline, turns, n, k, r) && sent == old(sent) + Replies(message, k)
        && polled == old(polled) + Cost(old(clock), deadline, turns, n, k)
    {
      if sockets != 1 { return Raised, 0; }
      var messages: seq<int> := [];
      var start := clock;
      ghost var n: nat := if connections > 0 then connections else 0;
      ghost var deadline, before := Deadline(start, timeout), Tally(clock, sent, [], polled);
      var i: nat := 0;
      while i < connections
        invariant i <= n && Done(before, deadline, turns, message, i, Tally(clock, sent, messages, polled))
      {
        ghost var now := Tally(clock, sent, messages, polled);
        var w := Serve(start, timeout, turns[i], message);
        if !w.Got? {
          r := if w.Wrong? then Raised else if timeout.Some? && timeout.value != 0 then Returned(messages) else Hung;
          StopsHere(start, deadline, turns, n, i, w, r);
          return r, i;
        }
        DoneNext(before, deadline, turns, message, i, now);
        messages := messages + [w.message];
        i := i + 1;
      }
      r, k := Returned(messages), i;
    }
  }
}
