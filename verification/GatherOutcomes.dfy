/** Exactly how a gather ends, in terms of what the polls found and of nothing else. */
module GatherOutcomes {
  import opened Ipc

  /** The messages of a poll history, in order. */
  function Arrivals(polls: seq<Poll>): seq<Wire> {
    if polls == [] then []
    else
      var n := |polls| - 1;
      Arrivals(polls[..n]) + (if polls[n].Ready? then [polls[n].message] else [])
  }

  predicate Healthy(polls: seq<Poll>) {
    forall i :: 0 <= i < |polls| ==> polls[i] != Timeout(false)
  }

  predicate Carries(serial: nat, ms: seq<Wire>) {
    forall i :: 0 <= i < |ms| ==> ms[i].Serial? && ms[i].serial == serial
  }

  function Payloads(serial: nat, ms: seq<Wire>): (r: seq<PyObj>)
    requires Carries(serial, ms)
    ensures |r| == |ms|
  {
    seq(|ms|, i requires 0 <= i < |ms| => ms[i].payload)
  }

  /** A failed health check, or a message that is neither the exception marker nor in step. */
  predicate Bad(serial: nat, p: Poll) {
    match p
    case Timeout(healthy) => !healthy
    case Ready(m) => !m.Exception? && !(m.Serial? && m.serial == serial)
  }

  /** The gather is still going after `i` polls: every check passed, every message was in step, and
      there were never enough of them before. */
  predicate Going(n: nat, serial: nat, polls: seq<Poll>, i: nat) {
    && i <= |polls| && Healthy(polls[..i]) && Carries(serial, Arrivals(polls[..i]))
    && forall j :: 0 <= j < i ==> |Arrivals(polls[..j])| < n
  }

  /** How the gather ends at poll `i`. */
  predicate EndsAt(n: nat, serial: nat, polls: seq<Poll>, i: nat, g: Gathering) {
    Going(n, serial, polls, i) &&
    var got := Payloads(serial, Arrivals(polls[..i]));
    match g
    case Returned(ms, false) => |got| >= n && ms == got
    case Returned(ms, true) => |got| < n && i < |polls| && polls[i] == Ready(Exception) && ms == got + [PyNone]
    case Aborted => |got| < n && i < |polls| && Bad(serial, polls[i])
    case Polling(so_far) => |got| < n && i == |polls| && so_far == got
  }

  lemma {:induction false} ArrivalsNext(polls: seq<Poll>, i: nat)
    requires i < |polls|
    ensures Arrivals(polls[..i + 1]) == Arrivals(polls[..i]) + (if polls[i].Ready? then [polls[i].message] else [])
  {
    assert polls[..i + 1][..i] == polls[..i];
  }

  /** One more poll that neither fails nor ends the gather. */
  lemma {:induction false} GoesOn(n: nat, serial: nat, polls: seq<Poll>, i: nat)
    requires Going(n, serial, polls, i) && i < |polls| && |Arrivals(polls[..i])| < n
    requires !Bad(serial, polls[i]) && polls[i] != Ready(Exception)
    ensures Going(n, serial, polls, i + 1)
    ensures Payloads(serial, Arrivals(polls[..i + 1])) == Payloads(serial, Arrivals(polls[..i])) +
            (if polls[i].Ready? then [polls[i].message.payload] else [])
  {
    ArrivalsNext(polls, i);
  }

  /** The loop, seen from its `i`-th iteration, ends as the polls from there on say. */
  lemma {:induction false} EndFrom(n: nat, serial: nat, polls: seq<Poll>, i: nat) returns (at: nat)
    requires Going(n, serial, polls, i)
    ensures EndsAt(n, serial, polls, at, Gather(n, serial, Payloads(serial, Arrivals(polls[..i])), polls[i..]))
    decreases |polls| - i
  {
    at := i;
    var got := Payloads(serial, Arrivals(polls[..i]));
    if |got| < n && i < |polls| && !Bad(serial, polls[i]) && polls[i] != Ready(Exception) {
      GoesOn(n, serial, polls, i);
      at := EndFrom(n, serial, polls, i + 1);
      assert polls[i..][1..] == polls[i + 1..];
      if !polls[i].Ready? { assert got + [] == got; }
    }
  }

  /** The polls leave one way to end. */
  lemma {:induction false} OneEnd(n: nat, serial: nat, polls: seq<Poll>, i: nat, g: Gathering, k: nat, h: Gathering)
    requires EndsAt(n, serial, polls, i, g) && EndsAt(n, serial, polls, k, h)
    ensures g == h
  {
    if i < k { PassedPoll(n, serial, polls, i, k); }
    if k < i { PassedPoll(n, serial, polls, k, i); }
  }

  /** A poll the gather has gone past did not end it. */
  lemma {:induction false} PassedPoll(n: nat, serial: nat, polls: seq<Poll>, i: nat, k: nat)
    requires i < k && Going(n, serial, polls, k)
    ensures |Arrivals(polls[..i])| < n && !Bad(serial, polls[i]) && polls[i] != Ready(Exception)
  {
    ArrivalsNext(polls, i);
    ArrivalsPrefix(polls, i + 1, k);
    assert polls[..k][i] == polls[i];
    if polls[i].Ready? {
      assert Arrivals(polls[..k])[|Arrivals(polls[..i])|] == polls[i].message;
    }
  }

  lemma {:induction false} ArrivalsPrefix(polls: seq<Poll>, i: nat, k: nat)
    requires i <= k <= |polls|
    ensures Arrivals(polls[..i]) <= Arrivals(polls[..k])
    decreases k - i
  {
    if i < k {
      ArrivalsPrefix(polls, i, k - 1);
      ArrivalsNext(polls, k - 1);
    }
  }

  /** A gather ends as `g` exactly when its polls say so at some point. */
  lemma {:induction false} GatherExactly(n: nat, serial: nat, polls: seq<Poll>, g: Gathering)
    ensures Gather(n, serial, [], polls) == g <==> exists i: nat :: EndsAt(n, serial, polls, i, g)
  {
    assert polls[..0] == [] && polls[0..] == polls;
    assert Payloads(serial, Arrivals([])) == [];
    var at := EndFrom(n, serial, polls, 0);
    if i: nat :| EndsAt(n, serial, polls, i, g) { OneEnd(n, serial, polls, i, g, at, Gather(n, serial, [], polls)); }
  }

  /** Fewer than `n` messages have arrived, and all of them in step. */
  predicate Waiting(n: nat, serial: nat, polls: seq<Poll>, i: nat) {
    i < |polls| && |Arrivals(polls[..i])| < n && Carries(serial, Arrivals(polls[..i]))
  }

  lemma {:induction false} FirstBad(n: nat, serial: nat, polls: seq<Poll>, i: nat) returns (at: nat)
    requires Waiting(n, serial, polls, i) && Bad(serial, polls[i])
    ensures EndsAt(n, serial, polls, at, Aborted)
    decreases i
  {
    forall j | 0 <= j < i ensures |Arrivals(polls[..j])| < n && Carries(serial, Arrivals(polls[..j])) {
      ArrivalsPrefix(polls, j, i);
    }
    if j :| 0 <= j < i && polls[j] == Timeout(false) {
      at := FirstBad(n, serial, polls, j);
    } else {
      at := i;
    }
  }

  /** A gather raises exactly when, while it still waits for messages and all so far were in step, a
      health check fails or a message arrives that is neither in step nor the exception marker. */
  lemma {:induction false} AbortsExactly(n: nat, serial: nat, polls: seq<Poll>)
    ensures Gather(n, serial, [], polls).Aborted? <==>
            exists i: nat :: Waiting(n, serial, polls, i) && Bad(serial, polls[i])
  {
    GatherExactly(n, serial, polls, Aborted);
    if i: nat :| EndsAt(n, serial, polls, i, Aborted) { assert Waiting(n, serial, polls, i); }
    if i: nat :| Waiting(n, serial, polls, i) && Bad(serial, polls[i]) { var at := FirstBad(n, serial, polls, i); }
  }

  /** The first `n` messages all carry `serial`, and `ms` are their payloads. */
  predicate InStep(n: nat, serial: nat, arrivals: seq<Wire>, ms: seq<PyObj>) {
    && |ms| == n <= |arrivals|
    && forall i :: 0 <= i < n ==> arrivals[i] == Serial(serial, ms[i])
  }

  /** A gather returns `ms` without the exception flag exactly when at some point the messages so far
      are `n` messages in step with the payloads `ms`, and no health check has failed before:
      time-outs change nothing, and no other message can be part of the result. */
  lemma {:induction false} GatherExact(n: nat, serial: nat, polls: seq<Poll>, ms: seq<PyObj>)
    ensures Gather(n, serial, [], polls) == Returned(ms, false) <==>
            exists i: nat :: i <= |polls| && Healthy(polls[..i]) && |Arrivals(polls[..i])| == n
                        && InStep(n, serial, Arrivals(polls[..i]), ms)
  {
    GatherExactly(n, serial, polls, Returned(ms, false));
    if i: nat :| EndsAt(n, serial, polls, i, Returned(ms, false)) {
      EnoughIsExact(n, serial, polls, i);
      assert InStep(n, serial, Arrivals(polls[..i]), ms);
    }
    if i: nat :| i <= |polls| && Healthy(polls[..i]) && |Arrivals(polls[..i])| == n && InStep(n, serial, Arrivals(polls[..i]), ms) {
      var at := FirstEnough(n, serial, polls, i, ms);
    }
  }

  lemma {:induction false} EnoughIsExact(n: nat, serial: nat, polls: seq<Poll>, i: nat)
    requires Going(n, serial, polls, i) && |Arrivals(polls[..i])| >= n
    ensures |Arrivals(polls[..i])| == n
  {
    if i > 0 {
      ArrivalsNext(polls, i - 1);
    } else {
      assert polls[..0] == [];
    }
  }

  lemma {:induction false} FirstEnough(n: nat, serial: nat, polls: seq<Poll>, i: nat, ms: seq<PyObj>) returns (at: nat)
    requires i <= |polls| && Healthy(polls[..i]) && |Arrivals(polls[..i])| == n && InStep(n, serial, Arrivals(polls[..i]), ms)
    ensures EndsAt(n, serial, polls, at, Returned(ms, false))
    decreases i
  {
    if i > 0 && |Arrivals(polls[..i - 1])| == n {
      ArrivalsPrefix(polls, i - 1, i);
      assert forall j :: 0 <= j < i - 1 ==> polls[..i - 1][j] == polls[..i][j];
      at := FirstEnough(n, serial, polls, i - 1, ms);
    } else {
      at := i;
      forall j | 0 <= j < i ensures |Arrivals(polls[..j])| < n {
        ArrivalsPrefix(polls, j, i - 1);
        ArrivalsPrefix(polls, i - 1, i);
      }
      assert Payloads(serial, Arrivals(polls[..i])) == ms;
    }
  }
}
