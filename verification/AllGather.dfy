/** One chief and any number of workers running a common program of barriers and all-gathers over
    the endpoints of module Ipc, with every interleaving of their steps. */
module AllGather {
  import opened Ipc
  import opened Tally
  import opened Wrappers

  datatype Round = Barrier | Allgather

  /** The common program: what each round is, and what each participant contributes to it. */
  datatype Job = Job(rounds: seq<Round>, chief: seq<PyObj>, workers: seq<seq<PyObj>>) {
    predicate WellFormed() {
      && |chief| == |rounds|
      && forall w :: 0 <= w < |workers| ==> |workers[w]| == |rounds|
    }
  }

  /** What worker `w` sends in round `k`. */
  function Sends(j: Job, w: nat, k: nat): PyObj
    requires j.WellFormed() && w < |j.workers| && k < |j.rounds|
  {
    match j.rounds[k]
    case Barrier => PyList([PyNone])
    case Allgather => j.workers[w][k]
  }

  /** What the chief broadcasts in round `k` after gathering `ms`; also its own result. */
  function Answer(j: Job, k: nat, ms: seq<PyObj>): PyObj
    requires j.WellFormed() && k < |j.rounds|
  {
    match j.rounds[k]
    case Barrier => PyNone
    case Allgather => PyList([j.chief[k]] + ms)
  }

  datatype Phase = Collecting(got: seq<PyObj>) | Holding(ms: seq<PyObj>, exception: bool) | Crashed

  /** `flags[k]` is the exception flag that round `k`'s gather returned and its caller dropped. */
  datatype Chief = Chief(phase: Phase, sendSerial: nat, recvSerial: nat, results: seq<PyObj>, flags: seq<bool>)

  datatype Life = Running | Raising | Broken

  datatype Worker = Worker(joined: bool, sent: bool, life: Life, sendSerial: nat, recvSerial: nat, results: seq<PyObj>)

  /** `up[w]` is worker w's PUSH queue (FIFO per worker, merged arbitrarily at the chief);
      `down[w]` its SUB queue. */
  datatype State = State(chief: Chief, workers: seq<Worker>, up: seq<seq<Wire>>, down: seq<seq<Wire>>)

  datatype Step =
    | Join(w: nat)            // the client is constructed: it subscribes, then connects
    | WorkerSend(w: nat)
    | WorkerRecv(w: nat)
    | WorkerRaise(w: nat)     // send_exception_message
    | ChiefTimeout            // a poll of the gather loop finds nothing
    | ChiefRecv(w: nat)       // a poll finds the head of some worker's queue
    | ChiefGathered           // the loop has all its messages
    | ChiefBroadcast

  predicate Shaped(j: Job, s: State) {
    |s.workers| == |s.up| == |s.down| == |j.workers|
  }

  function Init(j: Job): (s: State)
    ensures Shaped(j, s)
  {
    var n := |j.workers|;
    State(Chief(Collecting([]), 0, 0, [], []),
          seq(n, _ => Worker(false, false, Running, 0, 0, [])), seq(n, _ => []), seq(n, _ => []))
  }

  predicate Enabled(j: Job, s: State, step: Step)
    requires Shaped(j, s)
  {
    var n, rounds := |j.workers|, |j.rounds|;
    var collecting := s.chief.phase.Collecting? && |s.chief.results| < rounds;
    match step
    case Join(w) => w < n && !s.workers[w].joined
    case WorkerSend(w) =>
      w < n && var wk := s.workers[w];
      wk.joined && wk.life.Running? && !wk.sent && |wk.results| < rounds
    case WorkerRecv(w) =>
      w < n && s.workers[w].life.Running? && s.workers[w].sent && s.down[w] != []
    case WorkerRaise(w) => w < n && s.workers[w].joined && s.workers[w].life.Running?
    case ChiefTimeout => collecting && |s.chief.phase.got| < n
    case ChiefRecv(w) => w < n && collecting && |s.chief.phase.got| < n && s.up[w] != []
    case ChiefGathered => collecting && |s.chief.phase.got| >= n
    case ChiefBroadcast => s.chief.phase.Holding? && |s.chief.results| < rounds
  }

  /** The chief after one more turn of its gather loop. */
  function ChiefAfter(c: Chief, g: Gathering): Chief {
    match g
    case Polling(got) => c.(phase := Collecting(got))
    case Returned(ms, exception) =>
      c.(phase := Holding(ms, exception), recvSerial := if exception then c.recvSerial else c.recvSerial + 1)
    case Aborted => c.(phase := Crashed)
  }

  /** A PUB socket reaches the subscribed workers only. */
  function Publish(s: State, m: Wire): (d: seq<seq<Wire>>)
    requires |s.workers| == |s.down|
    ensures |d| == |s.down|
  {
    seq(|s.down|, w requires 0 <= w < |s.down| => if s.workers[w].joined then s.down[w] + [m] else s.down[w])
  }

  function Apply(j: Job, s: State, step: Step): (s': State)
    requires j.WellFormed() && Shaped(j, s) && Enabled(j, s, step)
    ensures Shaped(j, s')
  {
    var c := s.chief;
    match step
    case Join(w) => s.(workers := s.workers[w := s.workers[w].(joined := true)])
    case WorkerSend(w) =>
      var wk := s.workers[w];
      s.(workers := s.workers[w := wk.(sent := true, sendSerial := wk.sendSerial + 1)],
         up := s.up[w := s.up[w] + [Serial(wk.sendSerial, Sends(j, w, |wk.results|))]])
    case WorkerRecv(w) =>
      var wk := s.workers[w];
      var r := ClientReceive(wk.recvSerial, s.down[w][0]);
      var wk' := if r.Payload?
                 then wk.(sent := false, recvSerial := wk.recvSerial + 1, results := wk.results + [r.value])
                 else wk.(life := Broken);
      s.(workers := s.workers[w := wk'], down := s.down[w := s.down[w][1..]])
    case WorkerRaise(w) =>
      s.(workers := s.workers[w := s.workers[w].(life := Raising)], up := s.up[w := s.up[w] + [Exception]])
    case ChiefTimeout =>
      s.(chief := ChiefAfter(c, GatherOne(c.recvSerial, c.phase.got, Timeout(true))))
    case ChiefRecv(w) =>
      s.(chief := ChiefAfter(c, GatherOne(c.recvSerial, c.phase.got, Ready(s.up[w][0]))),
         up := s.up[w := s.up[w][1..]])
    case ChiefGathered => s.(chief := ChiefAfter(c, Returned(c.phase.got, false)))
    case ChiefBroadcast =>
      var answer := Answer(j, |c.results|, c.phase.ms);
      s.(chief := Chief(Collecting([]), c.sendSerial + 1, c.recvSerial, c.results + [answer], c.flags + [c.phase.exception]),
         down := Publish(s, Serial(c.sendSerial, answer)))
  }

  /** The state after a run, if every step of it was possible. */
  function Run(j: Job, steps: seq<Step>): (r: Option<State>)
    requires j.WellFormed()
    ensures r.Some? ==> Shaped(j, r.value)
  {
    if steps == [] then Some(Init(j))
    else
      var n := |steps| - 1;
      var before := Run(j, steps[..n]);
      if before.Some? && Enabled(j, before.value, steps[n]) then Some(Apply(j, before.value, steps[n])) else None
  }

  // ----- the invariant

  /** The unread messages of worker `w` other than a trailing exception marker. */
  function Unread(s: State, w: nat): seq<Wire>
    requires |s.workers| == |s.up| && w < |s.up|
  {
    if s.workers[w].life.Raising? && s.up[w] != [] then s.up[w][..|s.up[w]| - 1] else s.up[w]
  }

  /** No gather has been handed an exception marker so far. */
  predicate Quiet(c: Chief) {
    && (forall k :: 0 <= k < |c.flags| ==> !c.flags[k])
    && !(c.phase.Holding? && c.phase.exception)
  }

  /** The chief has taken worker `w`'s message of the current round. */
  predicate Taken(s: State, w: nat)
    requires |s.workers| == |s.up| && w < |s.up|
  {
    s.workers[w].sent && |s.workers[w].results| == |s.chief.results| && Unread(s, w) == []
  }

  function TakenMarks(s: State): (marks: seq<bool>)
    requires |s.workers| == |s.up|
    ensures |marks| == |s.workers|
  {
    seq(|s.workers|, w requires 0 <= w < |s.workers| => Taken(s, w))
  }

  /** Every worker's round-`k` message. */
  function Column(j: Job, k: nat): (col: seq<PyObj>)
    requires j.WellFormed() && k < |j.rounds|
    ensures |col| == |j.workers|
  {
    seq(|j.workers|, w requires 0 <= w < |j.workers| => Sends(j, w, k))
  }

  /** Worker `w` is in step with the chief: it is in the chief's round, or one behind with the
      chief's last answer waiting for it, and it has at most one unread message either way. */
  predicate InStepWith(j: Job, s: State, w: nat)
    requires j.WellFormed() && Shaped(j, s) && w < |s.workers|
  {
    var wk, c, r := s.workers[w], |s.chief.results|, |s.workers[w].results|;
    && !wk.life.Broken?
    && (wk.life.Raising? ==> s.up[w] != [] && s.up[w][|s.up[w]| - 1] == Exception)
    && wk.sendSerial == r + (if wk.sent then 1 else 0)
    && (!wk.joined ==> r == 0 && !wk.sent && wk.life.Running?)
    && (wk.sent ==> r < |j.rounds|)
    && (if r == c then
          && s.down[w] == []
          && (Unread(s, w) == [] || (wk.sent && Unread(s, w) == [Serial(c, Sends(j, w, c))]))
        else
          && r == c - 1 && wk.sent && Unread(s, w) == []
          && s.down[w] == [Serial(r, s.chief.results[r])])
  }

  predicate ChiefInStep(j: Job, s: State)
    requires j.WellFormed() && Shaped(j, s)
  {
    var c := |s.chief.results|;
    && s.chief.recvSerial == c + (if s.chief.phase.Holding? then 1 else 0)
    && c <= |j.rounds|
    && match s.chief.phase
       case Crashed => false
       case Collecting(got) =>
         if c == |j.rounds| then got == [] else multiset(got) == Marked(TakenMarks(s), Column(j, c))
       case Holding(ms, _) =>
         && c < |j.rounds| && multiset(ms) == multiset(Column(j, c))
         && forall w :: 0 <= w < |s.workers| ==> Taken(s, w)
  }

  /** What holds as long as no exception marker has been read. */
  predicate Synchronised(j: Job, s: State)
    requires j.WellFormed() && Shaped(j, s)
  {
    ChiefInStep(j, s) && forall w :: 0 <= w < |s.workers| ==> InStepWith(j, s, w)
  }

  /** Everything a worker has accepted, or will be offered, is the chief's own result for the
      round its serial names. */
  predicate AgreesWith(s: State, w: nat)
    requires |s.workers| == |s.down| && w < |s.workers|
  {
    var wk, results := s.workers[w], s.chief.results;
    && wk.recvSerial == |wk.results|
    && wk.results <= results
    && forall i :: 0 <= i < |s.down[w]| ==>
         s.down[w][i].Serial? && s.down[w][i].serial < |results| && s.down[w][i].payload == results[s.down[w][i].serial]
  }

  /** `result` is the chief's contribution followed by exactly one contribution of every worker. */
  predicate Complete(j: Job, k: nat, result: PyObj)
    requires j.WellFormed() && k < |j.rounds|
  {
    match j.rounds[k]
    case Barrier => result == PyNone
    case Allgather =>
      && result.PyList? && |result.items| == 1 + |j.workers|
      && result.items[0] == j.chief[k]
      && multiset(result.items[1..]) == multiset(Column(j, k))
  }

  /** No gather up to and including round `k` returned the exception flag. */
  predicate UnflaggedThrough(c: Chief, k: nat) {
    k < |c.flags| && forall i :: 0 <= i <= k ==> !c.flags[i]
  }

  /** What is known for good about round `k` once the chief has answered it. */
  predicate Settled(j: Job, s: State, k: nat)
    requires j.WellFormed() && Shaped(j, s) && k < |s.chief.results| <= |j.rounds|
  {
    && (UnflaggedThrough(s.chief, k) ==>
          Complete(j, k, s.chief.results[k]) && forall w :: 0 <= w < |s.workers| ==> s.workers[w].sendSerial > k)
    && (k < |s.chief.flags| && s.chief.flags[k] && j.rounds[k].Allgather? ==>
          s.chief.results[k].PyList? && s.chief.results[k].items != [] && PyNone in s.chief.results[k].items[1..])
  }

  predicate Inv(j: Job, s: State)
    requires j.WellFormed() && Shaped(j, s)
  {
    && s.chief.sendSerial == |s.chief.results| == |s.chief.flags| <= |j.rounds|
    && (s.chief.phase.Holding? && s.chief.phase.exception ==> PyNone in s.chief.phase.ms)
    && (forall w :: 0 <= w < |s.workers| ==> AgreesWith(s, w))
    && (forall k :: 0 <= k < |s.chief.results| ==> Settled(j, s, k))
    && (Quiet(s.chief) ==> Synchronised(j, s))
  }

  lemma {:induction false} InitInv(j: Job)
    requires j.WellFormed()
    ensures Inv(j, Init(j))
  {
    var s := Init(j);
    if 0 < |j.rounds| {
      MarkedNone(TakenMarks(s), Column(j, 0));
    }
    assert forall w :: 0 <= w < |s.workers| ==> InStepWith(j, s, w);
  }

  /** Nothing that is settled comes undone: answers stay, and a worker's serial only grows. */
  lemma {:induction false} SettledStays(j: Job, s: State, s': State)
    requires j.WellFormed() && Shaped(j, s) && Shaped(j, s')
    requires |s.chief.results| == |s.chief.flags| <= |s'.chief.results| <= |j.rounds|
    requires s.chief.results <= s'.chief.results && s.chief.flags <= s'.chief.flags
    requires forall w :: 0 <= w < |s.workers| ==> s.workers[w].sendSerial <= s'.workers[w].sendSerial
    requires forall k :: 0 <= k < |s.chief.results| ==> Settled(j, s, k)
    ensures forall k :: 0 <= k < |s.chief.results| ==> Settled(j, s', k)
  {
    forall k | 0 <= k < |s.chief.results| ensures Settled(j, s', k) {
      assert Settled(j, s, k);
      assert UnflaggedThrough(s'.chief, k) ==> UnflaggedThrough(s.chief, k);
    }
  }

  /** A step of worker `w` that leaves the chief and its taken messages alone. */
  lemma {:induction false} WorkerMoves(j: Job, s: State, s': State, w: nat)
    requires j.WellFormed() && Shaped(j, s) && Shaped(j, s') && Inv(j, s)
    requires w < |s.workers| && s'.chief == s.chief
    requires forall v :: 0 <= v < |s.workers| && v != w ==>
               s'.workers[v] == s.workers[v] && s'.up[v] == s.up[v] && s'.down[v] == s.down[v]
    requires s.workers[w].sendSerial <= s'.workers[w].sendSerial
    requires AgreesWith(s', w)
    requires Quiet(s.chief) ==> InStepWith(j, s', w) && Taken(s', w) == Taken(s, w)
    ensures Inv(j, s')
  {
    SettledStays(j, s, s');
    forall v | 0 <= v < |s.workers| ensures AgreesWith(s', v) {
      assert AgreesWith(s, v);
    }
    if Quiet(s.chief) {
      forall v | 0 <= v < |s.workers| ensures InStepWith(j, s', v) && Taken(s', v) == Taken(s, v) {
        assert InStepWith(j, s, v);
      }
      assert TakenMarks(s') == TakenMarks(s);
    }
  }

  lemma {:induction false} JoinInv(j: Job, s: State, w: nat)
    requires j.WellFormed() && Shaped(j, s) && Inv(j, s) && Enabled(j, s, Join(w))
    ensures Inv(j, Apply(j, s, Join(w)))
  {
    var s' := Apply(j, s, Join(w));
    assert AgreesWith(s, w);
    if Quiet(s.chief) { assert InStepWith(j, s, w); }
    WorkerMoves(j, s, s', w);
  }

  lemma {:induction false} SendInv(j: Job, s: State, w: nat)
    requires j.WellFormed() && Shaped(j, s) && Inv(j, s) && Enabled(j, s, WorkerSend(w))
    ensures Inv(j, Apply(j, s, WorkerSend(w)))
  {
    var s' := Apply(j, s, WorkerSend(w));
    assert AgreesWith(s, w);
    if Quiet(s.chief) { assert InStepWith(j, s, w); }
    WorkerMoves(j, s, s', w);
  }

  lemma {:induction false} RaiseInv(j: Job, s: State, w: nat)
    requires j.WellFormed() && Shaped(j, s) && Inv(j, s) && Enabled(j, s, WorkerRaise(w))
    ensures Inv(j, Apply(j, s, WorkerRaise(w)))
  {
    var s' := Apply(j, s, WorkerRaise(w));
    assert AgreesWith(s, w);
    if Quiet(s.chief) {
      assert InStepWith(j, s, w);
      assert Unread(s', w) == Unread(s, w);
    }
    WorkerMoves(j, s, s', w);
  }

  lemma {:induction false} RecvInv(j: Job, s: State, w: nat)
    requires j.WellFormed() && Shaped(j, s) && Inv(j, s) && Enabled(j, s, WorkerRecv(w))
    ensures Inv(j, Apply(j, s, WorkerRecv(w)))
  {
    var s' := Apply(j, s, WorkerRecv(w));
    assert AgreesWith(s, w);
    var head := s.down[w][0];
    assert head.payload == s.chief.results[head.serial];
    assert AgreesWith(s', w);
    if Quiet(s.chief) { assert InStepWith(j, s, w); }
    WorkerMoves(j, s, s', w);
  }

  /** A step of the chief's gather that answers nothing yet. */
  lemma {:induction false} ChiefMoves(j: Job, s: State, s': State)
    requires j.WellFormed() && Shaped(j, s) && Shaped(j, s') && Inv(j, s)
    requires s'.workers == s.workers && s'.down == s.down
    requires s'.chief.results == s.chief.results && s'.chief.flags == s.chief.flags
    requires s'.chief.sendSerial == s.chief.sendSerial
    requires s'.chief.phase.Holding? && s'.chief.phase.exception ==> PyNone in s'.chief.phase.ms
    requires Quiet(s'.chief) ==> Synchronised(j, s')
    ensures Inv(j, s')
  {
    SettledStays(j, s, s');
    forall v | 0 <= v < |s.workers| ensures AgreesWith(s', v) {
      assert AgreesWith(s, v);
    }
  }

  /** If no marker is read, the message taken is this round's message of a worker not taken before. */
  lemma {:induction false} RecvTakes(j: Job, s: State, w: nat)
    requires j.WellFormed() && Shaped(j, s) && Inv(j, s) && Enabled(j, s, ChiefRecv(w))
    requires Quiet(Apply(j, s, ChiefRecv(w)).chief)
    ensures var s', c := Apply(j, s, ChiefRecv(w)), |s.chief.results|;
            && !Taken(s, w) && s'.chief == s.chief.(phase := Collecting(s.chief.phase.got + [Sends(j, w, c)]))
            && InStepWith(j, s', w) && Taken(s', w)
  {
    var s' := Apply(j, s, ChiefRecv(w));
    assert InStepWith(j, s, w);
    assert s.up[w][0] == Serial(|s.chief.results|, Sends(j, w, |s.chief.results|));
    assert Unread(s', w) == [];
  }

  lemma {:induction false} ChiefRecvInv(j: Job, s: State, w: nat)
    requires j.WellFormed() && Shaped(j, s) && Inv(j, s) && Enabled(j, s, ChiefRecv(w))
    ensures Inv(j, Apply(j, s, ChiefRecv(w)))
  {
    var s' := Apply(j, s, ChiefRecv(w));
    if Quiet(s'.chief) {
      RecvTakes(j, s, w);
      forall v | 0 <= v < |s.workers| ensures InStepWith(j, s', v) && Taken(s', v) == (v == w || Taken(s, v)) {
        assert InStepWith(j, s, v);
      }
      assert TakenMarks(s') == TakenMarks(s)[w := true];
      MarkOne(TakenMarks(s), Column(j, |s.chief.results|), w);
    }
    ChiefMoves(j, s, s');
  }

  /** Pigeonhole on the anonymous messages: the gather has as many as there are workers exactly when
      it has taken one from every worker. */
  lemma {:induction false} GotCount(j: Job, s: State)
    requires j.WellFormed() && Shaped(j, s) && ChiefInStep(j, s)
    requires s.chief.phase.Collecting? && |s.chief.results| < |j.rounds|
    ensures |s.chief.phase.got| <= |s.workers|
    ensures |s.chief.phase.got| == |s.workers| <==> forall w :: 0 <= w < |s.workers| ==> Taken(s, w)
    ensures |s.chief.phase.got| == |s.workers| ==>
              multiset(s.chief.phase.got) == multiset(Column(j, |s.chief.results|))
  {
    MarkedFull(TakenMarks(s), Column(j, |s.chief.results|));
    assert |multiset(s.chief.phase.got)| == |s.chief.phase.got|;
    assert forall w :: 0 <= w < |s.workers| ==> TakenMarks(s)[w] == Taken(s, w);
  }

  lemma {:induction false} ChiefGatheredInv(j: Job, s: State)
    requires j.WellFormed() && Shaped(j, s) && Inv(j, s) && Enabled(j, s, ChiefGathered)
    ensures Inv(j, Apply(j, s, ChiefGathered))
  {
    var s' := Apply(j, s, ChiefGathered);
    if Quiet(s'.chief) {
      GotCount(j, s);
      forall v | 0 <= v < |s.workers| ensures InStepWith(j, s', v) && Taken(s', v) {
        assert InStepWith(j, s, v) && Taken(s, v);
      }
    }
    ChiefMoves(j, s, s');
  }

  /** If no gather so far was flagged, the chief answers a round that every worker has sent for. */
  lemma {:induction false} BroadcastSync(j: Job, s: State)
    requires j.WellFormed() && Shaped(j, s) && Inv(j, s) && Enabled(j, s, ChiefBroadcast) && Quiet(s.chief)
    ensures var s' := Apply(j, s, ChiefBroadcast);
            Synchronised(j, s') && forall v :: 0 <= v < |s.workers| ==> s'.workers[v].sendSerial > |s.chief.results|
  {
    var s', c := Apply(j, s, ChiefBroadcast), |s.chief.results|;
    forall v | 0 <= v < |s.workers| ensures InStepWith(j, s', v) && !Taken(s', v) && s'.workers[v].sendSerial > c {
      BroadcastReaches(j, s, v);
    }
    if c + 1 < |j.rounds| { MarkedNone(TakenMarks(s'), Column(j, c + 1)); }
  }

  lemma {:induction false} BroadcastReaches(j: Job, s: State, v: nat)
    requires j.WellFormed() && Shaped(j, s) && Inv(j, s) && Enabled(j, s, ChiefBroadcast) && Quiet(s.chief)
    requires v < |s.workers|
    ensures var s' := Apply(j, s, ChiefBroadcast);
            InStepWith(j, s', v) && !Taken(s', v) && s'.workers[v].sendSerial > |s.chief.results|
  {
    assert InStepWith(j, s, v) && Taken(s, v);
  }

  lemma {:induction false} BroadcastSettled(j: Job, s: State)
    requires j.WellFormed() && Shaped(j, s) && Inv(j, s) && Enabled(j, s, ChiefBroadcast)
    ensures var s' := Apply(j, s, ChiefBroadcast);
            |s.chief.results| < |s'.chief.results| <= |j.rounds| && Settled(j, s', |s.chief.results|)
  {
    var s' := Apply(j, s, ChiefBroadcast);
    var c, ms := |s.chief.results|, s.chief.phase.ms;
    if UnflaggedThrough(s'.chief, c) {
      assert s'.chief.flags[c] == s.chief.phase.exception;
      assert forall k :: 0 <= k < c ==> s'.chief.flags[k] == s.chief.flags[k];
      assert |multiset(ms)| == |multiset(Column(j, c))|;
      BroadcastSync(j, s);
    }
    if j.rounds[c].Allgather? { assert s'.chief.results[c].items[1..] == ms; }
  }

  lemma {:induction false} ChiefBroadcastInv(j: Job, s: State)
    requires j.WellFormed() && Shaped(j, s) && Inv(j, s) && Enabled(j, s, ChiefBroadcast)
    ensures Inv(j, Apply(j, s, ChiefBroadcast))
  {
    var s' := Apply(j, s, ChiefBroadcast);
    SettledStays(j, s, s');
    BroadcastSettled(j, s);
    forall v | 0 <= v < |s.workers| ensures AgreesWith(s', v) {
      assert AgreesWith(s, v);
    }
    if Quiet(s'.chief) {
      assert s'.chief.flags[|s.chief.results|] == s.chief.phase.exception;
      assert forall k :: 0 <= k < |s.chief.results| ==> s'.chief.flags[k] == s.chief.flags[k];
      BroadcastSync(j, s);
    }
  }

  lemma {:induction false} StepInv(j: Job, s: State, step: Step)
    requires j.WellFormed() && Shaped(j, s) && Inv(j, s) && Enabled(j, s, step)
    ensures Inv(j, Apply(j, s, step))
  {
    match step
    case Join(w) => JoinInv(j, s, w);
    case WorkerSend(w) => SendInv(j, s, w);
    case WorkerRecv(w) => RecvInv(j, s, w);
    case WorkerRaise(w) => RaiseInv(j, s, w);
    case ChiefTimeout => assert Apply(j, s, step) == s;
    case ChiefRecv(w) => ChiefRecvInv(j, s, w);
    case ChiefGathered => ChiefGatheredInv(j, s);
    case ChiefBroadcast => ChiefBroadcastInv(j, s);
  }

  /** The invariant holds after every run. */
  lemma {:induction false} RunInv(j: Job, steps: seq<Step>)
    requires j.WellFormed() && Run(j, steps).Some?
    ensures Inv(j, Run(j, steps).value)
  {
    if steps == [] {
      InitInv(j);
    } else {
      var n := |steps| - 1;
      RunInv(j, steps[..n]);
      StepInv(j, Run(j, steps[..n]).value, steps[n]);
    }
  }
}
