/** The barrier and the all-gather as the training loop calls them, on the stateful endpoints, and
    their correspondence with the steps of module AllGather. */
module TrialController {
  import opened Ipc
  import opened AllGather
  import opened Wrappers

  /** The chief after the loop has seen `polls`, one machine step at a time. */
  function ChiefAfterPolls(c: Chief, n: nat, polls: seq<Poll>): Chief
    requires c.phase.Collecting?
    decreases |polls|
  {
    if |c.phase.got| >= n then ChiefAfter(c, Returned(c.phase.got, false))
    else if polls == [] then c
    else
      var c' := ChiefAfter(c, GatherOne(c.recvSerial, c.phase.got, polls[0]));
      if c'.phase.Collecting? then ChiefAfterPolls(c', n, polls[1..]) else c'
  }

  /** The chief's single steps add up to the loop that `GatherWithPolling` implements. */
  lemma {:induction false} ChiefStepsAreGather(c: Chief, n: nat, polls: seq<Poll>)
    requires c.phase.Collecting?
    ensures ChiefAfterPolls(c, n, polls) == ChiefAfter(c, Gather(n, c.recvSerial, c.phase.got, polls))
    decreases |polls|
  {
    if |c.phase.got| < n && polls != [] {
      var c' := ChiefAfter(c, GatherOne(c.recvSerial, c.phase.got, polls[0]));
      if c'.phase.Collecting? { ChiefStepsAreGather(c', n, polls[1..]); }
    }
  }

  /** A worker's send, in the machine: what the controller sends in a barrier or an all-gather, with
      the worker's serial, at the end of its own queue and no other. */
  lemma {:induction false} WorkerSendExactly(j: Job, s: State, w: nat)
    requires j.WellFormed() && Shaped(j, s) && Enabled(j, s, WorkerSend(w))
    ensures var s', k, wk := Apply(j, s, WorkerSend(w)), |s.workers[w].results|, s.workers[w];
            && s'.up[w] == s.up[w] + [Serial(wk.sendSerial, if j.rounds[k].Barrier? then PyList([PyNone]) else j.workers[w][k])]
            && s'.workers[w] == wk.(sent := true, sendSerial := wk.sendSerial + 1)
            && s'.chief == s.chief && s'.down == s.down
            && forall v :: 0 <= v < |s.workers| && v != w ==> s'.workers[v] == s.workers[v] && s'.up[v] == s.up[v]
  {
  }

  /** The chief's answer, in the machine: `None` for a barrier, its own value followed by the gathered
      ones for an all-gather; it is the chief's result, and it reaches the workers that have subscribed
      and no others. */
  lemma {:induction false} ChiefBroadcastExactly(j: Job, s: State)
    requires j.WellFormed() && Shaped(j, s) && Enabled(j, s, ChiefBroadcast)
    ensures var s', k, c := Apply(j, s, ChiefBroadcast), |s.chief.results|, s.chief;
            var answer := if j.rounds[k].Barrier? then PyNone else PyList([j.chief[k]] + c.phase.ms);
            && s'.chief == Chief(Collecting([]), c.sendSerial + 1, c.recvSerial, c.results + [answer], c.flags + [c.phase.exception])
            && s'.workers == s.workers && s'.up == s.up
            && forall w :: 0 <= w < |s.workers| ==>
                 s'.down[w] == if s.workers[w].joined then s.down[w] + [Serial(c.sendSerial, answer)] else s.down[w]
  {
  }

  /** What the chief's round leaves behind, given how its gather ended. */
  twostate predicate Answered(server: BroadcastServer, g: Gathering, answer: PyObj)
    reads server
  {
    if g.Returned? then
      && server.published == old(server.published) + [Serial(old(server.sendSerial), answer)]
      && server.sendSerial == old(server.sendSerial) + 1
      && server.recvSerial == old(server.recvSerial) + (if g.exception then 0 else 1)
    else
      && server.published == old(server.published)
      && server.sendSerial == old(server.sendSerial) && server.recvSerial == old(server.recvSerial)
  }

  class ChiefController {
    const server: BroadcastServer

    constructor (server: BroadcastServer)
      ensures this.server == server
    {
      this.server := server;
    }

    /** The chief always broadcasts after a gather that returned, flagged or not. */
    method GlobalBarrier(polls: seq<Poll>) returns (done: bool)
      modifies server
      ensures var g := Gather(server.numConnections, old(server.recvSerial), [], polls);
              done == g.Returned? && Answered(server, g, PyNone)
    {
      var g := server.GatherWithPolling(polls);
      done := g.Returned?;
      if done { server.Broadcast(PyNone); }
    }

    method AllgatherMetrics(metrics: PyObj, polls: seq<Poll>) returns (r: Option<PyObj>)
      modifies server
      ensures var g := Gather(server.numConnections, old(server.recvSerial), [], polls);
              && r == (if g.Returned? then Some(PyList([metrics] + g.messages)) else None)
              && Answered(server, g, if r.Some? then r.value else PyNone)
    {
      var g := server.GatherWithPolling(polls);
      if !g.Returned? { return None; }
      var allMetrics := PyList([metrics] + g.messages);
      server.Broadcast(allMetrics);
      r := Some(allMetrics);
    }
  }

  class WorkerController {
    const client: BroadcastClient

    constructor (client: BroadcastClient)
      ensures this.client == client
    {
      this.client := client;
    }

    /** Send first, then wait for the chief: a worker never sends twice without hearing back. */
    method AllgatherMetrics(metrics: PyObj, answer: Wire) returns (r: Received)
      modifies client
      ensures client.pushed == old(client.pushed) + [Serial(old(client.sendSerial), metrics)]
      ensures client.sendSerial == old(client.sendSerial) + 1
      ensures r == ClientReceive(old(client.recvSerial), answer)
      ensures client.recvSerial == old(client.recvSerial) + (if r.Payload? then 1 else 0)
    {
      client.Send(metrics);
      r := client.Recv(answer);
    }

    method GlobalBarrier(answer: Wire) returns (r: Received)
      modifies client
      ensures client.pushed == old(client.pushed) + [Serial(old(client.sendSerial), PyList([PyNone]))]
      ensures client.sendSerial == old(client.sendSerial) + 1
      ensures r == ClientReceive(old(client.recvSerial), answer)
      ensures client.recvSerial == old(client.recvSerial) + (if r.Payload? then 1 else 0)
    {
      client.Send(PyList([PyNone]));
      r := client.Recv(answer);
    }
  }
}
