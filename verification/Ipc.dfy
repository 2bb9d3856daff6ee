/** The serial-numbered broadcast/gather endpoints of the training processes: one server
    (PUB and PULL sockets) and one client per worker (SUB and PUSH sockets).  Sockets are
    abstract: a send appends to a log, and what a receive or a poll finds is a parameter. */
module Ipc {

  /** The Python objects that travel: `None`, a metrics blob, or a list. */
  datatype PyObj = PyNone | Opaque(id: int) | PyList(items: seq<PyObj>)

  /** What a socket carries; `Alien` is any object of an unexpected type. */
  datatype Wire = Serial(serial: nat, payload: PyObj) | Exception | Alien

  /** Outcome of receiving one object: a payload, the exception marker, or a raised error. */
  datatype Received = Payload(value: PyObj) | Raised | Rejected

  /** One turn of the polling loop: nothing arrived (and what the health check said), or a message. */
  datatype Poll = Timeout(healthy: bool) | Ready(message: Wire)

  /** A gather is still polling, has returned, or has raised. */
  datatype Gathering =
    | Polling(got: seq<PyObj>)
    | Returned(messages: seq<PyObj>, exception: bool)
    | Aborted

  function ServerReceive(recvSerial: nat, m: Wire): Received {
    match m
    case Exception => Raised
    case Serial(serial, payload) => if serial == recvSerial then Payload(payload) else Rejected
    case Alien => Rejected
  }

  function ClientReceive(recvSerial: nat, m: Wire): Received {
    if m.Serial? && m.serial == recvSerial then Payload(m.payload) else Rejected
  }

  /** One iteration of the polling loop. */
  function GatherOne(recvSerial: nat, got: seq<PyObj>, p: Poll): Gathering {
    match p
    case Timeout(healthy) => if healthy then Polling(got) else Aborted
    case Ready(m) =>
      match ServerReceive(recvSerial, m)
      case Payload(v) => Polling(got + [v])
      case Raised => Returned(got + [PyNone], true)
      case Rejected => Aborted
  }

  /** The whole loop over a finite history of polls. */
  function Gather(n: nat, recvSerial: nat, got: seq<PyObj>, polls: seq<Poll>): Gathering
    decreases |polls|
  {
    if |got| >= n then Returned(got, false)
    else if polls == [] then Polling(got)
    else
      var g := GatherOne(recvSerial, got, polls[0]);
      if g.Polling? then Gather(n, recvSerial, g.got, polls[1..]) else g
  }

  /** The server end, held by the chief. */
  class BroadcastServer {
    const numConnections: nat
    var sendSerial: nat
    var recvSerial: nat
    var published: seq<Wire>

    constructor (n: nat)
      ensures numConnections == n && sendSerial == 0 && recvSerial == 0 && published == []
    {
      numConnections, sendSerial, recvSerial, published := n, 0, 0, [];
    }

    method Broadcast(obj: PyObj)
      modifies this`sendSerial, this`published
      ensures published == old(published) + [Serial(old(sendSerial), obj)]
      ensures sendSerial == old(sendSerial) + 1
    {
      published := published + [Serial(sendSerial, obj)];
      sendSerial := sendSerial + 1;
    }

    method RecvOne(obj: Wire) returns (r: Received)
      ensures r.Raised? <==> obj.Exception?
      ensures r.Payload? <==> obj.Serial? && obj.serial == recvSerial
      ensures r.Payload? ==> r.value == obj.payload
    {
      match obj {
        case Exception => r := Raised;
        case Serial(serial, payload) =>
          if serial == recvSerial { r := Payload(payload); } else { r := Rejected; }
        case Alien => r := Rejected;
      }
    }

    /** The loop agrees with its specification, and the expected serial moves on only when every
        connection answered. */
    method GatherWithPolling(polls: seq<Poll>) returns (g: Gathering)
      modifies this`recvSerial
      ensures g == Gather(numConnections, old(recvSerial), [], polls)
      ensures recvSerial == old(recvSerial) + (if g.Returned? && !g.exception then 1 else 0)
    {
      var messages: seq<PyObj> := [];
      var i := 0;
      while |messages| < numConnections
        invariant 0 <= i <= |polls|
        invariant recvSerial == old(recvSerial)
        invariant Gather(numConnections, recvSerial, [], polls) == Gather(numConnections, recvSerial, messages, polls[i..])
        decreases |polls| - i
      {
        if i == |polls| { return Polling(messages); }
        var p := polls[i];
        assert polls[i..][1..] == polls[i + 1..];
        i := i + 1;
        if p.Timeout? {
          if !p.healthy { return Aborted; }
        } else {
          var r := RecvOne(p.message);
          match r {
            case Payload(v) => messages := messages + [v];
            case Raised => return Returned(messages + [PyNone], true);
            case Rejected => return Aborted;
          }
        }
      }
      recvSerial := recvSerial + 1;
      g := Returned(messages, false);
    }
  }

  /** The client end, held by each worker. */
  class BroadcastClient {
    var sendSerial: nat
    var recvSerial: nat
    var pushed: seq<Wire>

    constructor ()
      ensures sendSerial == 0 && recvSerial == 0 && pushed == []
    {
      sendSerial, recvSerial, pushed := 0, 0, [];
    }

    method Send(obj: PyObj)
      modifies this`sendSerial, this`pushed
      ensures pushed == old(pushed) + [Serial(old(sendSerial), obj)]
      ensures sendSerial == old(sendSerial) + 1
    {
      var message := Serial(sendSerial, obj);
      sendSerial := sendSerial + 1;
      pushed := pushed + [message];
    }

    method SendExceptionMessage()
      modifies this`pushed
      ensures pushed == old(pushed) + [Exception]
    {
      pushed := pushed + [Exception];
    }

    method Recv(obj: Wire) returns (r: Received)
      modifies this`recvSerial
      ensures r == ClientReceive(old(recvSerial), obj)
      ensures recvSerial == old(recvSerial) + (if r.Payload? then 1 else 0)
    {
      if obj.Serial? && obj.serial == recvSerial {
        recvSerial := recvSerial + 1;
        r := Payload(obj.payload);
      } else {
        r := Rejected;
      }
    }
  }
}
