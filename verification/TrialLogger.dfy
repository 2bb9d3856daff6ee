/** The trial log buffer: one backing array of fixed capacity, refilled after every flush. */
module TrialLogger {

  const LOG_BUFFER: nat := 1000

  function Concat<T>(batches: seq<seq<T>>): seq<T> {
    if batches == [] then [] else Concat(batches[..|batches| - 1]) + batches[|batches| - 1]
  }

  lemma {:induction false} ConcatMore<T>(batches: seq<seq<T>>, batch: seq<T>)
    ensures Concat(batches + [batch]) == Concat(batches) + batch
  {
    assert (batches + [batch])[..|batches|] == batches;
  }

  datatype Message<T> = Tick | Log(entry: T) | PostStop

  /** The backend: it copies a batch out of the caller's array before it returns. */
  class Backend<T> {
    var batches: seq<seq<T>>

    constructor ()
      ensures batches == []
    {
      batches := [];
    }

    method AddTrialLogs(buffer: array<T>, len: nat)
      requires len <= buffer.Length
      modifies this
      ensures batches == old(batches) + [buffer[..len]]
    {
      batches := batches + [buffer[..len]];
    }
  }

  class Logger<T(0)> {
    const backend: Backend<T>
    const pending: array<T>
    var len: nat
    ghost var received: seq<T>

    /** Nothing is lost, repeated or reordered, and the buffer always has room for one more entry. */
    ghost predicate Valid()
      reads this, backend, pending
    {
      && pending.Length == LOG_BUFFER && len < LOG_BUFFER
      && Concat(backend.batches) + pending[..len] == received
    }

    constructor (backend: Backend<T>)
      requires backend.batches == []
      ensures Valid() && received == [] && this.backend == backend && fresh(pending)
    {
      this.backend := backend;
      pending := new T[LOG_BUFFER];
      len, received := 0, [];
    }

    method TryFlushLogs(forceFlush: bool)
      requires pending.Length == LOG_BUFFER && len <= LOG_BUFFER
      requires Concat(backend.batches) + pending[..len] == received
      modifies this`len, backend
      ensures Valid() && received == old(received)
      ensures if forceFlush || old(len) == 1000
              then len == 0 && backend.batches == old(backend.batches) + [old(pending[..len])]
              else len == old(len) && backend.batches == old(backend.batches)
      ensures forall i :: 0 <= i < len ==> pending[i] == old(pending[i])
    {
      if forceFlush || len >= LOG_BUFFER {
        ConcatMore(backend.batches, pending[..len]);
        backend.AddTrialLogs(pending, len);
        len := 0;
        assert pending[..len] == [];
      }
    }

    method Receive(m: Message<T>)
      requires Valid()
      modifies this, backend, pending
      ensures Valid()
      ensures received == (if m.Log? then old(received) + [m.entry] else old(received))
      ensures len < 1000
      ensures match m
              case Log(entry) =>
                if old(len) < 999
                then backend.batches == old(backend.batches) && pending[..len] == old(pending[..len]) + [entry]
                else backend.batches == old(backend.batches) + [old(pending[..len]) + [entry]] && len == 0
              case Tick | PostStop =>
                backend.batches == old(backend.batches) + [old(pending[..len])] && len == 0
                && Concat(backend.batches) == received
    {
      match m {
        case Log(entry) =>
          pending[len] := entry;
          len := len + 1;
          received := received + [entry];
          assert pending[..len] == old(pending[..len]) + [entry];
          TryFlushLogs(false);
        case Tick => TryFlushLogs(true);
        case PostStop => TryFlushLogs(true);
      }
    }
  }
}
