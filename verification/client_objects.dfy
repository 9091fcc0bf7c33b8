/**
 DefaultClientDispatcher as an object: each method updates the fields as the Go code does and
 is proved to take exactly one step of the machine in ClientDispatcher.
 */
module ClientObjects {
  import opened Types
  import opened PendingState
  import opened Queues
  import opened ClientDispatcher
  import Ch = Channel

  class DefaultClientDispatcher {
    const requestQueue: FIFOClientQueue
    const pendingRequestState: ClientState
    var signals: nat
    var readyForDispatch: nat
    var rdy: bool
    var paused: bool
    var phase: Phase
    ghost var accepted: seq<Bundle>
    ghost var finished: seq<Done>
    ghost var writes: seq<Sent>

    constructor (capacity: nat, leftover: Request)
      ensures Abs() == Created(capacity) && Step(Abs(), Start) == Fresh(capacity)
      ensures fresh(requestQueue) && fresh(pendingRequestState)
    {
      requestQueue := new FIFOClientQueue(capacity);
      pendingRequestState := new ClientState(leftover);
      signals, readyForDispatch, rdy, paused, phase := 0, 0, false, false, Stopped;
      accepted, finished, writes := [], [], [];
    }

    ghost function Abs(): (s: State)
      reads this, requestQueue, pendingRequestState
    {
      State(requestQueue.elements, requestQueue.capacity, pendingRequestState.Slot(),
            signals, readyForDispatch, rdy, paused, phase, accepted, finished, writes)
    }

    method SendRequest(req: Bundle) returns (ok: bool)
      requires Enabled(Abs(), Submit(req))
      modifies this, requestQueue
      ensures Abs() == Step(old(Abs()), Submit(req))
      ensures ok <==> requestQueue.capacity == 0 || |old(requestQueue.elements)| < requestQueue.capacity
      ensures requestQueue.elements == old(requestQueue.elements) + (if ok then [req] else [])
    {
      ok := requestQueue.Push(req);
      if !ok {
        return;
      }
      accepted := accepted + [req];
      signals := signals + 1;
    }

    method CompleteRequest(requestId: string, ghost o: Outcome)
      modifies this, requestQueue, pendingRequestState
      ensures Abs() == Completed(old(Abs()), requestId, o)
    {
      var el := requestQueue.Peek();
      if el.None? {
        return;
      }
      if el.value.id != requestId {
        return;
      }
      finished := finished + [Done(requestQueue.elements[0], o)];
      var _ := requestQueue.Pop();
      pendingRequestState.DeletePendingRequest(requestId);
      readyForDispatch := readyForDispatch + 1;
    }

    method DispatchNextRequest(writeOk: bool)
      requires requestQueue.elements != []
      modifies this, requestQueue, pendingRequestState
      ensures Abs() == Dispatched(old(Abs()), writeOk)
    {
      var el := requestQueue.Peek();
      var bundle := el.value;
      pendingRequestState.AddPendingRequest(bundle.id, bundle.request);
      writes := writes + [Sent(|finished|, bundle)];
      if !writeOk {
        CompleteRequest(bundle.id, WriteFailed);
      }
    }

    /** The part of a pump iteration after the select. */
    method FinishIteration(writeOk: bool)
      modifies this, requestQueue, pendingRequestState
      ensures Abs() == Tail(old(Abs()), writeOk)
    {
      if paused {
        return;
      }
      var el := requestQueue.Peek();
      if rdy && el.Some? {
        DispatchNextRequest(writeOk);
        rdy := false;
      }
    }

    method PumpSignal(writeOk: bool)
      requires Enabled(Abs(), OnSignal(writeOk))
      modifies this, requestQueue, pendingRequestState
      ensures Abs() == Step(old(Abs()), OnSignal(writeOk))
    {
      signals := signals - 1;
      FinishIteration(writeOk);
    }

    method PumpToken(writeOk: bool)
      requires Enabled(Abs(), OnToken(writeOk))
      modifies this, requestQueue, pendingRequestState
      ensures Abs() == Step(old(Abs()), OnToken(writeOk))
    {
      readyForDispatch := readyForDispatch - 1;
      rdy := true;
      FinishIteration(writeOk);
    }

    method PumpTimer(writeOk: bool)
      requires Enabled(Abs(), OnTimer(writeOk))
      modifies this, requestQueue, pendingRequestState
      ensures Abs() == Step(old(Abs()), OnTimer(writeOk))
    {
      var has := pendingRequestState.HasPendingRequest();
      if has {
        var el := requestQueue.Peek();
        CompleteRequest(el.value.id, TimedOut);
      }
      FinishIteration(writeOk);
    }

    method PumpClosed()
      requires Enabled(Abs(), OnClosed)
      modifies this, requestQueue
      ensures Abs() == Step(old(Abs()), OnClosed)
    {
      finished := finished + Ch.Discarded(requestQueue.elements, pendingRequestState.Slot());
      requestQueue.Init();
      phase := Stopped;
    }

    method PauseDispatcher()
      requires Enabled(Abs(), Pause)
      modifies this
      ensures Abs() == Step(old(Abs()), Pause) && paused
    {
      paused := true;
    }

    method ResumeDispatcher()
      requires Enabled(Abs(), Resume)
      modifies this
      ensures Abs() == Step(old(Abs()), Resume) && !paused
    {
      paused := false;
      var has := pendingRequestState.HasPendingRequest();
      if !has {
        readyForDispatch := readyForDispatch + 1;
      }
    }

    method StopDispatcher()
      requires Enabled(Abs(), Stop)
      modifies this
      ensures Abs() == Step(old(Abs()), Stop)
    {
      phase := Closing;
    }

    method StartDispatcher()
      requires Enabled(Abs(), Start)
      modifies this
      ensures Abs() == Step(old(Abs()), Start)
    {
      signals := 0;
      rdy := true;
      phase := Running;
    }

    /** A well-formed CALL RESULT or CALL ERROR frame: only one for the pending id completes it. */
    method HandleAnswer(id: string, rejected: bool) returns (outcome: Option<Outcome>)
      requires Enabled(Abs(), Answer(id, rejected))
      modifies this, requestQueue, pendingRequestState
      ensures Abs() == Step(old(Abs()), Answer(id, rejected))
      ensures outcome == if old(Abs()).slot.Some? && old(Abs()).slot.value.id == id
                         then Some(Verdict(old(Abs()).slot.value, rejected)) else None
    {
      var req := pendingRequestState.GetPendingRequest(id);
      if req.None? {
        return None;
      }
      outcome := Some(Verdict(Bundle(id, req.value), rejected));
      CompleteRequest(id, outcome.value);
    }
  }
}
