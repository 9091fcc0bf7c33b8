/**
 DefaultServerDispatcher as an object. The queue map, the pending states and the pump's loop
 variables are fields; each method updates them as the Go code does and is proved to take
 exactly one step of the machine in ServerDispatcher.
 */
module ServerObjects {
  import opened Types
  import opened PendingState
  import opened ServerDispatcher
  import Ch = Channel

  class DefaultServerDispatcher {
    var queueMap: map<ClientId, seq<Bundle>>
    const queueCapacity: nat
    const timed: bool
    var pendingRequestState: map<ClientId, Bundle>
    var requestChannel: seq<ClientId>
    var readyForDispatch: seq<ClientId>
    var timerC: seq<ClientId>
    var rdy: bool
    var clientQueue: Carried
    var clientContextMap: map<ClientId, Context>
    var timers: map<nat, ClientId>
    var nextTimer: nat
    ghost var history: map<ClientId, History>

    constructor (capacity: nat, timed: bool)
      ensures Abs() == Fresh(capacity, timed)
    {
      queueCapacity, this.timed := capacity, timed;
      queueMap, pendingRequestState, clientContextMap, timers := map[], map[], map[], map[];
      requestChannel, readyForDispatch, timerC := [], [], [];
      rdy, clientQueue, nextTimer := false, NoQueue, 0;
      history := map[];
    }

    ghost function Abs(): (s: State)
      reads this
    {
      State(queueMap, queueCapacity, timed, pendingRequestState, requestChannel, readyForDispatch,
            timerC, rdy, clientQueue, clientContextMap, timers, nextTimer, history)
    }

    method CreateClient(c: ClientId)
      modifies this
      ensures Abs() == Step(old(Abs()), Connect(c))
    {
      if c !in queueMap {
        queueMap := queueMap[c := []];
      }
    }

    method DeleteClient(c: ClientId)
      modifies this
      ensures Abs() == old(Abs()).(
        queues := old(queueMap) - {c},
        carried := (if old(clientQueue) == Live(c) then Orphan(QueueOf(old(Abs()), c)) else old(clientQueue)),
        requests := old(requestChannel) + [c])
    {
      if clientQueue == Live(c) {
        clientQueue := Orphan(if c in queueMap then queueMap[c] else []);
      }
      queueMap := queueMap - {c};
      requestChannel := requestChannel + [c];
    }

    method ClearClientPendingRequest(c: ClientId)
      modifies this
      ensures Abs() == old(Abs()).(slots := old(pendingRequestState) - {c})
    {
      pendingRequestState := pendingRequestState - {c};
    }

    /** The server's reaction to a closed connection. */
    method OnClientDisconnected(c: ClientId)
      modifies this
      ensures Abs() == Step(old(Abs()), Disconnect(c))
    {
      ghost var after := Disconnected(Abs(), c);
      DeleteClient(c);
      ClearClientPendingRequest(c);
      history := after.history;
      assert Abs() == after;
    }

    method SendRequest(c: ClientId, req: Bundle) returns (ok: bool)
      requires Enabled(Abs(), Submit(c, req))
      modifies this
      ensures Abs() == Step(old(Abs()), Submit(c, req))
      ensures ok <==> c in old(queueMap) && (queueCapacity == 0 || |old(queueMap)[c]| < queueCapacity)
      ensures queueMap == if ok then old(queueMap)[c := old(queueMap)[c] + [req]] else old(queueMap)
    {
      if c !in queueMap {
        return false;
      }
      if |queueMap[c]| >= queueCapacity && queueCapacity > 0 {
        return false;
      }
      ghost var h := HistoryOf(Abs(), c);
      history := history[c := h.(accepted := h.accepted + [req])];
      queueMap := queueMap[c := queueMap[c] + [req]];
      requestChannel := requestChannel + [c];
      return true;
    }

    method CompleteRequest(c: ClientId, requestID: string, ghost o: Outcome)
      modifies this
      ensures Abs() == Completed(old(Abs()), c, requestID, o)
    {
      if c !in queueMap {
        return;
      }
      var q := queueMap[c];
      if |q| == 0 {
        return;
      }
      if q[0].id != requestID {
        return;
      }
      ghost var h := HistoryOf(Abs(), c);
      history := history[c := h.(finished := h.finished + [Done(q[0], o)])];
      queueMap := queueMap[c := q[1..]];
      ghost var slots := pendingRequestState;
      if c in pendingRequestState && pendingRequestState[c].id == requestID {
        pendingRequestState := pendingRequestState - {c};
      }
      assert pendingRequestState
          == SetSlot(slots, c, DeletePending(if c in slots then Some(slots[c]) else None, requestID));
      readyForDispatch := readyForDispatch + [c];
    }

    /** A well-formed CALL RESULT or CALL ERROR frame of client c. */
    method HandleAnswer(c: ClientId, id: string, rejected: bool) returns (outcome: Option<Outcome>)
      requires Enabled(Abs(), Answer(c, id, rejected))
      modifies this
      ensures Abs() == Step(old(Abs()), Answer(c, id, rejected))
      ensures outcome == if Expected(old(Abs()), c, id)
                         then Some(Verdict(old(Abs()).slots[c], rejected)) else None
    {
      if c !in pendingRequestState || pendingRequestState[c].id != id {
        return None;
      }
      outcome := Some(Verdict(pendingRequestState[c], rejected));
      CompleteRequest(c, id, outcome.value);
    }

    /** The goroutine of a timeout context: the deadline has passed. */
    method TimerExpires(k: nat)
      requires Enabled(Abs(), Expire(k))
      modifies this
      ensures Abs() == Step(old(Abs()), Expire(k))
    {
      timerC := timerC + [timers[k]];
      timers := timers - {k};
    }

    method CancelContext(c: ClientId)
      modifies this
      ensures Abs() == Disarmed(old(Abs()), c)
    {
      if c in clientContextMap && clientContextMap[c].Armed? {
        timers := timers - {clientContextMap[c].timer};
        clientContextMap := clientContextMap[c := Idle];
      }
    }

    /** dispatchNextRequest; a context is returned only if the write worked and a timeout is set. */
    method DispatchNextRequest(c: ClientId, writeOk: bool) returns (ctx: Context)
      requires c in queueMap ==> queueMap[c] != []
      modifies this
      ensures Abs().(contexts := clientContextMap[c := ctx]) == Dispatched(old(Abs()), c, writeOk)
    {
      if c !in queueMap {
        return Idle;
      }
      var bundle := queueMap[c][0];
      ghost var before := SlotOf(Abs(), c);
      if bundle.id != "" && c !in pendingRequestState {
        pendingRequestState := pendingRequestState[c := bundle];
      }
      assert pendingRequestState == SetSlot(old(pendingRequestState), c, AddPending(before, bundle));
      ghost var h := HistoryOf(Abs(), c);
      history := history[c := h.(writes := h.writes + [Sent(|h.finished|, bundle)])];
      assert Abs() == HeadWritten(old(Abs()), c);
      if !writeOk {
        CompleteRequest(c, bundle.id, WriteFailed);
        return Idle;
      }
      if timed {
        ctx := Armed(nextTimer);
        timers := timers[nextTimer := c];
        nextTimer := nextTimer + 1;
      } else {
        ctx := Idle;
      }
    }

    method FinishIteration(c: ClientId, writeOk: bool)
      requires !TailCrashes(Abs(), c)
      modifies this
      ensures Abs() == Tail(old(Abs()), c, writeOk)
    {
      var waiting :=
        match clientQueue
        case NoQueue => []
        case Live(d) => if d in queueMap then queueMap[d] else []
        case Orphan(q) => q;
      if rdy && |waiting| > 0 {
        var ctx := DispatchNextRequest(c, writeOk);
        clientContextMap := clientContextMap[c := ctx];
        rdy := false;
      }
    }

    /** The receive of a request signal for a connected client. */
    method TakeRequest() returns (c: ClientId)
      requires requestChannel != [] && requestChannel[0] in queueMap
      modifies this
      ensures c == old(requestChannel)[0] && Abs() == RequestSeen(old(Abs()))
    {
      c := requestChannel[0];
      requestChannel := requestChannel[1..];
      clientQueue := Live(c);
      if c !in clientContextMap {
        rdy := true;
      } else {
        rdy := !clientContextMap[c].Armed?;
      }
    }

    /** The receive of a signal for a client that was removed. */
    method ForgetClient()
      requires requestChannel != []
      modifies this
      ensures Abs() == ClientForgotten(old(Abs()))
    {
      var c := requestChannel[0];
      CancelContext(c);
      requestChannel := requestChannel[1..];
      clientQueue := NoQueue;
      clientContextMap := clientContextMap - {c};
    }

    method TakeTimeout() returns (c: ClientId)
      requires timerC != []
      requires timerC[0] in pendingRequestState ==> QueueOf(Abs(), timerC[0]) != []
      modifies this
      ensures c == old(timerC)[0] && Abs() == TimeoutTaken(old(Abs()))
    {
      c := timerC[0];
      CancelContext(c);
      timerC := timerC[1..];
      if c in pendingRequestState {
        CompleteRequest(c, queueMap[c][0].id, TimedOut);
      }
    }

    method TakeReady() returns (c: ClientId)
      requires readyForDispatch != []
      modifies this
      ensures c == old(readyForDispatch)[0] && Abs() == ReadyTaken(old(Abs()))
    {
      c := readyForDispatch[0];
      CancelContext(c);
      readyForDispatch := readyForDispatch[1..];
      if c in queueMap {
        clientQueue := Live(c);
        rdy := true;
      } else {
        clientQueue := NoQueue;
      }
    }

    method PumpRequest(writeOk: bool)
      requires Enabled(Abs(), OnRequest(writeOk))
      modifies this
      ensures Abs() == Step(old(Abs()), OnRequest(writeOk))
    {
      if requestChannel[0] !in queueMap {
        ForgetClient();
        return;
      }
      var c := TakeRequest();
      FinishIteration(c, writeOk);
    }

    method PumpTimeout(writeOk: bool)
      requires Enabled(Abs(), OnTimeout(writeOk))
      modifies this
      ensures Abs() == Step(old(Abs()), OnTimeout(writeOk))
    {
      var c := TakeTimeout();
      FinishIteration(c, writeOk);
    }

    method PumpReady(writeOk: bool)
      requires Enabled(Abs(), OnReady(writeOk))
      modifies this
      ensures Abs() == Step(old(Abs()), OnReady(writeOk))
    {
      var c := TakeReady();
      FinishIteration(c, writeOk);
    }
  }
}
