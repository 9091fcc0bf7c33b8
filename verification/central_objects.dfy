/** The central system as an object over a server dispatcher and a callback queue. */
module CentralObjects {
  import opened Types
  import opened Callbacks
  import opened CentralSystem
  import opened ServerObjects
  import S = ServerDispatcher

  class CentralSystemObject {
    const server: DefaultServerDispatcher
    const callbackQueue: CallbackQueue<Callback>
    ghost var invoked: map<ClientId, seq<Invocation>>

    constructor (capacity: nat, timed: bool)
      ensures Valid() && Abs() == Fresh(capacity, timed)
      ensures fresh(server) && fresh(callbackQueue)
    {
      server := new DefaultServerDispatcher(capacity, timed);
      callbackQueue := new CallbackQueue();
      invoked := map[];
    }

    ghost predicate Valid()
      reads callbackQueue
    {
      NoEmptyList(callbackQueue.callbacks)
    }

    ghost function Abs(): (s: State)
      reads this, server, callbackQueue
    {
      State(server.Abs(), callbackQueue.callbacks, invoked)
    }

    /** The callback is stored if and only if the dispatcher accepted the request. */
    method SendRequestAsync(c: ClientId, request: Bundle, callback: Callback) returns (ok: bool)
      requires Valid() && request.id != ""
      requires callback == Callback(|S.HistoryOf(server.Abs(), c).accepted|, request.request.feature)
      modifies server, callbackQueue
      ensures Valid() && Abs() == Step(old(Abs()), S.Submit(c, request), true)
      ensures ok == S.Accepts(old(server.Abs()), c)
    {
      RollbackRestoresIff(callbackQueue.callbacks, c, callback);
      ok := server.SendRequest(c, request);
      callbackQueue.TryQueue(c, ok, callback);
    }

    /** handleIncomingConfirmation, handleIncomingError, handleCanceledRequest. */
    method HandleOutcome(c: ClientId, o: Outcome) returns (callback: Option<Callback>)
      requires Valid()
      modifies this, callbackQueue
      ensures Valid() && Abs() == Reported(old(Abs()), c, o)
      ensures callback.None? <==> ListOf(old(callbackQueue.callbacks), c) == []
    {
      ghost var before := Abs();
      callback := callbackQueue.Dequeue(c);
      if callback.Some? {
        invoked := invoked[c := InvokedOf(before, c) + [Invocation(callback.value, ConfirmationOf(o))]];
      }
    }

    /** A well-formed answer of peer c: complete the request, then run its callback. */
    method OnAnswer(c: ClientId, id: string, rejected: bool)
      requires Valid() && id != ""
      modifies this, server, callbackQueue
      ensures Valid() && Abs() == Step(old(Abs()), S.Answer(c, id, rejected), true)
    {
      var outcome := server.HandleAnswer(c, id, rejected);
      if outcome.Some? {
        ghost var mid := Abs();
        var _ := HandleOutcome(c, outcome.value);
        assert [outcome.value][1..] == [];
        assert AllReported(mid, c, [outcome.value]) == AllReported(Reported(mid, c, outcome.value), c, []);
      }
    }

    /** The disconnect handler: the dispatcher forgets the peer, then every waiting callback fails. */
    method OnChargePointDisconnected(c: ClientId)
      requires Valid()
      modifies this, server, callbackQueue
      ensures Valid() && Abs() == Step(old(Abs()), S.Disconnect(c), true)
    {
      ghost var before := Abs();
      server.OnClientDisconnected(c);
      var drained := callbackQueue.Drain(c);
      invoked := invoked[c := InvokedOf(before, c) + Errors(drained)];
    }
  }
}
