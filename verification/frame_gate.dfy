/** Frames meeting the request engine: what an incoming frame of a peer does to the central system. */
module FrameGate {
  import opened Types
  import opened Frames
  import opened Callbacks
  import R = Replies
  import S = ServerDispatcher
  import C = CentralSystem
  import Ch = Channel

  /** ocppMessageHandler, the part that concerns requests this side has sent. */
  function Received(s: C.State, ep: Endpoint, c: ClientId, arr: Frame): (r: C.State) {
    ParseIsSound(ep, S.SlotOf(s.server, c), arr);
    match R.Completes(ep, S.SlotOf(s.server, c), arr)
    case None => s
    case Some(m) => C.Step(s, S.Answer(c, m.id, m.CallError?), true)
  }

  /** The frame is an answer the sender's pending request is waiting for. */
  predicate IsAwaited(s: C.State, ep: Endpoint, c: ClientId, arr: Frame) {
    var slot := S.SlotOf(s.server, c);
    slot.Some? && (R.IsResultFor(ep, slot.value, arr) || R.IsErrorFor(slot.value, arr))
  }

  /** An expected answer finishes the head, frees the slot and runs the oldest callback. */
  lemma Finished(s: C.State, c: ClientId, id: string, rejected: bool)
    requires Ch.Inv(S.View(s.server, c)) && C.Aligned(s, c) && S.Expected(s.server, c, id) && id != ""
    ensures var o := Verdict(s.server.slots[c], rejected);
            var t := C.Step(s, S.Answer(c, id, rejected), true);
            && t != s && ListOf(s.callbacks, c) != []
            && S.View(t.server, c) == Ch.Apply(S.View(s.server, c), Ch.Finish(o))
            && ListOf(t.callbacks, c) == ListOf(s.callbacks, c)[1..]
            && C.InvokedOf(t, c) == C.InvokedOf(s, c)
                 + [C.Invocation(ListOf(s.callbacks, c)[0], C.ConfirmationOf(o))]
  {
    var o := Verdict(s.server.slots[c], rejected);
    var t := s.(server := S.Step(s.server, S.Answer(c, id, rejected)));
    S.CompletedView(s.server, c, o);
    C.ReportedLists(t, c, o);
    assert [o][1..] == [];
    assert C.AllReported(t, c, [o]) == C.AllReported(C.Reported(t, c, o), c, []) == C.Reported(t, c, o);
  }

  lemma ReceivedStep(s: C.State, ep: Endpoint, c: ClientId, arr: Frame)
    ensures !IsAwaited(s, ep, c, arr) ==> Received(s, ep, c, arr) == s
    ensures IsAwaited(s, ep, c, arr) ==>
              var b := S.SlotOf(s.server, c).value;
              && b.id != ""
              && Received(s, ep, c, arr) == C.Step(s, S.Answer(c, b.id, R.IsErrorFor(b, arr)), true)
  {
    R.AnswerGate(ep, S.SlotOf(s.server, c), arr);
  }

  /** Stored callbacks start with that of the pending request. */
  lemma OwnCallback(ch: Ch.Channel, list: seq<C.Callback>, calls: seq<C.Invocation>)
    requires Ch.PendingIsHead(ch) && ch.pending.Some? && C.Fitting(ch, list, calls)
    ensures list == [C.Callback(|ch.finished|, ch.pending.value.request.feature)] + list[1..]
  {
  }

  /** From s to t the pending request b of c was finished with outcome o, and nothing else happened to c. */
  ghost predicate Finishes(s: C.State, t: C.State, c: ClientId, b: Bundle, o: Outcome) {
    var before := S.View(s.server, c);
    var own := C.Callback(|before.finished|, b.request.feature);
    && before.pending == Some(b) && before.queue != []
    && S.View(t.server, c) == Ch.Channel(before.queue[1..], None, before.accepted,
                                         before.finished + [Done(b, o)], before.writes)
    && ListOf(s.callbacks, c) == [own] + ListOf(t.callbacks, c)
    && C.InvokedOf(t, c) == C.InvokedOf(s, c) + [C.Invocation(own, C.ConfirmationOf(o))]
  }

  lemma AwaitedFinishes(s: C.State, c: ClientId, b: Bundle, rejected: bool)
    requires Ch.Inv(S.View(s.server, c)) && C.Aligned(s, c) && S.SlotOf(s.server, c) == Some(b) && b.id != ""
    ensures var t := C.Step(s, S.Answer(c, b.id, rejected), true);
            t != s && Finishes(s, t, c, b, Verdict(b, rejected))
  {
    Finished(s, c, b.id, rejected);
    OwnCallback(S.View(s.server, c), ListOf(s.callbacks, c), C.InvokedOf(s, c));
  }

  /**
   A frame changes the central system if and only if it is the awaited CALL RESULT or CALL ERROR
   of its sender. Then the pending request is finished with that verdict, leaves the queue and
   frees the slot; nothing else is finished, accepted or written; and its own callback is removed
   and called with the confirmation, or with the error.
   */
  lemma FrameGateHolds(s: C.State, ep: Endpoint, c: ClientId, arr: Frame)
    requires Ch.Inv(S.View(s.server, c)) && C.Aligned(s, c)
    ensures Received(s, ep, c, arr) != s <==> IsAwaited(s, ep, c, arr)
    ensures IsAwaited(s, ep, c, arr) ==>
              var b := S.SlotOf(s.server, c).value;
              Finishes(s, Received(s, ep, c, arr), c, b,
                       if R.IsErrorFor(b, arr) then Rejected else Confirmed(b.request.feature))
  {
    ReceivedStep(s, ep, c, arr);
    if IsAwaited(s, ep, c, arr) {
      var b := S.SlotOf(s.server, c).value;
      AwaitedFinishes(s, c, b, R.IsErrorFor(b, arr));
    }
  }

  /** A frame of one peer never touches another's queue, slot, context, history or callbacks. */
  lemma FrameGateIsolates(s: C.State, ep: Endpoint, c: ClientId, arr: Frame, d: ClientId)
    requires d != c
    ensures var t := Received(s, ep, c, arr);
            && S.SameFor(s.server, t.server, d)
            && ListOf(t.callbacks, d) == ListOf(s.callbacks, d)
            && C.InvokedOf(t, d) == C.InvokedOf(s, d)
  {
    ReceivedStep(s, ep, c, arr);
    if IsAwaited(s, ep, c, arr) {
      var b := S.SlotOf(s.server, c).value;
      var e := S.Answer(c, b.id, R.IsErrorFor(b, arr));
      S.StepIsolates(s.server, e, d);
      C.ReportedOthers(s.(server := S.Step(s.server, e)), c, C.Reports(s.server, e), d);
    }
  }
}
