/**
 The OCPP 1.6 central system on top of the server dispatcher: SendRequestAsync stores a callback
 for every accepted request, and each outcome the dispatcher reports takes the oldest one.

 "Complete the request, then call the handler" is one step. `drains` says whether a disconnect
 handler is registered: only then are the callbacks of a lost peer called and removed.
 */
module CentralSystem {
  import opened Types
  import opened Callbacks
  import Ch = Channel
  import S = ServerDispatcher

  /** A stored callback: the position of its request among the accepted ones, and its feature. */
  datatype Callback = Callback(serial: nat, feature: string)

  /** A call of it: with a confirmation of some feature's type, or with an error only. */
  datatype Invocation = Invocation(callback: Callback, confirmation: Option<string>)

  datatype State = State(
    server: S.State,
    callbacks: Lists<Callback>,
    invoked: map<ClientId, seq<Invocation>>)

  function Fresh(capacity: nat, timed: bool): (s: State) {
    State(S.Fresh(capacity, timed), map[], map[])
  }

  function InvokedOf(s: State, c: ClientId): (r: seq<Invocation>) {
    if c in s.invoked then s.invoked[c] else []
  }

  function ConfirmationOf(o: Outcome): (r: Option<string>) {
    if o.Confirmed? then Some(o.feature) else None
  }

  // ----- What the dispatcher reports -----

  function TailReports(s: S.State, c: ClientId, writeOk: bool): (r: seq<Outcome>) {
    if S.WillDispatch(s) && c in s.queues && !writeOk then [WriteFailed] else []
  }

  /** The outcomes handed to the handlers during a step, in order, all for the step's client. */
  function Reports(s: S.State, e: S.Event): (r: seq<Outcome>)
    requires S.Enabled(s, e)
  {
    match e
    case Answer(c, id, rejected) => if S.Expected(s, c, id) then [Verdict(s.slots[c], rejected)] else []
    case OnRequest(ok) =>
      if s.requests[0] in s.queues then TailReports(S.RequestSeen(s), s.requests[0], ok) else []
    case OnTimeout(ok) =>
      (if s.timeouts[0] in s.slots then [TimedOut] else []) + TailReports(S.TimeoutTaken(s), s.timeouts[0], ok)
    case OnReady(ok) => TailReports(S.ReadyTaken(s), s.ready[0], ok)
    case _ => []
  }

  // ----- Steps -----

  /** handleIncomingConfirmation, handleIncomingError and handleCanceledRequest. */
  function Reported(s: State, c: ClientId, o: Outcome): (r: State) {
    var list := ListOf(s.callbacks, c);
    if list == [] then s
    else
      s.(callbacks := Popped(s.callbacks, c),
         invoked := s.invoked[c := InvokedOf(s, c) + [Invocation(list[0], ConfirmationOf(o))]])
  }

  function AllReported(s: State, c: ClientId, os: seq<Outcome>): (r: State)
    decreases |os|
  {
    if os == [] then s else AllReported(Reported(s, c, os[0]), c, os[1..])
  }

  function Errors(list: seq<Callback>): (r: seq<Invocation>)
    ensures |r| == |list|
  {
    seq(|list|, i requires 0 <= i < |list| => Invocation(list[i], None))
  }

  function Drained(s: State, c: ClientId): (r: State) {
    s.(callbacks := s.callbacks - {c},
       invoked := s.invoked[c := InvokedOf(s, c) + Errors(ListOf(s.callbacks, c))])
  }

  /** SendRequestAsync: the callback stays only if the server accepted the request. */
  function Asked(s: State, c: ClientId, b: Bundle): (r: Lists<Callback>) {
    var cb := Callback(|S.HistoryOf(s.server, c).accepted|, b.request.feature);
    var all := Appended(s.callbacks, c, cb);
    if S.Accepts(s.server, c) then all else RolledBack(all, c)
  }

  function Step(s: State, e: S.Event, drains: bool): (r: State)
    requires S.Enabled(s.server, e)
  {
    var t := s.(server := S.Step(s.server, e));
    match e
    case Submit(c, b) => t.(callbacks := Asked(s, c, b))
    case Disconnect(c) => if drains then Drained(t, c) else t
    case _ =>
      match S.Target(s.server, e)
      case Some(c) => AllReported(t, c, Reports(s.server, e))
      case None => t
  }

  ghost predicate Runs(s: State, es: seq<S.Event>, drains: bool)
    decreases |es|
  {
    es == [] || (S.Enabled(s.server, es[0]) && Runs(Step(s, es[0], drains), es[1..], drains))
  }

  ghost function After(s: State, es: seq<S.Event>, drains: bool): (r: State)
    requires Runs(s, es, drains)
    decreases |es|
  {
    if es == [] then s else After(Step(s, es[0], drains), es[1..], drains)
  }

  // ----- Alignment -----

  /** The callbacks that should be waiting for a queue whose head has position base. */
  function Waiting(base: nat, queue: seq<Bundle>): (r: seq<Callback>)
    ensures |r| == |queue|
  {
    seq(|queue|, i requires 0 <= i < |queue| => Callback(base + i, queue[i].request.feature))
  }

  /** The calls that should have been made for a list of finished requests. */
  function Calls(done: seq<Done>): (r: seq<Invocation>)
    ensures |r| == |done|
  {
    seq(|done|, i requires 0 <= i < |done| =>
      Invocation(Callback(i, done[i].bundle.request.feature), ConfirmationOf(done[i].outcome)))
  }

  /**
   The i-th stored callback belongs to the i-th queued request, and the calls made so far are
   one per finished request, in order, each with its own request's outcome.
   */
  ghost predicate Fitting(ch: Ch.Channel, list: seq<Callback>, calls: seq<Invocation>) {
    list == Waiting(|ch.finished|, ch.queue) && calls == Calls(ch.finished)
  }

  ghost predicate Aligned(s: State, c: ClientId) {
    Fitting(S.View(s.server, c), ListOf(s.callbacks, c), InvokedOf(s, c))
  }

  lemma FittingAccept(ch: Ch.Channel, b: Bundle, list: seq<Callback>, calls: seq<Invocation>)
    requires Fitting(ch, list, calls) && Ch.Inv(ch) && Ch.Can(ch, Ch.Accept(b))
    ensures Fitting(Ch.Apply(ch, Ch.Accept(b)), list + [Callback(|ch.accepted|, b.request.feature)], calls)
  {
    Ch.BundlesAt(ch.finished);
    assert |ch.accepted| == |ch.finished| + |ch.queue|;
  }

  lemma FittingFinish(ch: Ch.Channel, o: Outcome, list: seq<Callback>, calls: seq<Invocation>)
    requires Fitting(ch, list, calls) && Ch.Can(ch, Ch.Finish(o))
    ensures list != []
    ensures Fitting(Ch.Apply(ch, Ch.Finish(o)), list[1..], calls + [Invocation(list[0], ConfirmationOf(o))])
  {
  }

  lemma FittingDiscard(ch: Ch.Channel, list: seq<Callback>, calls: seq<Invocation>)
    requires Fitting(ch, list, calls)
    ensures Fitting(Ch.Apply(ch, Ch.Discard), [], calls + Errors(list))
  {
    var more := Ch.Discarded(ch.queue, ch.pending);
    var t := Ch.Apply(ch, Ch.Discard);
    assert t.finished == ch.finished + more;
    assert Calls(t.finished) == calls + Errors(list);
  }

  /** The outcomes among the operations of a channel. */
  function Outcomes(ops: seq<Ch.Op>): (r: seq<Outcome>)
    decreases |ops|
  {
    if ops == [] then []
    else if ops[0].Finish? then [ops[0].outcome] + Outcomes(ops[1..])
    else Outcomes(ops[1..])
  }

  lemma {:induction false} OutcomesAppend(a: seq<Ch.Op>, b: seq<Ch.Op>)
    ensures Outcomes(a + b) == Outcomes(a) + Outcomes(b)
    decreases |a|
  {
    if a == [] {
      assert a + b == b;
    } else {
      OutcomesAppend(a[1..], b);
      assert (a + b)[1..] == a[1..] + b && (a + b)[0] == a[0];
    }
  }

  predicate Working(op: Ch.Op) {
    op.Send? || op.Resend? || op.Finish?
  }

  lemma ReportedLists(s: State, c: ClientId, o: Outcome)
    requires ListOf(s.callbacks, c) != []
    ensures ListOf(Reported(s, c, o).callbacks, c) == ListOf(s.callbacks, c)[1..]
    ensures InvokedOf(Reported(s, c, o), c)
         == InvokedOf(s, c) + [Invocation(ListOf(s.callbacks, c)[0], ConfirmationOf(o))]
  {
    if |s.callbacks[c]| == 1 { assert s.callbacks[c][1..] == []; }
  }

  /** Each Finish of a working channel takes the callback of exactly that request. */
  lemma {:induction false} ReportsFit(ch: Ch.Channel, ops: seq<Ch.Op>, s: State, c: ClientId)
    requires Ch.Valid(ch, ops) && (forall i :: 0 <= i < |ops| ==> Working(ops[i]))
    requires Fitting(ch, ListOf(s.callbacks, c), InvokedOf(s, c))
    ensures var t := AllReported(s, c, Outcomes(ops));
            Fitting(Ch.After(ch, ops), ListOf(t.callbacks, c), InvokedOf(t, c))
    decreases |ops|
  {
    if ops != [] {
      var op, rest := ops[0], ops[1..];
      forall i | 0 <= i < |rest| ensures Working(rest[i]) { assert rest[i] == ops[i + 1]; }
      if op.Finish? {
        FittingFinish(ch, op.outcome, ListOf(s.callbacks, c), InvokedOf(s, c));
        ReportedLists(s, c, op.outcome);
        ReportsFit(Ch.Apply(ch, op), rest, Reported(s, c, op.outcome), c);
        assert Outcomes(ops)[0] == op.outcome && Outcomes(ops)[1..] == Outcomes(rest);
      } else {
        ReportsFit(Ch.Apply(ch, op), rest, s, c);
      }
    }
  }

  lemma TailReportsAreOutcomes(s: S.State, c: ClientId, writeOk: bool)
    ensures TailReports(s, c, writeOk) == Outcomes(S.TailOps(s, c, writeOk))
    ensures forall op :: op in S.TailOps(s, c, writeOk) ==> Working(op)
  {
    var first := if c in s.slots then Ch.Resend else Ch.Send;
    assert [first][1..] == [];
    assert [first, Ch.Finish(WriteFailed)][1..] == [Ch.Finish(WriteFailed)];
    assert [Ch.Finish(WriteFailed)][1..] == [];
  }

  predicate Reporting(e: S.Event) {
    e.Answer? || e.OnRequest? || e.OnTimeout? || e.OnReady?
  }

  /** The handlers hear of exactly the requests that the step finishes. */
  lemma ReportsAreOutcomes(s: S.State, e: S.Event)
    requires S.Enabled(s, e) && Reporting(e)
    ensures Reports(s, e) == Outcomes(S.TargetOps(s, e))
    ensures forall op :: op in S.TargetOps(s, e) ==> Working(op)
  {
    match e
    case OnRequest(ok) =>
      if s.requests[0] in s.queues { TailReportsAreOutcomes(S.RequestSeen(s), s.requests[0], ok); }
    case OnReady(ok) => TailReportsAreOutcomes(S.ReadyTaken(s), s.ready[0], ok);
    case OnTimeout(ok) =>
      var first := if s.timeouts[0] in s.slots then [Ch.Finish(TimedOut)] else [];
      TailReportsAreOutcomes(S.TimeoutTaken(s), s.timeouts[0], ok);
      assert [Ch.Finish(TimedOut)][1..] == [];
      OutcomesAppend(first, S.TailOps(S.TimeoutTaken(s), s.timeouts[0], ok));
    case Answer(c, id, rejected) =>
      if S.Expected(s, c, id) { assert [Ch.Finish(Verdict(s.slots[c], rejected))][1..] == []; }
  }

  lemma {:induction false} ReportedOthers(s: State, c: ClientId, os: seq<Outcome>, d: ClientId)
    requires d != c
    ensures var t := AllReported(s, c, os);
            && t.server == s.server
            && ListOf(t.callbacks, d) == ListOf(s.callbacks, d)
            && InvokedOf(t, d) == InvokedOf(s, d)
    decreases |os|
  {
    if os != [] {
      ReportedOthers(Reported(s, c, os[0]), c, os[1..], d);
    }
  }

  lemma {:induction false} ReportedServer(s: State, c: ClientId, os: seq<Outcome>)
    ensures AllReported(s, c, os).server == s.server
    decreases |os|
  {
    if os != [] {
      ReportedServer(Reported(s, c, os[0]), c, os[1..]);
    }
  }

  lemma StepServer(s: State, e: S.Event, drains: bool)
    requires S.Enabled(s.server, e)
    ensures Step(s, e, drains).server == S.Step(s.server, e)
  {
    match S.Target(s.server, e)
    case Some(c) => ReportedServer(s.(server := S.Step(s.server, e)), c, Reports(s.server, e));
    case None =>
  }

  lemma AlignedOther(s: State, e: S.Event, drains: bool, d: ClientId)
    requires S.Enabled(s.server, e) && S.Target(s.server, e) != Some(d) && Aligned(s, d)
    ensures Aligned(Step(s, e, drains), d)
  {
    S.StepIsolates(s.server, e, d);
    StepServer(s, e, drains);
    match S.Target(s.server, e)
    case Some(c) => ReportedOthers(s.(server := S.Step(s.server, e)), c, Reports(s.server, e), d);
    case None =>
  }

  lemma AlignedReport(s: State, e: S.Event, c: ClientId, drains: bool)
    requires S.Enabled(s.server, e) && S.Target(s.server, e) == Some(c) && Reporting(e)
    requires Ch.Inv(S.View(s.server, c)) && Aligned(s, c)
    ensures Aligned(Step(s, e, drains), c)
  {
    var ch := S.View(s.server, c);
    var t := s.(server := S.Step(s.server, e));
    var ops := S.TargetOps(s.server, e);
    S.TargetRefines(s.server, e, c);
    ReportsAreOutcomes(s.server, e);
    forall i | 0 <= i < |ops| ensures Working(ops[i]) { assert ops[i] in ops; }
    assert InvokedOf(t, c) == InvokedOf(s, c);
    ReportsFit(ch, ops, t, c);
    StepServer(s, e, drains);
    assert Step(s, e, drains) == AllReported(t, c, Reports(s.server, e));
  }

  lemma AskedAccepted(s: State, c: ClientId, b: Bundle)
    requires S.Enabled(s.server, S.Submit(c, b)) && S.Accepts(s.server, c)
    ensures S.View(S.Step(s.server, S.Submit(c, b)), c) == Ch.Apply(S.View(s.server, c), Ch.Accept(b))
    ensures ListOf(Asked(s, c, b), c)
         == ListOf(s.callbacks, c) + [Callback(|S.View(s.server, c).accepted|, b.request.feature)]
  {
  }

  lemma AskedRefused(s: State, c: ClientId, b: Bundle)
    requires !S.Accepts(s.server, c)
    ensures ListOf(Asked(s, c, b), c) == ListOf(s.callbacks, c)
  {
    var list := ListOf(s.callbacks, c) + [Callback(|S.HistoryOf(s.server, c).accepted|, b.request.feature)];
    assert list[..|list| - 1] == ListOf(s.callbacks, c);
  }

  lemma AlignedSubmit(s: State, c: ClientId, b: Bundle, drains: bool)
    requires S.Enabled(s.server, S.Submit(c, b)) && Ch.Inv(S.View(s.server, c)) && Aligned(s, c)
    ensures Aligned(Step(s, S.Submit(c, b), drains), c)
  {
    var t := Step(s, S.Submit(c, b), drains);
    assert t.callbacks == Asked(s, c, b) && t.server == S.Step(s.server, S.Submit(c, b));
    assert InvokedOf(t, c) == InvokedOf(s, c);
    if S.Accepts(s.server, c) {
      FittingAccept(S.View(s.server, c), b, ListOf(s.callbacks, c), InvokedOf(s, c));
      AskedAccepted(s, c, b);
    } else {
      AskedRefused(s, c, b);
      assert t.server == s.server;
    }
  }

  lemma AlignedDisconnect(s: State, c: ClientId)
    requires Aligned(s, c)
    ensures Aligned(Step(s, S.Disconnect(c), true), c)
  {
    FittingDiscard(S.View(s.server, c), ListOf(s.callbacks, c), InvokedOf(s, c));
    assert S.View(S.Step(s.server, S.Disconnect(c)), c) == Ch.Apply(S.View(s.server, c), Ch.Discard);
  }

  lemma AlignedStep(s: State, e: S.Event, c: ClientId)
    requires S.Enabled(s.server, e) && Ch.Inv(S.View(s.server, c)) && Aligned(s, c)
    ensures Aligned(Step(s, e, true), c)
  {
    if S.Target(s.server, e) != Some(c) {
      AlignedOther(s, e, true, c);
    } else {
      match e {
        case Submit(_, b) => AlignedSubmit(s, c, b, true);
        case Disconnect(_) => AlignedDisconnect(s, c);
        case Connect(_) => assert S.View(S.Step(s.server, e), c) == S.View(s.server, c);
        case _ => AlignedReport(s, e, c, true);
      }
    }
  }

  lemma {:induction false} AlignedRun(s: State, es: seq<S.Event>, c: ClientId)
    requires Runs(s, es, true) && Ch.Inv(S.View(s.server, c)) && Aligned(s, c)
    ensures Aligned(After(s, es, true), c) && Ch.Inv(S.View(After(s, es, true).server, c))
    decreases |es|
  {
    if es != [] {
      AlignedStep(s, es[0], c);
      StepServer(s, es[0], true);
      S.StepRefines(s.server, es[0], c);
      AlignedRun(Step(s, es[0], true), es[1..], c);
    }
  }

  /**
   With a disconnect handler, in every reachable state and for every client: the stored
   callbacks are those of the queued requests in order; the calls made are exactly one per
   finished request, in order, with that request's own outcome; and a confirmation passed to a
   callback has the type the callback asserts.
   */
  lemma CallbacksAligned(capacity: nat, timed: bool, es: seq<S.Event>, c: ClientId)
    requires Runs(Fresh(capacity, timed), es, true)
    ensures var s := After(Fresh(capacity, timed), es, true); var ch := S.View(s.server, c);
            && ListOf(s.callbacks, c) == Waiting(|ch.finished|, ch.queue)
            && InvokedOf(s, c) == Calls(ch.finished)
            && (forall i :: 0 <= i < |InvokedOf(s, c)| && InvokedOf(s, c)[i].confirmation.Some? ==>
                  InvokedOf(s, c)[i].confirmation.value == InvokedOf(s, c)[i].callback.feature)
  {
    var s0 := Fresh(capacity, timed);
    assert S.View(s0.server, c) == Ch.EMPTY;
    AlignedRun(s0, es, c);
  }

  // ----- Without the drain -----

  /** Leaving the callbacks of a lost peer in place keeps the alignment only if it had nothing queued. */
  lemma UndrainedDisconnectAlignedIff(s: State, c: ClientId)
    requires Aligned(s, c)
    ensures Aligned(Step(s, S.Disconnect(c), false), c) <==> S.QueueOf(s.server, c) == []
  {
    var t := Step(s, S.Disconnect(c), false);
    assert S.QueueOf(t.server, c) == [] && ListOf(t.callbacks, c) == ListOf(s.callbacks, c);
    if S.QueueOf(s.server, c) == [] {
      FittingDiscard(S.View(s.server, c), [], InvokedOf(s, c));
      assert InvokedOf(s, c) + Errors([]) == InvokedOf(s, c);
      assert S.View(t.server, c) == Ch.Apply(S.View(s.server, c), Ch.Discard);
    }
  }

  /** An answer takes the oldest callback, whatever it was stored for. */
  lemma AnswerTakesOldest(s: State, c: ClientId, id: string)
    requires S.Expected(s.server, c, id) && id != "" && ListOf(s.callbacks, c) != []
    ensures InvokedOf(Step(s, S.Answer(c, id, false), false), c)
         == InvokedOf(s, c) + [Invocation(ListOf(s.callbacks, c)[0], Some(s.server.slots[c].request.feature))]
  {
    var o := Verdict(s.server.slots[c], false);
    var t := s.(server := S.Step(s.server, S.Answer(c, id, false)));
    ReportedLists(t, c, o);
    assert [o][1..] == [];
    assert AllReported(t, c, [o]) == AllReported(Reported(t, c, o), c, []);
  }

  lemma {:induction false} Extend(s: State, es: seq<S.Event>, e: S.Event)
    requires Runs(s, es, false) && S.Enabled(After(s, es, false).server, e)
    ensures Runs(s, es + [e], false) && After(s, es + [e], false) == Step(After(s, es, false), e, false)
    decreases |es|
  {
    if es == [] {
      assert [e][1..] == [] && es + [e] == [e];
    } else {
      Extend(Step(s, es[0], false), es[1..], e);
      assert (es + [e])[1..] == es[1..] + [e];
    }
  }

  /** One peer was asked something and left; its callback is still there. */
  lemma LeftoverRun() returns (es: seq<S.Event>)
    ensures Runs(Fresh(0, true), es, false)
    ensures var s := After(Fresh(0, true), es, false);
            && ListOf(s.callbacks, S.PEER_A) == [Callback(0, "Reset")] && InvokedOf(s, S.PEER_A) == []
            && S.PEER_A !in s.server.queues && S.PEER_A !in s.server.slots
            && S.ContextOf(s.server, S.PEER_A).Idle? && s.server.requests == [S.PEER_A, S.PEER_A]
            && s.server.ready == [] && s.server.capacity == 0
  {
    var s0 := Fresh(0, true);
    es := [];
    Extend(s0, es, S.Connect(S.PEER_A));
    es := es + [S.Connect(S.PEER_A)];
    assert AllReported(s0.(server := S.Step(s0.server, S.Connect(S.PEER_A))), S.PEER_A, []).callbacks == map[];
    Extend(s0, es, S.Submit(S.PEER_A, S.FIRST));
    es := es + [S.Submit(S.PEER_A, S.FIRST)];
    Extend(s0, es, S.Disconnect(S.PEER_A));
    es := es + [S.Disconnect(S.PEER_A)];
  }

  lemma ReturnedRun() returns (es: seq<S.Event>)
    ensures Runs(Fresh(0, true), es, false)
    ensures var s := After(Fresh(0, true), es, false);
            && |ListOf(s.callbacks, S.PEER_A)| == 2 && ListOf(s.callbacks, S.PEER_A)[0] == Callback(0, "Reset")
            && InvokedOf(s, S.PEER_A) == []
            && S.PEER_A in s.server.queues && s.server.queues[S.PEER_A] == [S.SECOND]
            && S.PEER_A !in s.server.slots && S.ContextOf(s.server, S.PEER_A).Idle?
            && s.server.requests == [S.PEER_A, S.PEER_A, S.PEER_A] && s.server.ready == []
  {
    var s0 := Fresh(0, true);
    es := LeftoverRun();
    Extend(s0, es, S.Connect(S.PEER_A));
    es := es + [S.Connect(S.PEER_A)];
    var s := After(s0, es, false);
    assert ListOf(s.callbacks, S.PEER_A) == [Callback(0, "Reset")];
    Extend(s0, es, S.Submit(S.PEER_A, S.SECOND));
    es := es + [S.Submit(S.PEER_A, S.SECOND)];
  }

  /**
   Without the drain a peer that left with a Reset outstanding and came back gets its
   ClearCache confirmation delivered to the Reset callback, whose type assertion fails.
   */
  lemma UndrainedMisdelivers() returns (es: seq<S.Event>)
    ensures Runs(Fresh(0, true), es, false)
    ensures InvokedOf(After(Fresh(0, true), es, false), S.PEER_A)
         == [Invocation(Callback(0, "Reset"), Some("ClearCache"))]
  {
    var s0 := Fresh(0, true);
    es := ReturnedRun();
    var s := After(s0, es, false);
    S.SignalDispatches(s.server);
    Extend(s0, es, S.OnRequest(true));
    es := es + [S.OnRequest(true)];
    var t := After(s0, es, false);
    assert Reports(s.server, S.OnRequest(true)) == [];
    assert t == s.(server := S.Step(s.server, S.OnRequest(true)));
    assert S.SlotOf(t.server, S.PEER_A) == Some(S.SECOND);
    AnswerTakesOldest(t, S.PEER_A, "2");
    Extend(s0, es, S.Answer(S.PEER_A, "2", false));
    es := es + [S.Answer(S.PEER_A, "2", false)];
  }
}
