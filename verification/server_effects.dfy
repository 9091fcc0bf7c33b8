/**
 What the steps of the server dispatcher do, seen from outside and in the pump's own variables:
 which request is written, which is ended and how, and what the next iteration will start from.
 */
module ServerEffects {
  import opened Types
  import opened ServerDispatcher
  import Ch = Channel

  // ----- Capacity -----

  lemma DispatchedCapacity(s: State, c: ClientId, writeOk: bool)
    requires c in s.queues ==> s.queues[c] != []
    ensures Dispatched(s, c, writeOk).capacity == s.capacity
  {
  }

  lemma TailCapacity(s: State, c: ClientId, writeOk: bool)
    requires !TailCrashes(s, c)
    ensures Tail(s, c, writeOk).capacity == s.capacity
  {
    if WillDispatch(s) { DispatchedCapacity(s, c, writeOk); }
  }

  lemma TakenCapacity(s: State)
    ensures s.requests != [] ==> ClientForgotten(s).capacity == s.capacity
    ensures s.ready != [] ==> ReadyTaken(s).capacity == s.capacity
    ensures s.timeouts != [] && (s.timeouts[0] in s.slots ==> QueueOf(s, s.timeouts[0]) != []) ==>
              TimeoutTaken(s).capacity == s.capacity
  {
  }

  lemma CallerCapacity(s: State, e: Event)
    requires Enabled(s, e) && !e.OnRequest? && !e.OnReady? && !e.OnTimeout?
    ensures Step(s, e).capacity == s.capacity
  {
  }

  lemma CapacityConstant(s: State, e: Event)
    requires Enabled(s, e)
    ensures Step(s, e).capacity == s.capacity
  {
    TakenCapacity(s);
    match e
    case OnRequest(ok) => if s.requests[0] in s.queues { TailCapacity(RequestSeen(s), s.requests[0], ok); }
    case OnReady(ok) => TailCapacity(ReadyTaken(s), s.ready[0], ok);
    case OnTimeout(ok) => TailCapacity(TimeoutTaken(s), s.timeouts[0], ok);
    case _ => CallerCapacity(s, e);
  }

  ghost predicate Within(s: State, c: ClientId) {
    s.capacity > 0 ==> |QueueOf(s, c)| <= s.capacity
  }

  lemma TailAcceptsNothing(s: State, c: ClientId, writeOk: bool)
    ensures forall i :: 0 <= i < |TailOps(s, c, writeOk)| ==> !TailOps(s, c, writeOk)[i].Accept?
  {
  }

  lemma OnlySubmitAccepts(s: State, e: Event, c: ClientId)
    requires Enabled(s, e) && !e.Submit?
    ensures forall i :: 0 <= i < |Ops(s, e, c)| ==> !Ops(s, e, c)[i].Accept?
  {
    if Target(s, e) == Some(c) {
      match e
      case OnRequest(ok) => TailAcceptsNothing(RequestSeen(s), c, ok);
      case OnReady(ok) => TailAcceptsNothing(ReadyTaken(s), c, ok);
      case OnTimeout(ok) => TailAcceptsNothing(TimeoutTaken(s), c, ok);
      case _ =>
    }
  }

  lemma WithinStep(s: State, e: Event, c: ClientId)
    requires Enabled(s, e) && Ch.Inv(View(s, c)) && Within(s, c)
    ensures Within(Step(s, e), c)
  {
    CapacityConstant(s, e);
    if e.Submit? && e.client == c {
      SubmitAppendsIffRoom(s, c, e.bundle);
    } else {
      StepRefines(s, e, c);
      if !e.Submit? { OnlySubmitAccepts(s, e, c); }
      Ch.QueueGrowsByAccept(View(s, c), Ops(s, e, c));
      assert QueueOf(Step(s, e), c) == View(Step(s, e), c).queue;
    }
  }

  lemma {:induction false} WithinRun(s: State, es: seq<Event>, c: ClientId)
    requires Runs(s, es) && Ch.Inv(View(s, c)) && Within(s, c)
    ensures Within(After(s, es), c) && After(s, es).capacity == s.capacity
    decreases |es|
  {
    if es != [] {
      WithinStep(s, es[0], c);
      CapacityConstant(s, es[0]);
      StepRefines(s, es[0], c);
      WithinRun(Step(s, es[0]), es[1..], c);
    }
  }

  /** In every run no client's bounded queue ever exceeds the capacity of the queue map. */
  lemma CapacityKept(capacity: nat, timed: bool, es: seq<Event>, c: ClientId)
    requires Runs(Fresh(capacity, timed), es)
    ensures capacity > 0 ==> |QueueOf(After(Fresh(capacity, timed), es), c)| <= capacity
  {
    assert View(Fresh(capacity, timed), c) == Ch.EMPTY;
    WithinRun(Fresh(capacity, timed), es, c);
  }

  // ----- Writes and outcomes -----

  /** How many of the client's requests an iteration ends before it looks for one to send. */
  function Skipped(s: State, e: Event, c: ClientId): (k: nat) {
    if e.OnTimeout? && c in s.slots then 1 else 0
  }

  /** Another client's queue, or what is left of this one's, asks for a dispatch after a timeout. */
  predicate CarriedAsks(s: State, c: ClientId, k: nat) {
    s.rdy && (if s.carried == Live(c) then |QueueOf(s, c)| > k else Contents(s) != [])
  }

  /** The request a step hands to the websocket for its client c, if any. */
  function Sends(s: State, e: Event, c: ClientId): (b: Option<Bundle>) {
    var q, k := QueueOf(s, c), Skipped(s, e, c);
    match e
    case OnRequest(_) => if q != [] && ContextOf(s, c).Idle? then Some(q[0]) else None
    case OnReady(_) => if q != [] then Some(q[0]) else None
    case OnTimeout(_) => if |q| > k && CarriedAsks(s, c, k) then Some(q[k]) else None
    case _ => None
  }

  /** The requests a step ends before that, with their outcomes. */
  function Ends(s: State, e: Event, c: ClientId): (ds: seq<Done>) {
    match e
    case Disconnect(_) => Ch.Discarded(QueueOf(s, c), SlotOf(s, c))
    case Answer(_, id, rejected) =>
      if c in s.slots && s.slots[c].id == id
      then [Done(s.slots[c], if rejected then Rejected else Confirmed(s.slots[c].request.feature))]
      else []
    case OnTimeout(_) => if c in s.slots then [Done(s.slots[c], TimedOut)] else []
    case _ => []
  }

  /** From one view of the client to the next, with these endings and this write. */
  predicate Effect(v: Ch.Channel, w: Ch.Channel, ended: seq<Done>, sent: Option<Bundle>, writeOk: bool) {
    var done := v.finished + ended;
    && w.writes == v.writes + (if sent.Some? then [Sent(|done|, sent.value)] else [])
    && w.finished == done + (if sent.Some? && !writeOk then [Done(sent.value, WriteFailed)] else [])
  }

  lemma EffectAfter(u: Ch.Channel, v: Ch.Channel, w: Ch.Channel, ended: seq<Done>, sent: Option<Bundle>, writeOk: bool)
    requires v.writes == u.writes && v.finished == u.finished + ended && Effect(v, w, [], sent, writeOk)
    ensures Effect(u, w, ended, sent, writeOk)
  {
  }

  lemma WriteEffect(s: State, c: ClientId)
    requires Ch.Shape(View(s, c)) && QueueOf(s, c) != []
    ensures var v, w := View(s, c), View(HeadWritten(s, c), c);
            && Ch.Shape(w) && w.queue == v.queue && w.pending == Some(v.queue[0])
            && w.writes == v.writes + [Sent(|v.finished|, v.queue[0])] && w.finished == v.finished
  {
    HeadWrittenView(s, c);
    Ch.ShapeStep(View(s, c), if c in s.slots then Ch.Resend else Ch.Send);
  }

  lemma RefusedEffect(s: State, c: ClientId)
    requires Ch.Shape(View(s, c)) && QueueOf(s, c) != []
    ensures Effect(View(s, c), View(WriteRefused(s, c), c), [], Some(QueueOf(s, c)[0]), false)
  {
    var w := HeadWritten(s, c);
    WriteEffect(s, c);
    assert SlotOf(w, c) == View(w, c).pending;
    CompletedView(w, c, WriteFailed);
    assert View(WriteRefused(s, c), c) == View(Completed(w, c, s.queues[c][0].id, WriteFailed), c);
  }

  lemma DispatchEffect(s: State, c: ClientId, writeOk: bool)
    requires Ch.Shape(View(s, c)) && QueueOf(s, c) != []
    ensures Effect(View(s, c), View(Dispatched(s, c, writeOk), c), [], Some(QueueOf(s, c)[0]), writeOk)
  {
    if writeOk {
      WriteEffect(s, c);
      assert View(WriteDone(s, c), c) == View(HeadWritten(s, c), c);
    } else {
      RefusedEffect(s, c);
    }
  }

  lemma TailEffect(s: State, c: ClientId, writeOk: bool)
    requires Ch.Shape(View(s, c)) && !TailCrashes(s, c)
    ensures Effect(View(s, c), View(Tail(s, c, writeOk), c), [],
                   if WillDispatch(s) && QueueOf(s, c) != [] then Some(QueueOf(s, c)[0]) else None, writeOk)
  {
    if WillDispatch(s) && QueueOf(s, c) != [] { DispatchEffect(s, c, writeOk); }
  }

  lemma RequestEffect(s: State, ok: bool)
    requires Enabled(s, OnRequest(ok)) && Ch.Shape(View(s, s.requests[0]))
    ensures var c, e := s.requests[0], OnRequest(ok);
            Effect(View(s, c), View(Step(s, e), c), Ends(s, e, c), Sends(s, e, c), ok)
  {
    var c := s.requests[0];
    if c in s.queues {
      assert View(RequestSeen(s), c) == View(s, c);
      TailEffect(RequestSeen(s), c, ok);
    } else {
      ForgottenView(s);
    }
  }

  lemma ReadyEffect(s: State, ok: bool)
    requires Enabled(s, OnReady(ok)) && Ch.Shape(View(s, s.ready[0]))
    ensures var c, e := s.ready[0], OnReady(ok);
            Effect(View(s, c), View(Step(s, e), c), Ends(s, e, c), Sends(s, e, c), ok)
  {
    ReadyView(s);
    TailEffect(ReadyTaken(s), s.ready[0], ok);
  }

  lemma TimeoutTakenView(s: State)
    requires s.timeouts != [] && Ch.Shape(View(s, s.timeouts[0]))
    ensures s.timeouts[0] in s.slots ==> QueueOf(s, s.timeouts[0]) != []
    ensures var c := s.timeouts[0];
            View(TimeoutTaken(s), c) == if c in s.slots then Ch.Apply(View(s, c), Ch.Finish(TimedOut)) else View(s, c)
  {
    var c := s.timeouts[0];
    DisarmedView(s, c);
    var t := Disarmed(s, c).(timeouts := s.timeouts[1..]);
    assert View(t, c) == View(s, c);
    if c in s.slots { CompletedView(t, c, TimedOut); }
  }

  lemma TimeoutAsks(s: State)
    requires s.timeouts != [] && Ch.Shape(View(s, s.timeouts[0]))
    requires s.timeouts[0] in s.slots ==> QueueOf(s, s.timeouts[0]) != []
    ensures WillDispatch(TimeoutTaken(s))
        <==> CarriedAsks(s, s.timeouts[0], Skipped(s, OnTimeout(true), s.timeouts[0]))
  {
    TimeoutFrame(s);
    ContentsAfterTimeout(s);
  }

  /** The view once the timed-out request is gone. */
  lemma TimedOutView(v: Ch.Channel, w: Ch.Channel)
    requires Ch.Shape(v) && w == if v.pending.Some? then Ch.Apply(v, Ch.Finish(TimedOut)) else v
    ensures Ch.Shape(w) && w.writes == v.writes
    ensures w.finished == v.finished + (if v.pending.Some? then [Done(v.pending.value, TimedOut)] else [])
    ensures w.queue == if v.pending.Some? then v.queue[1..] else v.queue
  {
    if v.pending.Some? { Ch.ShapeStep(v, Ch.Finish(TimedOut)); }
  }

  lemma TimeoutSends(s: State)
    requires s.timeouts != [] && Ch.Shape(View(s, s.timeouts[0]))
    ensures var c := s.timeouts[0];
            && (c in s.slots ==> QueueOf(s, c) != [])
            && var t := TimeoutTaken(s);
               && Ch.Shape(View(t, c)) && View(t, c).writes == View(s, c).writes
               && View(t, c).finished == View(s, c).finished + Ends(s, OnTimeout(true), c)
               && Sends(s, OnTimeout(true), c)
                  == (if WillDispatch(t) && QueueOf(t, c) != [] then Some(QueueOf(t, c)[0]) else None)
  {
    var c := s.timeouts[0];
    TimeoutTakenView(s);
    TimedOutView(View(s, c), View(TimeoutTaken(s), c));
    TimeoutAsks(s);
    assert QueueOf(TimeoutTaken(s), c) == View(TimeoutTaken(s), c).queue;
  }

  lemma TimeoutEffect(s: State, ok: bool)
    requires Enabled(s, OnTimeout(ok)) && Ch.Shape(View(s, s.timeouts[0]))
    ensures var c, e := s.timeouts[0], OnTimeout(ok);
            Effect(View(s, c), View(Step(s, e), c), Ends(s, e, c), Sends(s, e, c), ok)
  {
    var c, e, t := s.timeouts[0], OnTimeout(ok), TimeoutTaken(s);
    TimeoutSends(s);
    TailEffect(t, c, ok);
    EffectAfter(View(s, c), View(t, c), View(Step(s, e), c), Ends(s, e, c), Sends(s, e, c), ok);
  }

  lemma AnswerEffect(s: State, c: ClientId, id: string, rejected: bool)
    requires Enabled(s, Answer(c, id, rejected)) && Ch.Shape(View(s, c))
    ensures var e := Answer(c, id, rejected); Effect(View(s, c), View(Step(s, e), c), Ends(s, e, c), None, true)
  {
    if Expected(s, c, id) { CompletedView(s, c, Verdict(s.slots[c], rejected)); }
  }

  lemma CallerEffect(s: State, e: Event, c: ClientId)
    requires Enabled(s, e) && Target(s, e) == Some(c) && Ch.Shape(View(s, c))
    requires e.Connect? || e.Disconnect? || e.Submit? || e.Answer?
    ensures Effect(View(s, c), View(Step(s, e), c), Ends(s, e, c), None, true)
  {
    match e
    case Answer(_, id, rejected) => AnswerEffect(s, c, id, rejected);
    case Disconnect(_) => assert View(Step(s, e), c) == Ch.Apply(View(s, c), Ch.Discard);
    case Submit(_, b) =>
    case Connect(_) => assert View(Step(s, e), c) == View(s, c);
  }

  /**
   What the outside sees of a step: its client's pending request is ended by an answer or a timeout,
   or everything by a disconnect; then at most one request is written, and one whose write fails
   is ended at once. Other clients see nothing.
   */
  lemma StepEffects(s: State, e: Event, c: ClientId)
    requires Enabled(s, e) && Ch.Inv(View(s, c))
    ensures var ok := (e.OnRequest? || e.OnReady? || e.OnTimeout?) && e.writeOk;
            if Target(s, e) == Some(c)
            then Effect(View(s, c), View(Step(s, e), c), Ends(s, e, c), Sends(s, e, c), ok)
            else View(Step(s, e), c) == View(s, c)
  {
    if Target(s, e) == Some(c) {
      match e
      case OnRequest(ok) => RequestEffect(s, ok);
      case OnReady(ok) => ReadyEffect(s, ok);
      case OnTimeout(ok) => TimeoutEffect(s, ok);
      case _ => CallerEffect(s, e, c);
    } else {
      StepIsolates(s, e, c);
    }
  }

  // ----- The pump's variables -----

  lemma TailVariables(s: State, c: ClientId, writeOk: bool)
    requires !TailCrashes(s, c)
    ensures Tail(s, c, writeOk).carried == s.carried
    ensures Tail(s, c, writeOk).rdy <==> s.rdy && Contents(s) == []
  {
  }

  /** What a request or ready event of client c leaves for the next iteration. */
  predicate CarriesOn(s: State, t: State, c: ClientId, mayDispatch: bool) {
    if c in s.queues then t.carried == Live(c) && (t.rdy <==> mayDispatch && s.queues[c] == [])
    else t.carried == NoQueue && t.rdy == s.rdy
  }

  lemma RequestVariables(s: State, ok: bool)
    requires Enabled(s, OnRequest(ok))
    ensures CarriesOn(s, Step(s, OnRequest(ok)), s.requests[0], ContextOf(s, s.requests[0]).Idle?)
  {
    if s.requests[0] in s.queues {
      TailVariables(RequestSeen(s), s.requests[0], ok);
    } else {
      assert ClientForgotten(s).carried == NoQueue && ClientForgotten(s).rdy == s.rdy;
    }
  }

  lemma ReadyVariables(s: State, ok: bool)
    requires Enabled(s, OnReady(ok))
    ensures CarriesOn(s, Step(s, OnReady(ok)), s.ready[0], true)
  {
    DisarmedView(s, s.ready[0]);
    TailVariables(ReadyTaken(s), s.ready[0], ok);
  }

  lemma TimeoutVariables(s: State, ok: bool)
    requires Enabled(s, OnTimeout(ok)) && Ch.Shape(View(s, s.timeouts[0]))
    ensures var c, t := s.timeouts[0], Step(s, OnTimeout(ok));
            t.carried == s.carried && (t.rdy <==> s.rdy && !CarriedAsks(s, c, Skipped(s, OnTimeout(ok), c)))
  {
    TimeoutFrame(s);
    TimeoutAsks(s);
    TailVariables(TimeoutTaken(s), s.timeouts[0], ok);
  }

  /**
   What an iteration leaves for the next one. A request or ready event carries its own client's
   queue on, a timeout whatever was carried before; and the flag stays set only if the carried
   queue was empty, for a removed client as it was.
   */
  lemma PumpVariables(s: State, e: Event)
    requires Enabled(s, e) && (e.OnTimeout? ==> Ch.Shape(View(s, s.timeouts[0])))
    ensures var t := Step(s, e);
      match e
      case OnRequest(_) => CarriesOn(s, t, s.requests[0], ContextOf(s, s.requests[0]).Idle?)
      case OnReady(_) => CarriesOn(s, t, s.ready[0], true)
      case OnTimeout(_) =>
        var c := s.timeouts[0];
        t.carried == s.carried && (t.rdy <==> s.rdy && !CarriedAsks(s, c, Skipped(s, e, c)))
      case _ => t.rdy == s.rdy
  {
    match e
    case OnRequest(ok) => RequestVariables(s, ok);
    case OnReady(ok) => ReadyVariables(s, ok);
    case OnTimeout(ok) => TimeoutVariables(s, ok);
    case _ =>
  }

  /** A removed queue that the pump still refers to keeps its contents; nobody else can change them. */
  lemma RemovedQueueSurvives(s: State, c: ClientId)
    requires Enabled(s, Disconnect(c))
    ensures Contents(Step(s, Disconnect(c))) == Contents(s)
    ensures Step(s, Disconnect(c)).carried != Live(c)
    ensures c !in Step(s, Disconnect(c)).queues && c !in Step(s, Disconnect(c)).slots
    ensures Step(s, Disconnect(c)).requests == s.requests + [c]
  {
  }
}
