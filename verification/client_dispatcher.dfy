/**
 DefaultClientDispatcher as a labelled step system over values.

 Each pump iteration, each SendRequest and each "complete, then tell the handler" is one step.
 A channel is the number of its buffered values plus its parked senders, which Go serves in
 FIFO order, so a send by another goroutine is never refused. A send by the pump on its own
 full channel would park the only receiver forever: `Blocks` says exactly when.
 */
module ClientDispatcher {
  import opened Types
  import opened PendingState
  import Ch = Channel

  datatype Phase = Running | Closing | Stopped

  datatype State = State(
    queue: seq<Bundle>,
    capacity: nat,
    slot: Option<Bundle>,
    signals: nat,
    tokens: nat,
    rdy: bool,
    paused: bool,
    phase: Phase,
    accepted: seq<Bundle>,
    finished: seq<Done>,
    writes: seq<Sent>)

  datatype Event =
    | Submit(bundle: Bundle)
    | Answer(id: string, rejected: bool)
    | Pause
    | Resume
    | OnSignal(writeOk: bool)
    | OnToken(writeOk: bool)
    | OnTimer(writeOk: bool)
    | Stop
    | OnClosed
    | Start

  /** A new dispatcher, before its first Start. */
  function Created(capacity: nat): (s: State) {
    State([], capacity, None, 0, 0, false, false, Stopped, [], [], [])
  }

  /** A new dispatcher that was started. */
  function Fresh(capacity: nat): (s: State) {
    State([], capacity, None, 0, 0, true, false, Running, [], [], [])
  }

  // ----- The operations the steps are made of -----

  predicate Full(s: State) {
    |s.queue| >= s.capacity && s.capacity > 0
  }

  /** CompleteRequest; o is recorded in the history only. */
  function Completed(s: State, id: string, o: Outcome): (r: State) {
    if s.queue == [] || s.queue[0].id != id then s
    else
      s.(queue := s.queue[1..],
         slot := DeletePending(s.slot, id),
         tokens := s.tokens + 1,
         finished := s.finished + [Done(s.queue[0], o)])
  }

  /** dispatchNextRequest, with the result of the write as a parameter. */
  function Dispatched(s: State, writeOk: bool): (r: State)
    requires s.queue != []
  {
    var b := s.queue[0];
    var sent := s.(slot := AddPending(s.slot, b), writes := s.writes + [Sent(|s.finished|, b)]);
    if writeOk then sent else Completed(sent, b.id, WriteFailed)
  }

  predicate WillDispatch(s: State) {
    !s.paused && s.rdy && s.queue != []
  }

  /** The part of a pump iteration after the select. */
  function Tail(s: State, writeOk: bool): (r: State) {
    if WillDispatch(s) then Dispatched(s, writeOk).(rdy := false) else s
  }

  predicate TailBlocks(s: State, writeOk: bool) {
    WillDispatch(s) && !writeOk && s.tokens > 0
  }

  function SignalTaken(s: State): (r: State)
    requires s.signals > 0
  {
    s.(signals := s.signals - 1)
  }

  function TokenTaken(s: State): (r: State)
    requires s.tokens > 0
  {
    s.(tokens := s.tokens - 1, rdy := true)
  }

  function TimerTaken(s: State): (r: State)
    requires s.slot.Some? ==> s.queue != []
  {
    if s.slot.Some? then Completed(s, s.queue[0].id, TimedOut) else s
  }

  // ----- Steps -----

  predicate PumpAlive(s: State) {
    !s.phase.Stopped?
  }

  /** The pump would dereference the head of an empty queue. */
  predicate Crashes(s: State, e: Event) {
    e.OnTimer? && s.slot.Some? && s.queue == []
  }

  /** The pump would send on its own full ready channel. */
  predicate Blocks(s: State, e: Event) {
    match e
    case OnSignal(ok) => s.signals > 0 && TailBlocks(SignalTaken(s), ok)
    case OnToken(ok) => s.tokens > 0 && TailBlocks(TokenTaken(s), ok)
    case OnTimer(ok) =>
      !Crashes(s, e) && ((s.slot.Some? && s.tokens > 0) || TailBlocks(TimerTaken(s), ok))
    case _ => false
  }

  /** The event can occur at all; whether the pump survives it is a different question. */
  predicate Offered(s: State, e: Event) {
    match e
    case Submit(b) => s.phase.Running? && b.id != ""
    case Answer(id, _) => id != ""
    case Pause => PumpAlive(s)
    case Resume => PumpAlive(s)
    case OnSignal(_) => PumpAlive(s) && s.signals > 0
    case OnToken(_) => PumpAlive(s) && s.tokens > 0
    case OnTimer(_) => PumpAlive(s)
    case Stop => s.phase.Running?
    case OnClosed => s.phase.Closing? && s.signals == 0
    case Start => s.phase.Stopped?
  }

  predicate Enabled(s: State, e: Event) {
    Offered(s, e) && !Crashes(s, e) && !Blocks(s, e)
  }

  function Step(s: State, e: Event): (r: State)
    requires Enabled(s, e)
  {
    match e
    case Submit(b) =>
      if Full(s) then s
      else s.(queue := s.queue + [b], signals := s.signals + 1, accepted := s.accepted + [b])
    case Answer(id, rejected) =>
      if s.slot.Some? && s.slot.value.id == id then Completed(s, id, Verdict(s.slot.value, rejected)) else s
    case Pause => s.(paused := true)
    case Resume =>
      if s.slot.Some? then s.(paused := false) else s.(paused := false, tokens := s.tokens + 1)
    case OnSignal(ok) => Tail(SignalTaken(s), ok)
    case OnToken(ok) => Tail(TokenTaken(s), ok)
    case OnTimer(ok) => Tail(TimerTaken(s), ok)
    case Stop => s.(phase := Closing)
    case OnClosed =>
      s.(queue := [], phase := Stopped, finished := s.finished + Ch.Discarded(s.queue, s.slot))
    case Start => s.(phase := Running, signals := 0, rdy := true)
  }

  ghost predicate Runs(s: State, es: seq<Event>)
    decreases |es|
  {
    es == [] || (Enabled(s, es[0]) && Runs(Step(s, es[0]), es[1..]))
  }

  ghost function After(s: State, es: seq<Event>): (r: State)
    requires Runs(s, es)
    decreases |es|
  {
    if es == [] then s else After(Step(s, es[0]), es[1..])
  }

  /** Steps of one session: everything except the final teardown and a restart. */
  predicate InSession(e: Event) {
    !e.OnClosed? && !e.Start?
  }

  ghost predicate SessionRun(s: State, es: seq<Event>) {
    Runs(s, es) && forall i :: 0 <= i < |es| ==> InSession(es[i])
  }

  // ----- Refinement of the one-outstanding channel -----

  function View(s: State): (ch: Ch.Channel) {
    Ch.Channel(s.queue, s.slot, s.accepted, s.finished, s.writes)
  }

  function DispatchOps(s: State, writeOk: bool): (ops: seq<Ch.Op>) {
    var first := if s.slot.Some? then Ch.Resend else Ch.Send;
    if writeOk then [first] else [first, Ch.Finish(WriteFailed)]
  }

  function TailOps(s: State, writeOk: bool): (ops: seq<Ch.Op>) {
    if WillDispatch(s) then DispatchOps(s, writeOk) else []
  }

  /** What the channel does while the dispatcher takes step e. */
  function Ops(s: State, e: Event): (ops: seq<Ch.Op>)
    requires Enabled(s, e)
  {
    match e
    case Submit(b) => if Full(s) then [] else [Ch.Accept(b)]
    case Answer(id, rejected) =>
      if s.slot.Some? && s.slot.value.id == id then [Ch.Finish(Verdict(s.slot.value, rejected))] else []
    case OnSignal(ok) => TailOps(SignalTaken(s), ok)
    case OnToken(ok) => TailOps(TokenTaken(s), ok)
    case OnTimer(ok) =>
      (if s.slot.Some? then [Ch.Finish(TimedOut)] else []) + TailOps(TimerTaken(s), ok)
    case OnClosed => [Ch.Discard]
    case _ => []
  }

  ghost predicate Matches(s: State, ops: seq<Ch.Op>, t: State) {
    Ch.Valid(View(s), ops) && Ch.After(View(s), ops) == View(t)
  }

  lemma CompletedMatches(s: State, o: Outcome)
    requires Ch.Inv(View(s)) && s.slot.Some? && Fits(o, s.slot.value)
    ensures s.queue != []
    ensures Matches(s, [Ch.Finish(o)], Completed(s, s.slot.value.id, o))
    ensures Ch.Inv(View(Completed(s, s.slot.value.id, o)))
  {
    Ch.OneOp(View(s), Ch.Finish(o));
    Ch.InvStep(View(s), Ch.Finish(o));
  }

  lemma DispatchMatches(s: State, writeOk: bool)
    requires Ch.Inv(View(s)) && s.queue != []
    ensures Matches(s, DispatchOps(s, writeOk), Dispatched(s, writeOk))
  {
    var op := if s.slot.Some? then Ch.Resend else Ch.Send;
    var sent := Dispatched(s, true);
    assert View(sent) == Ch.Apply(View(s), op);
    if writeOk {
      Ch.OneOp(View(s), op);
    } else {
      Ch.InvStep(View(s), op);
      var end := Ch.Finish(WriteFailed);
      assert View(Dispatched(s, false)) == Ch.Apply(View(sent), end);
      Ch.TwoOps(View(s), op, end);
    }
  }

  lemma TailMatches(s: State, writeOk: bool)
    requires Ch.Inv(View(s))
    ensures Matches(s, TailOps(s, writeOk), Tail(s, writeOk))
  {
    if WillDispatch(s) {
      DispatchMatches(s, writeOk);
    }
  }

  lemma TimerMatches(s: State, writeOk: bool)
    requires Ch.Inv(View(s)) && Enabled(s, OnTimer(writeOk))
    ensures Matches(s, Ops(s, OnTimer(writeOk)), Step(s, OnTimer(writeOk)))
  {
    if s.slot.Some? {
      CompletedMatches(s, TimedOut);
    }
    TailMatches(TimerTaken(s), writeOk);
    var first := if s.slot.Some? then [Ch.Finish(TimedOut)] else [];
    Ch.RunsCompose(View(s), first, TailOps(TimerTaken(s), writeOk));
  }

  /** Every step of a session is a run of at most three channel operations. */
  lemma StepRefines(s: State, e: Event)
    requires Ch.Inv(View(s)) && Enabled(s, e) && InSession(e)
    ensures Matches(s, Ops(s, e), Step(s, e))
    ensures Ch.Inv(View(Step(s, e)))
  {
    match e {
      case Submit(b) => if !Full(s) { Ch.OneOp(View(s), Ch.Accept(b)); }
      case Answer(id, rejected) =>
        if s.slot.Some? && s.slot.value.id == id { CompletedMatches(s, Verdict(s.slot.value, rejected)); }
      case OnSignal(ok) => TailMatches(SignalTaken(s), ok);
      case OnToken(ok) => TailMatches(TokenTaken(s), ok);
      case OnTimer(ok) => TimerMatches(s, ok);
      case Pause =>
      case Resume =>
      case Stop =>
    }
    Ch.InvRun(View(s), Ops(s, e));
  }

  ghost function RunOps(s: State, es: seq<Event>): (ops: seq<Ch.Op>)
    requires Runs(s, es)
    decreases |es|
  {
    if es == [] then [] else Ops(s, es[0]) + RunOps(Step(s, es[0]), es[1..])
  }

  lemma TailRun(s: State, es: seq<Event>)
    requires SessionRun(s, es) && es != []
    ensures SessionRun(Step(s, es[0]), es[1..]) && InSession(es[0])
  {
    forall i | 0 <= i < |es[1..]| ensures InSession(es[1..][i]) {
      assert es[1..][i] == es[i + 1];
    }
  }

  lemma {:induction false} RunRefinesFrom(s: State, es: seq<Event>)
    requires Ch.Inv(View(s)) && SessionRun(s, es)
    ensures Matches(s, RunOps(s, es), After(s, es))
    ensures Ch.Inv(View(After(s, es)))
    decreases |es|
  {
    if es != [] {
      TailRun(s, es);
      StepRefines(s, es[0]);
      RunRefinesFrom(Step(s, es[0]), es[1..]);
      Ch.RunsCompose(View(s), Ops(s, es[0]), RunOps(Step(s, es[0]), es[1..]));
    }
  }

  /**
   Every session of the client dispatcher, seen from outside, is a run of the one-outstanding
   FIFO channel. Hence at every point accepted == finished + queue in order, a pending id is
   the id of the queue's head, and the write log without adjacent repeats is the finished
   requests followed by the outstanding one.
   */
  lemma ClientRefinesChannel(capacity: nat, es: seq<Event>)
    requires SessionRun(Fresh(capacity), es)
    ensures var s := After(Fresh(capacity), es);
            && Ch.Valid(Ch.EMPTY, RunOps(Fresh(capacity), es))
            && View(s) == Ch.After(Ch.EMPTY, RunOps(Fresh(capacity), es))
            && Ch.PendingIsHead(View(s))
            && Ch.Conserved(View(s))
            && Ch.WireInOrder(View(s))
  {
    assert View(Fresh(capacity)) == Ch.EMPTY;
    RunRefinesFrom(Fresh(capacity), es);
  }

  /** No session ever makes the pump dereference the head of an empty queue. */
  lemma SessionNeverCrashes(capacity: nat, es: seq<Event>, e: Event)
    requires SessionRun(Fresh(capacity), es)
    ensures !Crashes(After(Fresh(capacity), es), e)
  {
    ClientRefinesChannel(capacity, es);
  }

  /** A request is appended and signalled if there is room; otherwise it leaves no trace. */
  lemma SubmitAppendsIffRoom(s: State, b: Bundle)
    requires Enabled(s, Submit(b))
    ensures var t := Step(s, Submit(b));
            if s.capacity == 0 || |s.queue| < s.capacity
            then t == s.(queue := s.queue + [b], signals := s.signals + 1, accepted := s.accepted + [b])
            else t == s
  {
  }

  lemma CapacityStep(s: State, e: Event)
    requires Enabled(s, e) && (s.capacity > 0 ==> |s.queue| <= s.capacity)
    ensures var t := Step(s, e); t.capacity == s.capacity && (t.capacity > 0 ==> |t.queue| <= t.capacity)
  {
  }

  lemma {:induction false} CapacityRun(s: State, es: seq<Event>)
    requires Runs(s, es) && (s.capacity > 0 ==> |s.queue| <= s.capacity)
    ensures After(s, es).capacity == s.capacity
    ensures s.capacity > 0 ==> |After(s, es).queue| <= s.capacity
    decreases |es|
  {
    if es != [] {
      CapacityStep(s, es[0]);
      CapacityRun(Step(s, es[0]), es[1..]);
    }
  }

  /** In every run, restarts included, a bounded queue never exceeds its capacity. */
  lemma CapacityKept(capacity: nat, es: seq<Event>)
    requires Runs(Created(capacity), es)
    ensures capacity > 0 ==> |After(Created(capacity), es).queue| <= capacity
  {
    CapacityRun(Created(capacity), es);
  }

  // ----- What a step does on the outside -----

  /** The request a step hands to the websocket, if any. */
  function Sends(s: State, e: Event): (b: Option<Bundle>) {
    if s.paused then None
    else match e
      case OnSignal(_) => if s.rdy && s.queue != [] then Some(s.queue[0]) else None
      case OnToken(_) => if s.queue != [] then Some(s.queue[0]) else None
      case OnTimer(_) =>
        var k := if s.slot.Some? then 1 else 0;
        if s.rdy && |s.queue| > k then Some(s.queue[k]) else None
      case _ => None
  }

  /** The pending request a step ends, and how. */
  function Ends(s: State, e: Event): (d: Option<Done>) {
    if s.slot.None? then None
    else match e
      case Answer(id, rejected) =>
        if s.slot.value.id != id then None
        else Some(Done(s.slot.value, if rejected then Rejected else Confirmed(s.slot.value.request.feature)))
      case OnTimer(_) => Some(Done(s.slot.value, TimedOut))
      case _ => None
  }

  function Listed<T>(x: Option<T>): (r: seq<T>) {
    if x.Some? then [x.value] else []
  }

  /**
   What the outside sees of a step: the pending request is ended by its answer or a timeout, then
   at most one request is written, and one whose write fails is ended at once.
   */
  lemma StepEffects(s: State, e: Event)
    requires Ch.Shape(View(s)) && Enabled(s, e) && InSession(e)
    ensures var t, sent := Step(s, e), Sends(s, e);
            var ended := s.finished + Listed(Ends(s, e));
            && t.writes == s.writes + (if sent.Some? then [Sent(|ended|, sent.value)] else [])
            && t.finished == ended + (if sent.Some? && !e.writeOk then [Done(sent.value, WriteFailed)] else [])
            && (!e.Submit? ==> t.accepted == s.accepted)
  {
  }

  // ----- Permits -----

  function Permits(s: State): (n: nat) {
    (if s.rdy then 1 else 0) + s.tokens + (if s.slot.Some? then 1 else 0)
  }

  /** The tail of an iteration passes the permit on: from the pump to the slot or to a token. */
  lemma PermitTail(s: State, writeOk: bool)
    requires Ch.Shape(View(s))
    ensures Permits(s) >= 1 ==> Permits(Tail(s, writeOk)) >= 1
    ensures Permits(s) == 1 ==> Permits(Tail(s, writeOk)) == 1
  {
  }

  /**
   At least one permit always exists. A step other than Resume never creates or destroys one
   while exactly one is left.
   */
  lemma PermitStep(s: State, e: Event)
    requires Ch.Shape(View(s)) && Enabled(s, e) && InSession(e) && Permits(s) >= 1
    ensures Permits(Step(s, e)) >= 1
    ensures Permits(s) == 1 && !e.Resume? ==> Permits(Step(s, e)) == 1
    ensures e.Resume? && s.slot.None? ==> Permits(Step(s, e)) == Permits(s) + 1
  {
    match e
    case OnSignal(ok) => PermitTail(SignalTaken(s), ok);
    case OnToken(ok) => PermitTail(TokenTaken(s), ok);
    case OnTimer(ok) => PermitTail(TimerTaken(s), ok);
    case _ =>
  }

  lemma {:induction false} PermitRun(s: State, es: seq<Event>)
    requires Ch.Inv(View(s)) && SessionRun(s, es) && Permits(s) >= 1
    ensures Permits(After(s, es)) >= 1
    ensures Permits(s) == 1 && Resume !in es ==> Permits(After(s, es)) == 1
    decreases |es|
  {
    if es != [] {
      TailRun(s, es);
      StepRefines(s, es[0]);
      PermitStep(s, es[0]);
      assert es[0] in es;
      PermitRun(Step(s, es[0]), es[1..]);
    }
  }

  /**
   Without Resume exactly one of "the pump is ready", "a ready token is buffered" and "a request
   is pending" holds, so the ready channel has room whenever the pump completes a request.
   */
  lemma PermitConservation(capacity: nat, es: seq<Event>)
    requires SessionRun(Fresh(capacity), es)
    ensures Permits(After(Fresh(capacity), es)) >= 1
    ensures Resume !in es ==> Permits(After(Fresh(capacity), es)) == 1
    ensures Resume !in es ==> forall e :: !Blocks(After(Fresh(capacity), es), e)
  {
    PermitRun(Fresh(capacity), es);
    RunRefinesFrom(Fresh(capacity), es);
  }

  // ----- Repeated writes -----

  /** The pending request is written again: a token, or a signal to a ready pump, while unpaused. */
  predicate Rewrites(s: State, e: Event) {
    s.slot.Some? && !s.paused && (e.OnToken? || (e.OnSignal? && s.rdy))
  }

  ghost function RewriteCount(s: State, es: seq<Event>): (n: nat)
    requires Runs(s, es)
    decreases |es|
  {
    if es == [] then 0
    else (if Rewrites(s, es[0]) then 1 else 0) + RewriteCount(Step(s, es[0]), es[1..])
  }

  lemma TailResends(s: State, writeOk: bool)
    ensures Ch.Resends(TailOps(s, writeOk)) == if WillDispatch(s) && s.slot.Some? then 1 else 0
  {
    var first := if s.slot.Some? then Ch.Resend else Ch.Send;
    Ch.ResendsShort(first, Ch.Finish(WriteFailed));
  }

  lemma RewritesIff(s: State, e: Event)
    requires Ch.Shape(View(s)) && Enabled(s, e)
    ensures Ch.Resends(Ops(s, e)) == if Rewrites(s, e) then 1 else 0
  {
    match e
    case OnSignal(ok) => TailResends(SignalTaken(s), ok);
    case OnToken(ok) => TailResends(TokenTaken(s), ok);
    case OnTimer(ok) =>
      var first := if s.slot.Some? then [Ch.Finish(TimedOut)] else [];
      TailResends(TimerTaken(s), ok);
      Ch.ResendsAppend(first, TailOps(TimerTaken(s), ok));
    case _ =>
  }

  lemma {:induction false} RewriteRun(s: State, es: seq<Event>)
    requires Ch.Inv(View(s)) && SessionRun(s, es)
    ensures Ch.Resends(RunOps(s, es)) == RewriteCount(s, es)
    decreases |es|
  {
    if es != [] {
      TailRun(s, es);
      StepRefines(s, es[0]);
      RewritesIff(s, es[0]);
      RewriteRun(Step(s, es[0]), es[1..]);
      Ch.ResendsAppend(Ops(s, es[0]), RunOps(Step(s, es[0]), es[1..]));
    }
  }

  /** A permit is added by a Resume with nothing pending. */
  predicate Grants(s: State, e: Event) {
    e.Resume? && s.slot.None?
  }

  /** A permit is lost when a token reaches a pump that is ready already. */
  predicate Merges(s: State, e: Event) {
    e.OnToken? && s.rdy
  }

  lemma LedgerStep(s: State, e: Event)
    requires Ch.Shape(View(s)) && Enabled(s, e) && InSession(e)
    ensures Permits(Step(s, e)) + (if Merges(s, e) then 1 else 0) + (if Rewrites(s, e) then 1 else 0)
         == Permits(s) + (if Grants(s, e) then 1 else 0)
  {
  }

  /** Permits granted and lost along a run. */
  ghost function Granted(s: State, es: seq<Event>): (n: nat)
    requires Runs(s, es)
    decreases |es|
  {
    if es == [] then 0 else (if Grants(s, es[0]) then 1 else 0) + Granted(Step(s, es[0]), es[1..])
  }

  ghost function Merged(s: State, es: seq<Event>): (n: nat)
    requires Runs(s, es)
    decreases |es|
  {
    if es == [] then 0 else (if Merges(s, es[0]) then 1 else 0) + Merged(Step(s, es[0]), es[1..])
  }

  lemma {:induction false} LedgerRun(s: State, es: seq<Event>)
    requires Ch.Inv(View(s)) && SessionRun(s, es)
    ensures Permits(After(s, es)) + Merged(s, es) + RewriteCount(s, es) == Permits(s) + Granted(s, es)
    decreases |es|
  {
    if es != [] {
      TailRun(s, es);
      StepRefines(s, es[0]);
      LedgerStep(s, es[0]);
      LedgerRun(Step(s, es[0]), es[1..]);
    }
  }

  /**
   The ledger of a session: it starts with one permit; every Resume with nothing pending adds one;
   every token that meets a ready pump and every repeated write uses one up; nothing else counts.
   */
  lemma PermitLedger(capacity: nat, es: seq<Event>)
    requires SessionRun(Fresh(capacity), es)
    ensures var s0 := Fresh(capacity);
            Permits(After(s0, es)) == 1 + Granted(s0, es) - Merged(s0, es) - RewriteCount(s0, es)
  {
    LedgerRun(Fresh(capacity), es);
  }

  lemma {:induction false} NoRewriteRun(s: State, es: seq<Event>)
    requires Ch.Inv(View(s)) && SessionRun(s, es) && Permits(s) == 1 && Resume !in es
    ensures RewriteCount(s, es) == 0
    decreases |es|
  {
    if es != [] {
      TailRun(s, es);
      assert es[0] in es;
      StepRefines(s, es[0]);
      PermitStep(s, es[0]);
      NoRewriteRun(Step(s, es[0]), es[1..]);
    }
  }

  /**
   The writes of a session beyond one per written request are counted by the steps that meet the
   guard; no request is handed to the websocket twice if and only if no step of it did. Without
   Resume none does.
   */
  lemma WrittenOnceIff(capacity: nat, es: seq<Event>)
    requires SessionRun(Fresh(capacity), es)
    ensures var s := After(Fresh(capacity), es); var n := RewriteCount(Fresh(capacity), es);
            && |s.writes| == |Ch.Written(s.finished)| + |Ch.Outstanding(View(s))| + n
            && (Ch.WrittenOnce(View(s)) <==> n == 0)
            && (Resume !in es ==> n == 0)
  {
    if Resume !in es { NoRewriteRun(Fresh(capacity), es); }
    RewriteRun(Fresh(capacity), es);
    RunRefinesFrom(Fresh(capacity), es);
    Ch.SurplusIsResends(RunOps(Fresh(capacity), es));
  }

  /** A run can be extended by one step at its end. */
  lemma {:induction false} Extend(s: State, es: seq<Event>, e: Event)
    requires Runs(s, es) && Enabled(After(s, es), e)
    ensures Runs(s, es + [e]) && After(s, es + [e]) == Step(After(s, es), e)
    decreases |es|
  {
    if es == [] {
      assert [e][1..] == [] && es + [e] == [e];
    } else {
      Extend(Step(s, es[0]), es[1..], e);
      assert (es + [e])[1..] == es[1..] + [e];
    }
  }

  /**
   The pump waits for itself exactly when it completes a request while a token is buffered: on a
   failed write, on a timeout of the pending request, or when both fall into one iteration.
   */
  lemma BlocksIff(s: State, e: Event)
    requires Ch.Shape(View(s)) && Offered(s, e)
    ensures Blocks(s, e) <==>
      match e
      case OnSignal(ok) => !ok && !s.paused && s.rdy && s.queue != [] && s.tokens > 0
      case OnToken(ok) => !ok && !s.paused && s.queue != [] && s.tokens > 1
      case OnTimer(ok) =>
        || (s.slot.Some? && s.tokens > 0)
        || (&& !ok && !s.paused && s.rdy && (s.slot.Some? || s.tokens > 0)
            && |s.queue| > (if s.slot.Some? then 1 else 0))
      case _ => false
    ensures Blocks(s, e) ==> Permits(s) >= 2
  {
  }

  const SAMPLE := Bundle("1", Request("Heartbeat", 0))

  /** An idle reconnect: pause, resume, and a request whose signal overtakes the surplus token. */
  lemma IdleReconnectRun() returns (es: seq<Event>)
    ensures SessionRun(Fresh(0), es)
    ensures var s := After(Fresh(0), es);
            && s.queue == [SAMPLE] && s.slot.None? && s.rdy && !s.paused
            && s.signals == 1 && s.tokens == 1 && s.writes == [] && s.finished == [] && PumpAlive(s)
  {
    es := [];
    Extend(Fresh(0), es, Pause);
    es := es + [Pause];
    Extend(Fresh(0), es, Resume);
    es := es + [Resume];
    Extend(Fresh(0), es, Submit(SAMPLE));
    es := es + [Submit(SAMPLE)];
  }

  /** With Resume the same request can be written twice. */
  lemma ResumeCanWriteTwice() returns (es: seq<Event>)
    ensures SessionRun(Fresh(0), es)
    ensures After(Fresh(0), es).writes == [Sent(0, SAMPLE), Sent(0, SAMPLE)]
  {
    es := IdleReconnectRun();
    Extend(Fresh(0), es, OnSignal(true));
    es := es + [OnSignal(true)];
    Extend(Fresh(0), es, OnToken(true));
    es := es + [OnToken(true)];
  }

  /** With Resume a failing write can leave the pump waiting for itself. */
  lemma ResumeCanBlockThePump() returns (es: seq<Event>)
    ensures SessionRun(Fresh(0), es)
    ensures var s := After(Fresh(0), es); Offered(s, OnSignal(false)) && Blocks(s, OnSignal(false))
  {
    es := IdleReconnectRun();
  }

  // ----- No lost wakeup -----

  /** If the pump should send something, it has been told so. */
  ghost predicate Awake(s: State) {
    !s.paused && s.queue != [] && s.slot.None? ==> s.tokens > 0 || (s.rdy && s.signals > 0)
  }

  lemma AwakeStep(s: State, e: Event)
    requires Ch.Shape(View(s)) && Permits(s) >= 1 && Awake(s)
    requires Enabled(s, e) && InSession(e)
    ensures Awake(Step(s, e))
  {
  }

  lemma {:induction false} AwakeRun(s: State, es: seq<Event>)
    requires Ch.Inv(View(s)) && Permits(s) >= 1 && Awake(s) && SessionRun(s, es)
    ensures Awake(After(s, es))
    decreases |es|
  {
    if es != [] {
      TailRun(s, es);
      StepRefines(s, es[0]);
      PermitStep(s, es[0]);
      AwakeStep(s, es[0]);
      AwakeRun(Step(s, es[0]), es[1..]);
    }
  }

  /**
   With arbitrary pauses and resumes: whenever the dispatcher is unpaused, has queued requests
   and nothing pending, a ready token is buffered, or the pump is ready and a signal is buffered.
   */
  lemma NoLostWakeup(capacity: nat, es: seq<Event>)
    requires SessionRun(Fresh(capacity), es)
    ensures Awake(After(Fresh(capacity), es))
  {
    AwakeRun(Fresh(capacity), es);
  }

  lemma PausedStep(s: State, e: Event)
    requires Enabled(s, e) && s.paused && !e.Resume?
    ensures Step(s, e).writes == s.writes && Step(s, e).paused
    ensures s.slot.None? ==> Step(s, e).slot.None?
  {
  }

  /** While paused nothing is written or set to pending, however the pump is prodded. */
  lemma {:induction false} PausedWritesNothing(s: State, es: seq<Event>)
    requires Runs(s, es) && s.paused && Resume !in es
    ensures After(s, es).writes == s.writes && After(s, es).paused
    ensures s.slot.None? ==> After(s, es).slot.None?
    decreases |es|
  {
    if es != [] {
      assert es[0] in es;
      PausedStep(s, es[0]);
      PausedWritesNothing(Step(s, es[0]), es[1..]);
    }
  }

  /**
   A Pause stops the writing: from any state, whatever happens until the next Resume, nothing is
   written any more and nothing becomes pending. Everything else is as it was.
   */
  lemma PauseStopsWriting(s: State, es: seq<Event>)
    requires Enabled(s, Pause) && Runs(Step(s, Pause), es) && Resume !in es
    ensures var t := After(Step(s, Pause), es);
            t.writes == s.writes && t.paused && (s.slot.None? ==> t.slot.None?)
    ensures Step(s, Pause) == s.(paused := true)
  {
    PausedWritesNothing(Step(s, Pause), es);
  }

  /** A Resume ends it, and tells the pump so unless a request is pending. */
  lemma ResumeRestartsWriting(s: State)
    requires Enabled(s, Resume)
    ensures var t := Step(s, Resume);
            && !t.paused && t.tokens == s.tokens + (if s.slot.Some? then 0 else 1)
            && View(t) == View(s) && t.rdy == s.rdy && t.signals == s.signals && t.phase == s.phase
    ensures s.slot.None? && s.queue != [] && Enabled(Step(s, Resume), OnToken(true)) ==>
              var u := Step(Step(s, Resume), OnToken(true));
              u.writes == s.writes + [Sent(|s.finished|, s.queue[0])]
  {
  }

  // ----- Draining -----

  function Measure(s: State): (n: nat) {
    3 * |s.queue| + (if s.slot.None? then 1 else 0) + s.signals + s.tokens
  }

  /** Steps that happen without new requests, pauses or resumes. */
  predicate Draining(e: Event) {
    e.OnSignal? || e.OnToken? || e.OnTimer? || e.Answer?
  }

  /** The step consumes a signal or a token, ends the pending request or sends one. */
  predicate Effective(s: State, e: Event) {
    match e
    case OnSignal(_) => true
    case OnToken(_) => true
    case OnTimer(_) => s.slot.Some? || WillDispatch(s)
    case Answer(id, _) => s.slot.Some? && s.slot.value.id == id
    case _ => false
  }

  lemma DrainStep(s: State, e: Event)
    requires Ch.Shape(View(s)) && Permits(s) >= 1 && Enabled(s, e) && Draining(e)
    ensures Measure(Step(s, e)) <= Measure(s)
    ensures Effective(s, e) ==> Measure(Step(s, e)) < Measure(s)
    ensures Step(s, e).paused == s.paused && Step(s, e).phase == s.phase
  {
  }

  ghost function EffectiveSteps(s: State, es: seq<Event>): (n: nat)
    requires Runs(s, es)
    decreases |es|
  {
    if es == [] then 0
    else (if Effective(s, es[0]) then 1 else 0) + EffectiveSteps(Step(s, es[0]), es[1..])
  }

  /** A draining run takes at most 3 * |queue| + 1 + signals + tokens effective steps. */
  lemma {:induction false} DrainBound(s: State, es: seq<Event>)
    requires Ch.Inv(View(s)) && Permits(s) >= 1 && SessionRun(s, es)
    requires forall i :: 0 <= i < |es| ==> Draining(es[i])
    ensures EffectiveSteps(s, es) + Measure(After(s, es)) <= Measure(s)
    decreases |es|
  {
    if es != [] {
      TailRun(s, es);
      StepRefines(s, es[0]);
      PermitStep(s, es[0]);
      DrainStep(s, es[0]);
      forall i | 0 <= i < |es[1..]| ensures Draining(es[1..][i]) {
        assert es[1..][i] == es[i + 1];
      }
      DrainBound(Step(s, es[0]), es[1..]);
    }
  }

  /** A draining step for every unpaused state with queued requests. */
  function NextDrain(s: State): (e: Event) {
    if s.tokens > 0 then OnToken(true)
    else if s.slot.Some? then OnTimer(true)
    else OnSignal(true)
  }

  lemma DrainProgress(s: State)
    requires Ch.Shape(View(s)) && Awake(s) && PumpAlive(s) && !s.paused && s.queue != []
    ensures Enabled(s, NextDrain(s)) && Effective(s, NextDrain(s)) && Draining(NextDrain(s))
  {
  }

  lemma Prepend(s: State, e: Event, es: seq<Event>)
    requires Enabled(s, e) && InSession(e) && SessionRun(Step(s, e), es)
    ensures SessionRun(s, [e] + es) && After(s, [e] + es) == After(Step(s, e), es)
  {
    assert ([e] + es)[0] == e && ([e] + es)[1..] == es;
  }

  /** No new requests and no pause: a run that empties the queue within the bound always exists. */
  lemma {:induction false} Drains(s: State) returns (es: seq<Event>)
    requires Ch.Inv(View(s)) && Permits(s) >= 1 && Awake(s) && PumpAlive(s) && !s.paused
    ensures SessionRun(s, es) && After(s, es).queue == []
    ensures forall i :: 0 <= i < |es| ==> Draining(es[i])
    ensures |es| <= Measure(s)
    decreases Measure(s)
  {
    es := [];
    if s.queue != [] {
      var e := NextDrain(s);
      DrainProgress(s);
      var t := Step(s, e);
      assert Ch.Inv(View(t)) by { StepRefines(s, e); }
      assert Permits(t) >= 1 by { PermitStep(s, e); }
      assert Awake(t) by { AwakeStep(s, e); }
      DrainStep(s, e);
      var rest := Drains(t);
      Prepend(s, e, rest);
      es := [e] + rest;
    }
  }

  /** A draining run that has no effective continuation has emptied the queue. */
  lemma {:induction false} MaximalDrainEmpties(s: State, es: seq<Event>)
    requires Ch.Inv(View(s)) && Permits(s) >= 1 && Awake(s) && PumpAlive(s) && !s.paused
    requires SessionRun(s, es) && (forall i :: 0 <= i < |es| ==> Draining(es[i]))
    requires !exists e :: Draining(e) && Enabled(After(s, es), e) && Effective(After(s, es), e)
    ensures After(s, es).queue == []
    decreases |es|
  {
    if es == [] {
      if s.queue != [] { DrainProgress(s); }
    } else {
      TailRun(s, es);
      StepRefines(s, es[0]);
      PermitStep(s, es[0]);
      AwakeStep(s, es[0]);
      DrainStep(s, es[0]);
      forall i | 0 <= i < |es[1..]| ensures Draining(es[1..][i]) {
        assert es[1..][i] == es[i + 1];
      }
      MaximalDrainEmpties(Step(s, es[0]), es[1..]);
    }
  }

  // ----- Stop and restart -----

  /**
   Stop throws the queue away but keeps the pending slot: the teardown is the channel's discard
   exactly when nothing was pending.
   */
  lemma StopDiscardsAllButTheSlot(s: State)
    requires Ch.Inv(View(s)) && Enabled(s, OnClosed)
    ensures View(Step(s, OnClosed)) == Ch.Apply(View(s), Ch.Discard) <==> s.slot.None?
    ensures Ch.Conserved(View(Step(s, OnClosed)))
    ensures Step(s, OnClosed).slot == s.slot
  {
    Ch.ConservedStep(View(s), Ch.Discard);
  }

  /** The next session starts clean iff nothing was pending and no token was left at the teardown. */
  lemma RestartIsCleanIff(s: State)
    requires Ch.Inv(View(s)) && Enabled(s, OnClosed)
    ensures var t := Step(Step(s, OnClosed), Start);
            (Ch.Inv(View(t)) && Permits(t) == 1) <==> s.slot.None? && s.tokens == 0
  {
    var t := Step(Step(s, OnClosed), Start);
    if s.slot.Some? {
      assert !Ch.PendingIsHead(View(t));
    } else {
      assert Permits(t) == 1 + s.tokens;
      assert Ch.Inv(View(t)) by {
        Ch.InvStep(View(s), Ch.Discard);
        assert View(t) == Ch.Apply(View(s), Ch.Discard);
      }
    }
  }

  /** What a restart keeps: the slot, the tokens and the pause, but no signal and no queue. */
  lemma RestartKeeps(s: State)
    requires Enabled(s, OnClosed)
    ensures var t := Step(Step(s, OnClosed), Start);
            && t.slot == s.slot && t.tokens == s.tokens && t.paused == s.paused && t.writes == s.writes
            && t.queue == [] && t.signals == 0 && t.rdy && t.phase.Running?
  {
  }

  ghost predicate Stale(s: State, x: Bundle) {
    && s.slot == Some(x)
    && (forall i :: 0 <= i < |s.queue| ==> s.queue[i].id != x.id)
  }

  predicate AnsweredByPeer(o: Outcome) {
    o.Confirmed? || o.Rejected?
  }

  lemma StaleStep(s: State, e: Event, x: Bundle)
    requires Stale(s, x) && Enabled(s, e)
    requires e.Submit? ==> e.bundle.id != x.id
    ensures Stale(Step(s, e), x)
    ensures s.finished <= Step(s, e).finished
    ensures forall i :: |s.finished| <= i < |Step(s, e).finished| ==>
              !AnsweredByPeer(Step(s, e).finished[i].outcome)
  {
  }

  /**
   A slot left over from an earlier session is never released by requests with other ids, and
   until then no answer of the peer is ever accepted: every request can only time out, fail to
   be written or be discarded.
   */
  lemma {:induction false} StaleSlotRefusesAnswers(s: State, es: seq<Event>, x: Bundle)
    requires Stale(s, x) && Runs(s, es)
    requires forall i :: 0 <= i < |es| && es[i].Submit? ==> es[i].bundle.id != x.id
    ensures After(s, es).slot == Some(x)
    ensures s.finished <= After(s, es).finished
    ensures forall i :: |s.finished| <= i < |After(s, es).finished| ==>
              !AnsweredByPeer(After(s, es).finished[i].outcome)
    decreases |es|
  {
    if es != [] {
      StaleStep(s, es[0], x);
      forall i | 0 <= i < |es[1..]| && es[1..][i].Submit? ensures es[1..][i].bundle.id != x.id {
        assert es[1..][i] == es[i + 1];
      }
      StaleSlotRefusesAnswers(Step(s, es[0]), es[1..], x);
    }
  }

  /** Such a state is reached by stopping while a request is pending and starting again. */
  lemma StopWhilePendingGoesStale() returns (es: seq<Event>)
    ensures Runs(Fresh(0), es)
    ensures Stale(After(Fresh(0), es), SAMPLE) && After(Fresh(0), es).phase.Running?
    ensures Crashes(After(Fresh(0), es), OnTimer(true))
  {
    es := [];
    Extend(Fresh(0), es, Submit(SAMPLE));
    es := es + [Submit(SAMPLE)];
    Extend(Fresh(0), es, OnSignal(true));
    es := es + [OnSignal(true)];
    Extend(Fresh(0), es, Stop);
    es := es + [Stop];
    Extend(Fresh(0), es, OnClosed);
    es := es + [OnClosed];
    Extend(Fresh(0), es, Start);
    es := es + [Start];
  }
}
